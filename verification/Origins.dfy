/** Where the results on record come from: an execution, a refusal, or recovery's observation; and when a
    success is on record although nothing ran (linux_agent/agent.py, linux_agent/executor.py). */
module Origins {
  import opened Text
  import opened Lifecycle
  import opened Server
  import opened ServerRuns
  import opened Journal
  import opened Protocol
  import opened ProtocolRuns
  import opened ProtocolTheorems
  import opened ProtocolResults

  /** At step j the executor was called for the job. */
  ghost predicate Launched(worlds: seq<World>, steps: seq<Step>, j: nat, job: JobRef)
    requires |worlds| == |steps| + 1 && j < |steps|
  {
    worlds[j].pc.Launching? && JobOf(worlds[j].pc.g) == job && steps[j].Launch?
  }

  /** The executor was called for the job before step i, and returned this result. */
  ghost predicate Ran(worlds: seq<World>, steps: seq<Step>, i: nat, job: JobRef, r: JobResult)
    requires |worlds| == |steps| + 1 && i <= |steps|
  {
    exists j {:trigger Launched(worlds, steps, j, job)} :: 0 <= j < i && Launched(worlds, steps, j, job)
        && steps[j].outcome == Some(r)
  }

  ghost predicate RefusedAt(worlds: seq<World>, steps: seq<Step>, j: nat, job: JobRef)
    requires |worlds| == |steps| + 1 && j < |steps|
  {
    worlds[j].pc.Journaled? && JobOf(worlds[j].pc.g) == job && steps[j].Verify? && worlds[j + 1].pc.Reporting?
  }

  /** Verification refused the job before step i, and this is the refusal. */
  ghost predicate Refused(worlds: seq<World>, steps: seq<Step>, i: nat, job: JobRef, r: JobResult)
    requires |worlds| == |steps| + 1 && i <= |steps|
  {
    exists j {:trigger RefusedAt(worlds, steps, j, job)} :: 0 <= j < i && RefusedAt(worlds, steps, j, job)
        && r == Refusal(steps[j].error)
  }

  /** Step i is recovery reporting what it observes, for an entry without a recorded result. */
  predicate Observed(w: World, step: Step, job: JobRef, r: JobResult) {
    && step.RecoverOne? && w.pc.Recovering? && w.pc.pending != [] && w.pc.pending[0] == job && job in w.mem
    && !(w.mem[job].progress == Executed && w.mem[job].result.Some?) && r == step.observed
  }

  // ---- Results on the agent's side

  /** Every result the agent holds for the job is one of the given ones. */
  ghost predicate Known(w: World, job: JobRef, ran: JobResult -> bool, refused: JobResult -> bool) {
    && (w.pc.Finished? && Handles(w.pc, job) ==> ran(w.pc.result))
    && (w.pc.Reporting? && Handles(w.pc, job) ==> ran(w.pc.result) || refused(w.pc.result))
    && (job in w.mem && w.mem[job].result.Some? ==> ran(w.mem[job].result.value))
    && (job in w.disk && w.disk[job].result.Some? ==> ran(w.disk[job].result.value))
  }

  lemma KnownWider(w: World, job: JobRef, ran: JobResult -> bool, refused: JobResult -> bool,
                   ranNow: JobResult -> bool, refusedNow: JobResult -> bool)
    requires Known(w, job, ran, refused)
    requires forall r :: (ran(r) ==> ranNow(r)) && (refused(r) ==> refusedNow(r))
    ensures Known(w, job, ranNow, refusedNow)
  {
  }

  /** The steps of handling a claimed job, up to its report. */
  lemma HandlingKnown(u: Setup, w: World, step: Step, job: JobRef, ran: JobResult -> bool, refused: JobResult -> bool)
    requires Enabled(u, w, step) && Known(w, job, ran, refused)
    requires step.Journal? || step.Verify? || step.Launch? || step.Finish?
    requires step.Launch? && Handles(w.pc, job) && step.outcome.Some? ==> ran(step.outcome.value)
    requires step.Verify? && Handles(w.pc, job) && Do(u, w, step).pc.Reporting? ==> refused(Refusal(step.error))
    ensures Known(Do(u, w, step), job, ran, refused)
  {
  }

  lemma RequestKnown(u: Setup, w: World, step: Step, job: JobRef, ran: JobResult -> bool, refused: JobResult -> bool)
    requires Enabled(u, w, step) && Known(w, job, ran, refused)
    requires step.RecoverOne? || step.ClaimNext? || step.SendReport?
    ensures Known(Do(u, w, step), job, ran, refused)
  {
  }

  /** A step brings no result the agent had no business holding. */
  lemma StepKnown(u: Setup, w: World, step: Step, job: JobRef, ran: JobResult -> bool, refused: JobResult -> bool)
    requires Enabled(u, w, step) && Known(w, job, ran, refused)
    requires step.Launch? && Handles(w.pc, job) && step.outcome.Some? ==> ran(step.outcome.value)
    requires step.Verify? && Handles(w.pc, job) && Do(u, w, step).pc.Reporting? ==> refused(Refusal(step.error))
    ensures Known(Do(u, w, step), job, ran, refused)
  {
    if step.Journal? || step.Verify? || step.Launch? || step.Finish? {
      HandlingKnown(u, w, step, job, ran, refused);
    } else if step.RecoverOne? || step.ClaimNext? || step.SendReport? {
      RequestKnown(u, w, step, job, ran, refused);
    }
  }

  ghost function RanBy(worlds: seq<World>, steps: seq<Step>, i: nat, job: JobRef): JobResult -> bool
    requires |worlds| == |steps| + 1 && i <= |steps|
  {
    r => Ran(worlds, steps, i, job, r)
  }

  ghost function RefusedBy(worlds: seq<World>, steps: seq<Step>, i: nat, job: JobRef): JobResult -> bool
    requires |worlds| == |steps| + 1 && i <= |steps|
  {
    r => Refused(worlds, steps, i, job, r)
  }

  lemma {:induction false} RunKnown(u: Setup, worlds: seq<World>, steps: seq<Step>, i: nat, job: JobRef)
    requires IsRun(u, worlds, steps) && i < |worlds|
    ensures Known(worlds[i], job, RanBy(worlds, steps, i, job), RefusedBy(worlds, steps, i, job))
  {
    if i > 0 {
      var p := i - 1;
      RunKnown(u, worlds, steps, p, job);
      StepOf(u, worlds, steps, p);
      if steps[p].Launch? && Handles(worlds[p].pc, job) && steps[p].outcome.Some? {
        assert Launched(worlds, steps, p, job);
      }
      if steps[p].Verify? && Handles(worlds[p].pc, job) && worlds[i].pc.Reporting? {
        assert RefusedAt(worlds, steps, p, job);
      }
      KnownWider(worlds[p], job, RanBy(worlds, steps, p, job), RefusedBy(worlds, steps, p, job),
                 RanBy(worlds, steps, i, job), RefusedBy(worlds, steps, i, job));
      StepKnown(u, worlds[p], steps[p], job, RanBy(worlds, steps, i, job), RefusedBy(worlds, steps, i, job));
    }
  }

  lemma StepExecuted(u: Setup, w: World, step: Step, job: JobRef)
    requires Enabled(u, w, step)
    ensures job in Do(u, w, step).executed <==> job in w.executed || (step.Launch? && JobOf(w.pc.g) == job)
  {
  }

  /** The executor log holds exactly the jobs launched so far. */
  lemma {:induction false} ExecutedExactlyLaunched(u: Setup, worlds: seq<World>, steps: seq<Step>, i: nat, job: JobRef)
    requires IsRun(u, worlds, steps) && i < |worlds|
    ensures job in worlds[i].executed
        <==> exists j {:trigger Launched(worlds, steps, j, job)} :: 0 <= j < i && Launched(worlds, steps, j, job)
  {
    if i > 0 {
      var p := i - 1;
      ExecutedExactlyLaunched(u, worlds, steps, p, job);
      StepOf(u, worlds, steps, p);
      StepExecuted(u, worlds[p], steps[p], job);
      assert Launched(worlds, steps, p, job) <==> steps[p].Launch? && JobOf(worlds[p].pc.g) == job;
    }
  }

  // ---- Results on record

  /** Step i puts result r on record for attempt n of the agent's action a. */
  ghost predicate Records(u: Setup, worlds: seq<World>, i: nat, a: string, n: nat, r: JobResult)
    requires i + 1 < |worlds|
  {
    && Current(u, worlds[i].server, a, n)
    && worlds[i + 1].server.results == worlds[i].server.results + [ResultRow(worlds[i].server.actions[a].tenant, a, r)]
  }

  lemma ForeignRecordsNothing(u: Setup, s: State, op: Op, now: int, a: string, n: nat, r: JobResult)
    requires Foreign(u, op) && Current(u, s, a, n)
    ensures Next(u.config, s, op, now).results != s.results + [ResultRow(s.actions[a].tenant, a, r)]
  {
    StepAnswers(u.config, s, op, now);
    if op.OpReport? && op.id != a {
      assert (s.results + [ResultRow(s.actions[a].tenant, a, r)])[|s.results|].action == a;
    }
  }

  /** The agent's own report of attempt m records its own result, and only for the current attempt. */
  lemma OwnRecord(u: Setup, s: State, e: Entry, m: nat, sent: JobResult, now: int, a: string, n: nat, r: JobResult)
    requires Current(u, s, a, n) && TokenBelongs(s, a)
        && e.claimToken == ClaimToken(e.job.action, m, ClaimKey(e.job.action))
    requires Next(u.config, s, ReportOp(u, e, sent), now).results == s.results + [ResultRow(s.actions[a].tenant, a, r)]
    ensures e.job.action == a && m == n && sent == r
  {
    var op := ReportOp(u, e, sent);
    StepAnswers(u.config, s, op, now);
    var row := ResultRow(s.actions[a].tenant, a, r);
    assert (s.results + [row])[|s.results|] == row;
    assert |s.results + [row]| != |s.results|;
    assert op.id == a && op.result == r;
    AcceptedIsCurrent(s, op.tenant, op.device, a, m, ClaimKey(a), now);
  }

  lemma ClaimRecordsNothing(u: Setup, s: State, b: string, nonce: string, now: int)
    ensures Next(u.config, s, ClaimOp(u, b, nonce), now).results == s.results
  {
    StepAnswers(u.config, s, ClaimOp(u, b, nonce), now);
  }

  lemma ClaimIsNoRecord(u: Setup, w: World, nonce: string, net: Delivery, row: ResultRow)
    requires w.pc.Polled? && w.pc.todo != []
    ensures DoClaimNext(u, w, nonce, net).server.results != w.server.results + [row]
  {
    ClaimRecordsNothing(u, w.server, w.pc.todo[0], nonce, w.now);
    assert |w.server.results + [row]| != |w.server.results|;
  }

  /** An own report that records something was sent and arrived. */
  lemma SentRecord(u: Setup, w: World, net: Delivery, a: string, n: nat, r: JobResult)
    requires w.pc.Reporting? && Current(u, w.server, a, n) && TokenBelongs(w.server, a)
    requires w.pc.g.token == ClaimToken(w.pc.g.fields.actionId, w.pc.g.attempt, ClaimKey(w.pc.g.fields.actionId))
    requires DoSendReport(u, w, net).server.results == w.server.results + [ResultRow(w.server.actions[a].tenant, a, r)]
    ensures JobOf(w.pc.g) == JobRef(a, n) && w.pc.result == r
  {
    assert |w.server.results + [ResultRow(w.server.actions[a].tenant, a, r)]| != |w.server.results|;
    OwnRecord(u, w.server, NewEntry(w.pc.g, w.now), w.pc.g.attempt, w.pc.result, w.now, a, n, r);
  }

  lemma RecoveredRecord(u: Setup, w: World, observed: JobResult, net: Delivery, saved: bool, a: string, n: nat,
                        r: JobResult)
    requires w.pc.Recovering? && w.pc.pending != [] && Current(u, w.server, a, n) && TokenBelongs(w.server, a)
    requires EntryOk(w.server, w.mem, w.pc.pending[0].action, w.pc.pending[0].attempt)
    requires DoRecoverOne(u, w, observed, net, saved).server.results
        == w.server.results + [ResultRow(w.server.actions[a].tenant, a, r)]
    ensures w.pc.pending[0] == JobRef(a, n) && JobRef(a, n) in w.mem
        && r == RecoveryResult(w.mem[JobRef(a, n)], observed)
  {
    var job := w.pc.pending[0];
    assert |w.server.results + [ResultRow(w.server.actions[a].tenant, a, r)]| != |w.server.results|;
    if job in w.mem {
      OwnRecord(u, w.server, w.mem[job], job.attempt, RecoveryResult(w.mem[job], observed), w.now, a, n, r);
    }
  }

  lemma OtherStepsRecordNothing(u: Setup, w: World, step: Step, row: ResultRow)
    requires Enabled(u, w, step) && !step.Elsewhere? && !step.ClaimNext? && !step.SendReport? && !step.RecoverOne?
    ensures Do(u, w, step).server.results != w.server.results + [row]
  {
    assert |w.server.results + [row]| != |w.server.results|;
  }

  /** Over every run a result on record for an attempt is what the executor returned for that very job, the
      refusal of that very job, or what recovery observed of it. */
  lemma RecordedResultOrigin(u: Setup, worlds: seq<World>, steps: seq<Step>, i: nat, a: string, n: nat, r: JobResult)
    requires IsRun(u, worlds, steps) && i < |steps| && Records(u, worlds, i, a, n, r)
    ensures
      var job := JobRef(a, n);
      Ran(worlds, steps, i, job, r) || Refused(worlds, steps, i, job, r) || Observed(worlds[i], steps[i], job, r)
  {
    var w, step := worlds[i], steps[i];
    var row := ResultRow(w.server.actions[a].tenant, a, r);
    StepOf(u, worlds, steps, i);
    RunAgrees(u, worlds, steps, i, a, n);
    RunKnown(u, worlds, steps, i, JobRef(a, n));
    match step
    case Elsewhere(op) => ForeignRecordsNothing(u, w.server, op, w.now, a, n, r);
    case ClaimNext(nonce, net) => ClaimIsNoRecord(u, w, nonce, net, row);
    case SendReport(net) =>
      RunAgrees(u, worlds, steps, i, w.pc.g.fields.actionId, w.pc.g.attempt);
      SentRecord(u, w, net, a, n, r);
    case RecoverOne(observed, net, saved) =>
      RunKeeps(u, worlds, steps, i, w.pc.pending[0].action, w.pc.pending[0].attempt);
      RecoveredRecord(u, w, observed, net, saved, a, n, r);
    case _ => OtherStepsRecordNothing(u, w, step, row);
  }

  // ---- Successes of jobs that never ran

  /** This step ends the handling of a claimed job before the executor is called for it: the process dies, a
      journal save fails, or verification refuses the envelope. */
  predicate GivesUp(w: World, step: Step, job: JobRef) {
    && Preparing(w.pc, job)
    && match step
       case Crash => true
       case Journal(saved) => w.pc.Claiming? && !saved
       case Verify(otherwiseValid, _, saved) =>
           w.pc.Journaled? && (w.pc.g.fields.expiresAt <= w.now || !otherwiseValid || !saved)
       case _ => false
  }

  /** The job was given up in step k, and its entry has been in memory ever since. */
  ghost predicate GivenUpSince(worlds: seq<World>, steps: seq<Step>, k: nat, i: nat, job: JobRef)
    requires |worlds| == |steps| + 1 && k < i <= |steps|
  {
    GivesUp(worlds[k], steps[k], job) && forall m :: k < m <= i ==> job in worlds[m].mem
  }

  ghost predicate GivenUp(worlds: seq<World>, steps: seq<Step>, i: nat, job: JobRef)
    requires |worlds| == |steps| + 1 && i <= |steps|
  {
    exists k {:trigger GivenUpSince(worlds, steps, k, i, job)} :: 0 <= k < i && GivenUpSince(worlds, steps, k, i, job)
  }

  /** Whatever a step does to a job it prepares: go on, launch it, or give it up. */
  lemma PreparingStep(u: Setup, w: World, step: Step, job: JobRef)
    requires Enabled(u, w, step) && Preparing(w.pc, job)
    ensures Preparing(Do(u, w, step).pc, job) || job in Do(u, w, step).executed || GivesUp(w, step, job)
    ensures GivesUp(w, step, job) ==> !Preparing(Do(u, w, step).pc, job) && Do(u, w, step).executed == w.executed
  {
  }

  /** Nothing starts the handling of a job that is in memory, and nothing else puts one there. */
  lemma IdleStep(u: Setup, w: World, step: Step, job: JobRef)
    requires Enabled(u, w, step) && !Preparing(w.pc, job)
    ensures job in w.mem ==> !Preparing(Do(u, w, step).pc, job)
    ensures job in Do(u, w, step).executed <==> job in w.executed
    ensures job in Do(u, w, step).mem ==> job in w.mem || job in w.disk
  {
    StepExecuted(u, w, step, job);
    if step.ClaimNext? {
      IdleClaim(u, w, step.nonce, step.net, job);
    }
  }

  lemma IdleClaim(u: Setup, w: World, nonce: string, net: Delivery, job: JobRef)
    requires w.pc.Polled? && w.pc.todo != []
    ensures job in w.mem ==> !Preparing(DoClaimNext(u, w, nonce, net).pc, job)
    ensures DoClaimNext(u, w, nonce, net).mem == w.mem
  {
  }
  lemma SettledBefore(u: Setup, worlds: seq<World>, steps: seq<Step>, i: nat, a: string)
    requires IsRun(u, worlds, steps) && 0 < i < |worlds| && !Settled(worlds[i].server, a)
    ensures !Settled(worlds[i - 1].server, a)
  {
    StepOf(u, worlds, steps, i - 1);
    var op := TablesStep(u, worlds[i - 1], steps[i - 1]);
    if Settled(worlds[i - 1].server, a) {
      TerminalStep(u.config, worlds[i - 1].server, op, worlds[i - 1].now, a);
    }
  }

  /** In a step of a run whose action stays unsettled, the entry of a job not yet launched is there because the
      job is being prepared, was given up just now, or was there before. */
  lemma UnexecutedStep(u: Setup, worlds: seq<World>, steps: seq<Step>, i: nat, job: JobRef)
    requires IsRun(u, worlds, steps) && 0 < i < |worlds| && !Settled(worlds[i].server, job.action)
    requires job in worlds[i].mem && job !in worlds[i].executed
    ensures Preparing(worlds[i].pc, job) || GivesUp(worlds[i - 1], steps[i - 1], job)
         || (job in worlds[i - 1].mem && job !in worlds[i - 1].executed && !Preparing(worlds[i - 1].pc, job))
  {
    StepOf(u, worlds, steps, i - 1);
    SettledBefore(u, worlds, steps, i, job.action);
    RunKeeps(u, worlds, steps, i - 1, job.action, job.attempt);
    if Preparing(worlds[i - 1].pc, job) {
      PreparingStep(u, worlds[i - 1], steps[i - 1], job);
    } else {
      IdleStep(u, worlds[i - 1], steps[i - 1], job);
    }
  }

  lemma {:induction false} UnexecutedWasGivenUp(u: Setup, worlds: seq<World>, steps: seq<Step>, i: nat, job: JobRef)
    requires IsRun(u, worlds, steps) && i < |worlds| && !Settled(worlds[i].server, job.action)
    requires job in worlds[i].mem && job !in worlds[i].executed && !Preparing(worlds[i].pc, job)
    ensures GivenUp(worlds, steps, i, job)
  {
    if i > 0 {
      UnexecutedStep(u, worlds, steps, i, job);
      if GivesUp(worlds[i - 1], steps[i - 1], job) {
        assert GivenUpSince(worlds, steps, i - 1, i, job);
      } else {
        SettledBefore(u, worlds, steps, i, job.action);
        UnexecutedWasGivenUp(u, worlds, steps, i - 1, job);
        var k :| 0 <= k < i - 1 && GivenUpSince(worlds, steps, k, i - 1, job);
        assert GivenUpSince(worlds, steps, k, i, job);
      }
    }
  }

  lemma {:induction false} GivenUpNeverRuns(u: Setup, worlds: seq<World>, steps: seq<Step>, k: nat, i: nat, job: JobRef)
    requires IsRun(u, worlds, steps) && k < i < |worlds| && GivenUpSince(worlds, steps, k, i, job)
    ensures job !in worlds[i].executed && !Preparing(worlds[i].pc, job)
  {
    StepOf(u, worlds, steps, i - 1);
    if k == i - 1 {
      RunKeeps(u, worlds, steps, k, job.action, job.attempt);
      PreparingStep(u, worlds[k], steps[k], job);
    } else {
      GivenUpNeverRuns(u, worlds, steps, k, i - 1, job);
      IdleStep(u, worlds[i - 1], steps[i - 1], job);
    }
  }

  /** Over every run a journaled job that is not being prepared, and whose action is open, was never executed
      exactly when it was given up before its launch and its entry was not lost since. */
  lemma UnexecutedExactly(u: Setup, worlds: seq<World>, steps: seq<Step>, i: nat, job: JobRef)
    requires IsRun(u, worlds, steps) && i < |worlds| && !Settled(worlds[i].server, job.action)
    requires job in worlds[i].mem && !Preparing(worlds[i].pc, job)
    ensures job !in worlds[i].executed <==> GivenUp(worlds, steps, i, job)
  {
    if GivenUp(worlds, steps, i, job) {
      var k :| 0 <= k < i && GivenUpSince(worlds, steps, k, i, job);
      GivenUpNeverRuns(u, worlds, steps, k, i, job);
    } else if job !in worlds[i].executed {
      UnexecutedWasGivenUp(u, worlds, steps, i, job);
    }
  }

  lemma RecordedWhileOpen(u: Setup, worlds: seq<World>, steps: seq<Step>, i: nat, a: string, n: nat, r: JobResult)
    requires IsRun(u, worlds, steps) && i < |steps| && Records(u, worlds, i, a, n, r)
    ensures !Settled(worlds[i].server, a)
  {
    StepOf(u, worlds, steps, i);
    var s := worlds[i].server;
    var op := TablesStep(u, worlds[i], steps[i]);
    StepAnswers(u.config, s, op, worlds[i].now);
    var row := ResultRow(s.actions[a].tenant, a, r);
    assert (s.results + [row])[|s.results|] == row;
    assert |s.results + [row]| != |s.results|;
  }

  /** A success on record without an execution comes about in exactly one way: the job was given up before its
      launch, by a crash, a failed save or a refusal, its entry stayed in the journal, and recovery found the
      service healthy. */
  lemma SuccessWithoutExecutionExactly(u: Setup, worlds: seq<World>, steps: seq<Step>, i: nat, a: string, n: nat,
                                       r: JobResult)
    requires IsRun(u, worlds, steps) && i < |steps| && Records(u, worlds, i, a, n, r) && ReportedStatus(r) == Succeeded
    ensures JobRef(a, n) !in worlds[i].executed <==> GivenUp(worlds, steps, i, JobRef(a, n))
    ensures JobRef(a, n) !in worlds[i].executed ==> Observed(worlds[i], steps[i], JobRef(a, n), r)
  {
    var job := JobRef(a, n);
    RecordedWhileOpen(u, worlds, steps, i, a, n, r);
    RecordedResultOrigin(u, worlds, steps, i, a, n, r);
    ExecutedExactlyLaunched(u, worlds, steps, i, job);
    if Observed(worlds[i], steps[i], job, r) {
      UnexecutedExactly(u, worlds, steps, i, job);
    } else if GivenUp(worlds, steps, i, job) {
      var k :| 0 <= k < i && GivenUpSince(worlds, steps, k, i, job);
      GivenUpNeverRuns(u, worlds, steps, k, i, job);
      assert false;
    }
  }

  /** What the journal knows when a success goes on record: unless recovery observes, the job ran; an entry it
      observes for is `claimed` or `executing`, and a `claimed` one never ran. For an `executing` one the journal
      cannot tell: see Scenarios.JournalCannotTell. */
  lemma JournalTells(u: Setup, worlds: seq<World>, steps: seq<Step>, i: nat, a: string, n: nat, r: JobResult)
    requires IsRun(u, worlds, steps) && i < |steps| && Records(u, worlds, i, a, n, r) && ReportedStatus(r) == Succeeded
    ensures
      var job := JobRef(a, n);
      if Observed(worlds[i], steps[i], job, r)
      then (worlds[i].mem[job].progress == Recorded && job !in worlds[i].executed)
          || worlds[i].mem[job].progress == Executing
      else job in worlds[i].executed
  {
    RecordedWhileOpen(u, worlds, steps, i, a, n, r);
    RecordedResultOrigin(u, worlds, steps, i, a, n, r);
    ExecutedExactlyLaunched(u, worlds, steps, i, JobRef(a, n));
    RunKeeps(u, worlds, steps, i, a, n);
  }
}

/** The main results about the job-lease protocol, for every run of control plane and agent together. */
module ProtocolTheorems {
  import opened Text
  import opened Signing
  import opened Lifecycle
  import opened Server
  import opened ServerRuns
  import opened Journal
  import opened Protocol
  import opened ProtocolRuns

  // ---- The requests of the protocol

  /** The agent's claims come under its own key. */
  predicate AgentsClaim(u: Setup, op: Op) {
    op.OpClaim? && op == ClaimOp(u, op.id, op.nonce)
  }

  predicate AgentsReport(u: Setup, op: Op) {
    op.OpReport? && op.tenant == u.tenant && op.device == u.device
  }

  /** Each step of the protocol leaves the tables alone or performs one control-plane step on them: somebody
      else's, or a claim or a report of the agent. */
  lemma TablesStep(u: Setup, w: World, step: Step) returns (op: Op)
    requires Enabled(u, w, step)
    ensures Do(u, w, step).server == w.server || Do(u, w, step).server == Next(u.config, w.server, op, w.now)
    ensures Foreign(u, op) || AgentsClaim(u, op) || AgentsReport(u, op)
    ensures Foreign(u, op) ==> Do(u, w, step).server == w.server || step == Elsewhere(op)
  {
    op := OpPurge(0);
    match step
    case Elsewhere(other) => op := other;
    case ClaimNext(nonce, _) => op := ClaimOp(u, w.pc.todo[0], nonce);
    case SendReport(_) => op := ReportOp(u, NewEntry(w.pc.g, w.now), w.pc.result);
    case RecoverOne(observed, _, _) =>
      if w.pc.pending[0] in w.mem {
        var e := w.mem[w.pc.pending[0]];
        op := ReportOp(u, e, RecoveryResult(e, observed));
      }
    case _ =>
  }

  // ---- At most one execution per job

  /** Over every run, no job is handed to the executor twice. */
  lemma AtMostOnceExecution(u: Setup, worlds: seq<World>, steps: seq<Step>, i: nat)
    requires IsRun(u, worlds, steps) && i < |worlds|
    ensures Distinct(worlds[i].executed)
  {
    var executed := worlds[i].executed;
    forall x, y | 0 <= x < y < |executed| ensures executed[x] != executed[y] {
      var job := executed[x];
      RunKeeps(u, worlds, steps, i, job.action, job.attempt);
      if executed[y] == job {
        OccursTwice(executed, x, y);
      }
    }
  }

  lemma OccursTwice(s: seq<JobRef>, x: nat, y: nat)
    requires x < y < |s| && s[x] == s[y]
    ensures multiset(s)[s[x]] >= 2
  {
    assert s == s[..x] + [s[x]] + s[x + 1..y] + [s[y]] + s[y + 1..];
    var job := s[x];
    assert multiset(s)
        == multiset(s[..x]) + multiset{job} + multiset(s[x + 1..y]) + multiset{job} + multiset(s[y + 1..]);
  }

  /** The same in terms of the `job_id` texts, whose encoding never merges two jobs. */
  lemma AtMostOncePerJobId(u: Setup, worlds: seq<World>, steps: seq<Step>, i: nat, x: nat, y: nat)
    requires IsRun(u, worlds, steps) && i < |worlds| && x < y < |worlds[i].executed|
    requires ':' !in worlds[i].executed[x].action && ':' !in worlds[i].executed[y].action
    ensures JobId(worlds[i].executed[x].action, worlds[i].executed[x].attempt)
         != JobId(worlds[i].executed[y].action, worlds[i].executed[y].attempt)
  {
    AtMostOnceExecution(u, worlds, steps, i);
    var p, q := worlds[i].executed[x], worlds[i].executed[y];
    if JobId(p.action, p.attempt) == JobId(q.action, q.attempt) {
      JobIdInjective(p.action, p.attempt, q.action, q.attempt);
    }
  }

  // ---- Bounded executions per action

  function RunsOf(executed: seq<JobRef>, a: string): nat {
    if executed == [] then 0
    else RunsOf(executed[..|executed| - 1], a) + (if executed[|executed| - 1].action == a then 1 else 0)
  }

  function AttemptsRun(executed: seq<JobRef>, a: string): set<nat> {
    set x | 0 <= x < |executed| && executed[x].action == a :: executed[x].attempt
  }

  lemma AttemptsSnoc(before: seq<JobRef>, last: JobRef, a: string)
    ensures AttemptsRun(before + [last], a)
        == AttemptsRun(before, a) + (if last.action == a then {last.attempt} else {})
  {
    var executed := before + [last];
    forall n | n in AttemptsRun(executed, a)
        ensures n in AttemptsRun(before, a) || (last.action == a && n == last.attempt) {
      var x :| 0 <= x < |executed| && executed[x].action == a && executed[x].attempt == n;
      assert x < |before| ==> before[x] == executed[x];
    }
    forall n | n in AttemptsRun(before, a) ensures n in AttemptsRun(executed, a) {
      var x :| 0 <= x < |before| && before[x].action == a && before[x].attempt == n;
      assert executed[x] == before[x];
    }
    assert executed[|before|] == last;
  }

  lemma {:induction false} DistinctRunsCount(executed: seq<JobRef>, a: string)
    requires Distinct(executed)
    ensures RunsOf(executed, a) == |AttemptsRun(executed, a)|
  {
    if executed != [] {
      var n := |executed| - 1;
      var before, last := executed[..n], executed[n];
      assert executed == before + [last];
      DistinctRunsCount(before, a);
      AttemptsSnoc(before, last, a);
      if last.action == a {
        forall x | 0 <= x < n && before[x].action == a ensures before[x].attempt != last.attempt {
          assert executed[x] != executed[n];
        }
      }
    }
  }

  lemma {:induction false} CountUpTo(s: set<nat>, k: nat)
    requires forall n <- s :: 1 <= n <= k
    ensures |s| <= k
  {
    if k == 0 {
      assert s == {};
    } else {
      CountUpTo(s - {k}, k - 1);
    }
  }

  /** Attempts are paid for: each one beyond the first needed a purge of the agent's claim record. */
  ghost predicate AttemptsPaid(u: Setup, w: World, a: string) {
    OurAction(u, w.server, a) ==>
      w.server.actions[a].attempt <= w.purged[a] + (if ClaimRecord(u, w.server, a).Some? then 1 else 0)
  }

  lemma ElsewherePays(u: Setup, w: World, op: Op, a: string)
    requires Foreign(u, op) && AttemptsPaid(u, w, a)
    ensures AttemptsPaid(u, DoElsewhere(u, w, op), a)
  {
    var t := Next(u.config, w.server, op, w.now);
    ForeignAttempt(u, w.server, op, w.now, a);
    ForeignRecord(u, w.server, op, w.now, a);
    if ClaimRecord(u, w.server, a).Some? && ClaimRecord(u, t, a).None? && OurAction(u, w.server, a) {
      RecordGone(u, w.server, op, w.now, a);
      assert a in Lost(u, w, t);
    }
  }

  /** Nobody else numbers the agent's action. */
  lemma ForeignAttempt(u: Setup, s: State, op: Op, now: int, a: string)
    requires Foreign(u, op)
    ensures
      var t := Next(u.config, s, op, now);
      OurAction(u, t, a) ==> t.actions[a].attempt == (if OurAction(u, s, a) then s.actions[a].attempt else 0)
  {
    if OurAction(u, s, a) {
      ForeignRow(u, s, op, now, a);
    } else {
      StepTouches(u.config, s, op, now, a);
      SubmittedAttempt(u, s, Next(u.config, s, op, now), now, a);
    }
  }

  lemma SubmittedAttempt(u: Setup, s: State, t: State, now: int, a: string)
    requires RowMoves(u.config, Row(s, a), Row(t, a), a, now) && !OurAction(u, s, a)
    ensures OurAction(u, t, a) ==> t.actions[a].attempt == 0
  {
  }

  lemma RecordGone(u: Setup, s: State, op: Op, now: int, a: string)
    requires ClaimRecord(u, s, a).Some? && ClaimRecord(u, Next(u.config, s, op, now), a).None?
    ensures op.OpPurge? && ClaimRk(u, a) !in Next(u.config, s, op, now).records
  {
    if !op.OpPurge? {
      RecordsPersist(u.config, s, op, now, ClaimRk(u, a));
    }
  }

  /** The agent's own requests. */
  lemma OwnPays(u: Setup, w: World, op: Op, a: string)
    requires (AgentsClaim(u, op) || AgentsReport(u, op)) && AttemptsPaid(u, w, a)
    ensures AttemptsPaid(u, w.(server := Next(u.config, w.server, op, w.now)), a)
  {
    StepTouches(u.config, w.server, op, w.now, a);
  }

  lemma PurgedElsewhere(u: Setup, w: World, step: Step)
    requires Enabled(u, w, step) && !step.Elsewhere?
    ensures Do(u, w, step).purged == w.purged
  {
  }

  lemma StepPays(u: Setup, w: World, step: Step, a: string)
    requires Enabled(u, w, step) && AttemptsPaid(u, w, a)
    ensures AttemptsPaid(u, Do(u, w, step), a)
  {
    if step.Elsewhere? {
      ElsewherePays(u, w, step.op, a);
    } else {
      var op := TablesStep(u, w, step);
      PurgedElsewhere(u, w, step);
      if !Foreign(u, op) {
        OwnPays(u, w, op, a);
      }
    }
  }

  lemma {:induction false} RunPays(u: Setup, worlds: seq<World>, steps: seq<Step>, i: nat, a: string)
    requires IsRun(u, worlds, steps) && i < |worlds|
    ensures AttemptsPaid(u, worlds[i], a)
  {
    if i > 0 {
      RunPays(u, worlds, steps, i - 1, a);
      StepOf(u, worlds, steps, i - 1);
      StepPays(u, worlds[i - 1], steps[i - 1], a);
    }
  }

  /** The executor runs for an action at most max(1, maximum attempts) times, and at most once more than the
      number of times its claim record was purged. */
  lemma ExecutionsPerAction(u: Setup, worlds: seq<World>, steps: seq<Step>, i: nat, a: string)
    requires IsRun(u, worlds, steps) && i < |worlds|
    ensures RunsOf(worlds[i].executed, a) <= AttemptCap(u.config)
    ensures RunsOf(worlds[i].executed, a) <= worlds[i].purged[a] + 1
  {
    var w := worlds[i];
    AtMostOnceExecution(u, worlds, steps, i);
    DistinctRunsCount(w.executed, a);
    RunPays(u, worlds, steps, i, a);
    RunKeeps(u, worlds, steps, i, a, 0);
    var attempts := AttemptsRun(w.executed, a);
    forall n | n in attempts ensures OurAction(u, w.server, a) && 1 <= n <= w.server.actions[a].attempt {
      RunKeeps(u, worlds, steps, i, a, n);
      assert JobRef(a, n) in w.executed;
    }
    if attempts == {} {
    } else {
      var n :| n in attempts;
      CountUpTo(attempts, w.server.actions[a].attempt);
    }
  }

  // ---- The requeue that does not requeue

  /** A poll of an action whose claim record is still on file: what a requeue leaves behind. */
  predicate Stuck(u: Setup, s: State, a: string) {
    Pollable(s, u.tenant, u.device, a) && ClaimRecord(u, s, a).Some?
  }

  /** The agent's claim of a queued action starts a new attempt exactly when no record is on file for its
      key (and the skill is still registered); with one, it is answered from the record and changes nothing. */
  lemma FreshExactlyWithoutRecord(u: Setup, s: State, a: string, nonce: string, now: int)
    requires Pollable(s, u.tenant, u.device, a)
    ensures
      var t := Next(u.config, s, ClaimOp(u, a, nonce), now);
      (t.actions[a].attempt == s.actions[a].attempt + 1
       <==> ClaimRk(u, a) !in s.records && s.actions[a].skillId in s.skills)
    ensures ClaimRk(u, a) in s.records ==> Next(u.config, s, ClaimOp(u, a, nonce), now) == s
  {
  }

  lemma StuckElsewhere(u: Setup, s: State, op: Op, now: int, a: string)
    requires Foreign(u, op) && Stuck(u, s, a)
    ensures Row(Next(u.config, s, op, now), a) == Row(s, a)
    ensures !op.OpPurge? ==> Stuck(u, Next(u.config, s, op, now), a)
  {
    StepTouches(u.config, s, op, now, a);
    ForeignRow(u, s, op, now, a);
    if ClaimRecord(u, Next(u.config, s, op, now), a).None? {
      RecordGone(u, s, op, now, a);
    }
  }

  lemma StuckOwn(u: Setup, s: State, op: Op, now: int, a: string)
    requires (AgentsClaim(u, op) || AgentsReport(u, op)) && Stuck(u, s, a)
    ensures Row(Next(u.config, s, op, now), a) == Row(s, a) && Stuck(u, Next(u.config, s, op, now), a)
  {
    StepTouches(u.config, s, op, now, a);
  }

  lemma StuckStep(u: Setup, w: World, step: Step, a: string)
    requires Enabled(u, w, step) && Stuck(u, w.server, a)
    ensures Row(Do(u, w, step).server, a) == Row(w.server, a)
    ensures !(step.Elsewhere? && step.op.OpPurge?) ==> Stuck(u, Do(u, w, step).server, a)
  {
    var op := TablesStep(u, w, step);
    if Foreign(u, op) {
      StuckElsewhere(u, w.server, op, w.now, a);
    } else {
      StuckOwn(u, w.server, op, w.now, a);
    }
  }

  /** An action the reaper has requeued while its claim record is on file stays queued, row unchanged, through
      any run without a retention purge: neither agent, reaper, operators nor other clients can move it. */
  lemma {:induction false} RequeuedWaitsForPurge(u: Setup, worlds: seq<World>, steps: seq<Step>, i: nat, j: nat,
                                                 a: string)
    requires IsRun(u, worlds, steps) && i <= j < |worlds|
    requires Stuck(u, worlds[i].server, a)
    requires forall k :: i <= k < j ==> !(steps[k].Elsewhere? && steps[k].op.OpPurge?)
    ensures Stuck(u, worlds[j].server, a) && Row(worlds[j].server, a) == Row(worlds[i].server, a)
  {
    if i < j {
      RequeuedWaitsForPurge(u, worlds, steps, i, j - 1, a);
      StepOf(u, worlds, steps, j - 1);
      StuckStep(u, worlds[j - 1], steps[j - 1], a);
    }
  }

  // ---- The journal across crashes

  /** Over every run the file is a lower bound of the memory, an execution that has begun is at least
      `executing` on file until its action has settled, and entries carry their own key and token. */
  lemma DiskIsFaithful(u: Setup, worlds: seq<World>, steps: seq<Step>, i: nat, a: string, n: nat)
    requires IsRun(u, worlds, steps) && i < |worlds|
    ensures
      var w, job := worlds[i], JobRef(a, n);
      && (job in w.disk && job in w.mem ==> NotAhead(w.disk[job], w.mem[job]))
      && (job in w.executed ==> Settled(w.server, a) || Begun(w.disk, job))
      && (job in w.disk && job !in w.mem ==> Settled(w.server, a))
      && (job in w.disk ==>
          w.disk[job].key == ResultKey(a, n) && w.disk[job].claimToken == ClaimToken(a, n, ClaimKey(a)))
      && (job in w.disk && w.disk[job].progress == Reported ==> Settled(w.server, a))
  {
    RunKeeps(u, worlds, steps, i, a, n);
  }

  /** On disk an entry only moves forward, and it disappears only once its action has settled. */
  lemma DiskMovesForward(u: Setup, worlds: seq<World>, steps: seq<Step>, i: nat, a: string, n: nat)
    requires IsRun(u, worlds, steps) && i < |steps| && JobRef(a, n) in worlds[i].disk
    ensures
      var job := JobRef(a, n);
      if job in worlds[i + 1].disk then NotAhead(worlds[i].disk[job], worlds[i + 1].disk[job])
      else Settled(worlds[i + 1].server, a)
  {
    RunKeeps(u, worlds, steps, i, a, n);
    StepOf(u, worlds, steps, i);
    DiskStep(u, worlds[i], steps[i], a, n);
  }

  lemma DiskStep(u: Setup, w: World, step: Step, a: string, n: nat)
    requires Enabled(u, w, step) && Inv(u, w, a, n) && JobRef(a, n) in w.disk
    ensures
      var job, v := JobRef(a, n), Do(u, w, step);
      if job in v.disk then NotAhead(w.disk[job], v.disk[job]) else Settled(v.server, a)
  {
    if step.RecoverOne? {
      DiskRecover(u, w, step.observed, step.net, step.saved, a, n);
    } else if step.Acknowledge? {
      DiskAcknowledge(u, w, step.marked, step.drop, step.saved, a, n);
    } else if step.Journal? || step.Verify? || step.Finish? {
      DiskWritten(u, w, step, a, n);
    }
  }

  lemma DiskWritten(u: Setup, w: World, step: Step, a: string, n: nat)
    requires Enabled(u, w, step) && Inv(u, w, a, n) && JobRef(a, n) in w.disk
    requires step.Journal? || step.Verify? || step.Finish?
    ensures
      var job, v := JobRef(a, n), Do(u, w, step);
      if job in v.disk then NotAhead(w.disk[job], v.disk[job]) else Settled(v.server, a)
  {
  }

  lemma DiskAcknowledge(u: Setup, w: World, marked: bool, drop: set<JobRef>, saved: bool, a: string, n: nat)
    requires w.pc.Acknowledged? && Inv(u, w, a, n) && JobRef(a, n) in w.disk
    requires drop <= ReportedJobs(Marked(w.mem, JobOf(w.pc.g), Reported, None, w.now))
    ensures
      var job, v := JobRef(a, n), DoAcknowledge(w, marked, drop, saved);
      if job in v.disk then NotAhead(w.disk[job], v.disk[job]) else Settled(v.server, a)
  {
  }

  lemma DiskRecover(u: Setup, w: World, observed: JobResult, net: Delivery, saved: bool, a: string, n: nat)
    requires w.pc.Recovering? && w.pc.pending != [] && Inv(u, w, a, n) && JobRef(a, n) in w.disk
    ensures
      var job, v := JobRef(a, n), DoRecoverOne(u, w, observed, net, saved);
      if job in v.disk then NotAhead(w.disk[job], v.disk[job]) else Settled(v.server, a)
  {
    var first := w.pc.pending[0];
    if first in w.mem {
      ReportOk(u, w.server, w.mem[first], RecoveryResult(w.mem[first], observed), w.now, a);
      if Settled(w.server, a) {
        SettledStays(u.config, w.server, ReportOp(u, w.mem[first], RecoveryResult(w.mem[first], observed)), w.now, a);
      }
    }
  }

  /** The job is on file and in memory, or its action has settled, and the agent is not on its way to run it. */
  predicate Retired(w: World, a: string, n: nat) {
    var job := JobRef(a, n);
    && ((job in w.mem && job in w.disk) || Settled(w.server, a))
    && !((w.pc.Claiming? || w.pc.Journaled? || w.pc.Launching?) && Handles(w.pc, job))
  }

  lemma RetiredClaim(u: Setup, w: World, nonce: string, net: Delivery, a: string, n: nat)
    requires w.pc.Polled? && w.pc.todo != [] && Inv(u, w, a, n) && Retired(w, a, n)
    ensures Retired(DoClaimNext(u, w, nonce, net), a, n)
  {
    var op := ClaimOp(u, w.pc.todo[0], nonce);
    if Settled(w.server, a) {
      SettledStays(u.config, w.server, op, w.now, a);
    }
    if Answer(u, w, op, net).Some? && Answer(u, w, op, net).value.Ok? {
      ReplyNamesAction(u, w.server, w.pc.todo[0], nonce, w.now);
    }
  }

  lemma RetiredLaunch(u: Setup, w: World, outcome: Option<JobResult>, a: string, n: nat)
    requires w.pc.Launching? && Retired(w, a, n)
    ensures Retired(DoLaunch(w, outcome), a, n)
    ensures multiset(DoLaunch(w, outcome).executed)[JobRef(a, n)] == multiset(w.executed)[JobRef(a, n)]
  {
    assert multiset(w.executed + [JobOf(w.pc.g)]) == multiset(w.executed) + multiset{JobOf(w.pc.g)};
  }

  lemma RetiredTables(u: Setup, w: World, step: Step, a: string, n: nat)
    requires Enabled(u, w, step) && Retired(w, a, n) && (step.Elsewhere? || step.SendReport?)
    ensures Retired(Do(u, w, step), a, n) && Do(u, w, step).executed == w.executed
  {
    if Settled(w.server, a) {
      if step.Elsewhere? {
        SettledStays(u.config, w.server, step.op, w.now, a);
      } else {
        SettledStays(u.config, w.server, ReportOp(u, NewEntry(w.pc.g, w.now), w.pc.result), w.now, a);
      }
    }
  }

  lemma RetiredAcknowledge(u: Setup, w: World, marked: bool, drop: set<JobRef>, saved: bool, a: string, n: nat)
    requires w.pc.Acknowledged? && Inv(u, w, a, n) && Retired(w, a, n)
    requires drop <= ReportedJobs(Marked(w.mem, JobOf(w.pc.g), Reported, None, w.now))
    ensures Retired(DoAcknowledge(w, marked, drop, saved), a, n)
        && DoAcknowledge(w, marked, drop, saved).executed == w.executed
  {
  }

  lemma RetiredRecord(u: Setup, w: World, saved: bool, a: string, n: nat)
    requires w.pc.Claiming? && Inv(u, w, a, n) && Retired(w, a, n)
    ensures Retired(DoJournal(w, saved), a, n) && DoJournal(w, saved).executed == w.executed
  {
  }

  lemma RetiredMark(u: Setup, w: World, step: Step, a: string, n: nat)
    requires Enabled(u, w, step) && Inv(u, w, a, n) && Retired(w, a, n)
    requires step.Verify? || step.Finish? || step.EndRecovery?
    ensures Retired(Do(u, w, step), a, n) && Do(u, w, step).executed == w.executed
  {
  }

  lemma RetiredStep(u: Setup, w: World, step: Step, a: string, n: nat)
    requires Enabled(u, w, step) && Inv(u, w, a, n) && Retired(w, a, n)
    ensures Retired(Do(u, w, step), a, n)
    ensures multiset(Do(u, w, step).executed)[JobRef(a, n)] == multiset(w.executed)[JobRef(a, n)]
  {
    match step
    case Elsewhere(_) => RetiredTables(u, w, step, a, n);
    case SendReport(_) => RetiredTables(u, w, step, a, n);
    case ClaimNext(nonce, net) => RetiredClaim(u, w, nonce, net, a, n);
    case RecoverOne(observed, net, saved) => RetiredRecover(u, w, observed, net, saved, a, n);
    case Launch(outcome) => RetiredLaunch(u, w, outcome, a, n);
    case Tick(_) =>
    case Crash =>
    case BeginCycle(_) =>
    case Poll(_, _) =>
    case Acknowledge(marked, drop, saved) => RetiredAcknowledge(u, w, marked, drop, saved, a, n);
    case Journal(saved) => RetiredRecord(u, w, saved, a, n);
    case _ => RetiredMark(u, w, step, a, n);
  }

  lemma RetiredRecover(u: Setup, w: World, observed: JobResult, net: Delivery, saved: bool, a: string, n: nat)
    requires w.pc.Recovering? && w.pc.pending != [] && Retired(w, a, n)
    ensures Retired(DoRecoverOne(u, w, observed, net, saved), a, n)
    ensures DoRecoverOne(u, w, observed, net, saved).executed == w.executed
  {
    if w.pc.pending[0] in w.mem && Settled(w.server, a) {
      var e := w.mem[w.pc.pending[0]];
      SettledStays(u.config, w.server, ReportOp(u, e, RecoveryResult(e, observed)), w.now, a);
    }
  }

  lemma {:induction false} RetiredForever(u: Setup, worlds: seq<World>, steps: seq<Step>, i: nat, j: nat, a: string,
                                          n: nat)
    requires IsRun(u, worlds, steps) && i <= j < |worlds| && Retired(worlds[i], a, n)
    ensures Retired(worlds[j], a, n)
    ensures multiset(worlds[j].executed)[JobRef(a, n)] == multiset(worlds[i].executed)[JobRef(a, n)]
  {
    if i < j {
      RetiredForever(u, worlds, steps, i, j - 1, a, n);
      StepOf(u, worlds, steps, j - 1);
      RunKeeps(u, worlds, steps, j - 1, a, n);
      RetiredStep(u, worlds[j - 1], steps[j - 1], a, n);
    }
  }

  /** A crash at any point: whatever was on file then is never executed again, neither by recovery nor by
      any later cycle, restart or claim. */
  lemma NoExecutionAfterCrash(u: Setup, worlds: seq<World>, steps: seq<Step>, i: nat, j: nat, a: string, n: nat)
    requires IsRun(u, worlds, steps) && i < j < |worlds| && steps[i].Crash?
    requires JobRef(a, n) in worlds[i].disk
    ensures multiset(worlds[j].executed)[JobRef(a, n)] == multiset(worlds[i].executed)[JobRef(a, n)]
  {
    StepOf(u, worlds, steps, i);
    assert Retired(worlds[i + 1], a, n);
    RetiredForever(u, worlds, steps, i + 1, j, a, n);
  }

  // ---- The control plane's guarantees inside the protocol

  lemma {:induction false} TablesReachable(u: Setup, worlds: seq<World>, steps: seq<Step>, i: nat, a: string)
    requires IsRun(u, worlds, steps) && i < |worlds|
    ensures LogTells(worlds[i].server, a) && Bounded(u.config, worlds[i].server, a)
        && DutiesSeparate(worlds[i].server, a)
  {
    if i > 0 {
      TablesReachable(u, worlds, steps, i - 1, a);
      StepOf(u, worlds, steps, i - 1);
      var w := worlds[i - 1];
      var op := TablesStep(u, w, steps[i - 1]);
      StepTells(u.config, w.server, op, w.now, a);
      StepBounded(u.config, w.server, op, w.now, a);
      StepSeparates(u.config, w.server, op, w.now, a);
    }
  }

  /** Nothing ever ran on the endpoint that its requester alone could have started: the action needed no
      approval when submitted, or was approved by someone else. */
  lemma ExecutedWasAuthorised(u: Setup, worlds: seq<World>, steps: seq<Step>, i: nat, job: JobRef)
    requires IsRun(u, worlds, steps) && i < |worlds| && job in worlds[i].executed
    ensures
      var s := worlds[i].server;
      && job.action in s.actions && WasQueued(s.audit, job.action)
      && (NeededNoApproval(s.audit, job.action) || ApprovedByAnother(s.actions[job.action]))
  {
    RunKeeps(u, worlds, steps, i, job.action, job.attempt);
    TablesReachable(u, worlds, steps, i, job.action);
  }

  /** The control plane takes at most one outcome per attempt, however often a result is resent. */
  lemma OneOutcomePerJob(u: Setup, worlds: seq<World>, steps: seq<Step>, i: nat, a: string, x: nat, y: nat)
    requires IsRun(u, worlds, steps) && i < |worlds| && x < y < |worlds[i].server.audit|
    requires
      var log := worlds[i].server.audit;
      && log[x].correlation == a && IsOutcome(log[x].details)
      && log[y].correlation == a && IsOutcome(log[y].details)
    ensures AttemptOf(Before(worlds[i].server.audit, a, x)) < AttemptOf(Before(worlds[i].server.audit, a, y))
  {
    TablesReachable(u, worlds, steps, i, a);
    OneOutcomePerAttempt(worlds[i].server.audit, a, x, y);
  }
}

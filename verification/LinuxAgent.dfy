/** The agent's cycle as the program it is (linux_agent/agent.py), run against a live control plane that other
    clients keep changing. Every method is proved to walk a path of the protocol state machine, so the
    results about all runs hold of the program's own `executed` log, over any number of cycles and restarts. */
module LinuxAgent {
  import opened Text
  import opened Signing
  import opened Server
  import opened Journal
  import opened Protocol
  import opened ProtocolRuns
  import opened ProtocolTheorems
  import opened ControlPlane
  import AgentConfig
  import KeyRotation

  lemma AcknowledgedMarks(w: World, marked: bool, drop: set<JobRef>, saved: bool)
    requires w.pc.Acknowledged? && JobOf(w.pc.g) in w.mem
    ensures
      var job, v := JobOf(w.pc.g), DoAcknowledge(w, marked, drop, saved);
      (job in v.mem ==> v.mem[job].progress == Reported) && (v.pc.Polled? ==> v.mem == v.disk)
  {
  }

  predicate RecordedAs(m: Entries, job: JobRef, r: JobResult) {
    job in m && m[job].progress == Executed && m[job].result == Some(r)
  }

  class LinuxAgent {
    const setup: Setup
    const server: ControlPlane
    const journal: ExecutionJournal
    const config: AgentConfig.AgentConfig
    var now: int
    /** The skills the agent knows how to run. */
    const supported: map<string, set<int>>
    /** Every call of an executor, in order. */
    var executed: seq<JobRef>

    ghost var start: World
    ghost var trace: seq<Step>
    ghost var world: World
    /** How often the process was started again. */
    ghost var restarts: nat

    /** Everything but the journal is as in the state machine's world, which the trace has reached. */
    ghost predicate Linked()
      reads this, server, config
    {
      && config.Valid()
      && server.config == setup.config
      && world.server == server.View() && world.now == now && world.executed == executed
      && Start(start) && Reached(setup, start, trace) == Some(world)
    }

    ghost predicate Valid()
      reads this, server, journal, config
    {
      Linked() && world.mem == journal.entries && world.disk == journal.disk
    }

    constructor (setup: Setup, server: ControlPlane, journal: ExecutionJournal, config: AgentConfig.AgentConfig,
                 now: int,
                 supported: map<string, set<int>>)
      requires server.config == setup.config && Initial(server.View()) && config.Valid()
      requires journal.entries == map[] && journal.disk == map[]
      ensures Valid() && world.pc.Idle? && executed == []
      ensures this.setup == setup && this.server == server && this.journal == journal && this.config == config
    {
      this.setup, this.server, this.journal, this.config := setup, server, journal, config;
      this.now, this.supported := now, supported;
      executed, trace, restarts := [], [], 0;
      start := World(server.View(), now, Idle, map[], map[], [], multiset{});
      world := World(server.View(), now, Idle, map[], map[], [], multiset{});
    }

    /** The program's executor log inherits the protocol's guarantee. */
    lemma ExecutedAtMostOnce()
      requires Valid()
      ensures Distinct(executed)
    {
      var worlds := ReachedIsRun(setup, start, trace, world);
      AtMostOnceExecution(setup, worlds, trace, |trace|);
    }

    ghost method Advance(step: Step)
      requires Reached(setup, start, trace) == Some(world) && Enabled(setup, world, step)
      modifies this`world, this`trace
      ensures world == Do(setup, old(world), step)
      ensures Reached(setup, start, trace) == Some(world)
    {
      assert (trace + [step])[..|trace|] == trace;
      world := Do(setup, world, step);
      trace := trace + [step];
    }

    /** Any number of transactions by anyone else, and any amount of time. */
    method Interfere()
      requires Valid()
      modifies this`now, this`world, this`trace, server
      ensures Valid() && world.pc == old(world.pc)
    {
      var steps: nat := *;
      while steps > 0
        invariant Valid() && world.pc == old(world.pc)
        decreases steps
      {
        var op: Op := *;
        if (op.OpClaim? ==> op.device != setup.device) && (op.OpReport? ==> op.device != setup.device) {
          var _ := server.Perform(op, now);
          Advance(Elsewhere(op));
        }
        var elapsed: nat := *;
        now := now + elapsed;
        Advance(Tick(elapsed));
        steps := steps - 1;
      }
    }

    /** One request over a network that may lose it or its reply. */
    method Send(op: Op, net: Delivery) returns (answer: Option<Reply>)
      requires Valid()
      modifies server
      ensures server.View() == After(setup, world, op, net)
      ensures answer == Answer(setup, world, op, net)
    {
      answer := None;
      if net != RequestLost {
        var reply := server.Perform(op, now);
        answer := if net == Delivered then Some(reply) else None;
      }
    }

    /** The process dies and starts again: journal and pinned keys are read back from their files. */
    method CrashAndRestart()
      requires Valid()
      modifies this`world, this`trace, this`restarts, journal, config
      ensures Valid() && world.pc.Idle? && journal.entries == old(journal.disk) && journal.disk == old(journal.disk)
      ensures restarts == old(restarts) + 1
      ensures config.file == old(config.file) && KeyRotation.Loaded(config.file) == Some(config.signingPublicKeys)
    {
      config.Load();
      journal.Reload();
      restarts := restarts + 1;
      Advance(Crash);
    }

    /** What may happen between two steps of the agent: others act, time passes, and the process may be killed
        and started again; then the cycle is over. */
    method Pause() returns (alive: bool)
      requires Valid()
      modifies this`now, this`world, this`trace, this`restarts, server, journal, config
      ensures Valid() && journal.disk == old(journal.disk)
      ensures if alive then world.pc == old(world.pc) && restarts == old(restarts)
          else world.pc.Idle? && restarts > old(restarts)
      ensures alive ==> unchanged(journal) && unchanged(config)
    {
      Interfere();
      alive := *;
      if !alive {
        CrashAndRestart();
      }
    }

    /** What verify_only sees of the service. */
    method Observe() returns (observed: JobResult)
      ensures IsObservation(observed)
    {
      var healthy: bool, text: string := *, *;
      return if healthy then JobResult(true, true, text, None, false, None) else Refusal(text);
    }

    /** One pending entry: a false `ok` stands for an I/O error, which ends the cycle; an API error does not. */
    method RecoverEntry(job: JobRef) returns (ok: bool)
      requires Valid() && world.pc.Recovering? && world.pc.pending != [] && world.pc.pending[0] == job
      requires job in journal.entries
      modifies this`world, this`trace, server, journal
      ensures Valid() && journal.entries.Keys == old(journal.entries.Keys)
      ensures if ok then world.pc == Recovering(old(world.pc.pending)[1..]) else world.pc.Idle?
    {
      var entry := journal.entries[job];
      var observed := Observe();
      var net: Delivery, writes: bool := *, *;
      var answer := Send(ReportOp(setup, entry, RecoveryResult(entry, observed)), net);
      ok := answer.Some?;
      if answer.Some? && answer.value.Ok? {
        ok := journal.MarkReported(job, now, writes);
      }
      Advance(RecoverOne(observed, net, writes));
    }

    /** recover_interrupted_jobs. A false `ok` stands for an exception that ends the cycle. */
    method RecoverInterruptedJobs() returns (ok: bool)
      requires Valid() && Resting(world.pc)
      modifies this`now, this`world, this`trace, this`restarts, server, journal, config
      ensures Valid() && (if ok then world.pc.Ready? else world.pc.Idle?)
      ensures executed == old(executed)
    {
      var pending := journal.Pending();
      Advance(BeginCycle(pending));
      if pending == [] {
        Advance(EndRecovery({}, true));
        return true;
      }
      ok := RecoverAll(pending);
      if ok {
        ok := PruneAfterRecovery();
      }
    }

    method RecoverAll(pending: seq<JobRef>) returns (ok: bool)
      requires Valid() && world.pc == Recovering(pending) && forall j <- pending :: j in journal.entries
      modifies this`now, this`world, this`trace, this`restarts, server, journal, config
      ensures Valid() && if ok then world.pc == Recovering([]) else world.pc.Idle?
    {
      for i := 0 to |pending|
        invariant Valid() && world.pc == Recovering(pending[i..])
        invariant forall j <- pending :: j in journal.entries
      {
        var alive := Pause();
        if !alive {
          return false;
        }
        ok := RecoverEntry(pending[i]);
        if !ok {
          return false;
        }
      }
      return true;
    }

    method PruneAfterRecovery() returns (ok: bool)
      requires Valid() && world.pc == Recovering([])
      modifies this`world, this`trace, journal
      ensures Valid() && (if ok then world.pc.Ready? else world.pc.Idle?)
    {
      var writes: bool := *;
      var saved, drop := journal.PruneReported(500, writes);
      Advance(EndRecovery(drop, writes));
      return saved;
    }

    /** The first half of execute_job: verification, and `executing` on disk before anything runs. A false
        `ok` stands for an exception; `refused` is the result to report instead of executing. */
    method VerifyJob(g: Ticket, signature: Signature) returns (ok: bool, refused: Option<JobResult>)
      requires Valid() && world.pc.Journaled? && world.pc.g == g
      modifies this`world, this`trace, journal
      ensures Valid()
      ensures !ok ==> world.pc.Idle?
      ensures ok && refused.Some? ==> world.pc == Reporting(g, refused.value, old(world.pc.todo))
      ensures ok && refused.Some? ==> journal.entries == old(journal.entries) && journal.disk == old(journal.disk)
      ensures ok && refused.None? ==> world.pc == Launching(g, old(world.pc.todo))
      ensures ok && refused.None? ==> JobOf(g) in journal.disk && journal.disk[JobOf(g)].progress == Executing
      ensures ok && refused.None? ==>
                VerifyEnvelope(g.fields, signature, config.signingPublicKeys, setup.device, setup.tenant, supported,
                               now).None?
    {
      var text: string, available: bool, writes: bool := *, *, *;
      var error := VerifyEnvelope(g.fields, signature, config.signingPublicKeys, setup.device, setup.tenant, supported,
                                  now);
      if config.signingPublicKeys == map[] || error.Some? || !available {
        Advance(Verify(false, text, writes));
        return true, Some(Refusal(text));
      }
      HandledIsKnown();
      var saved := journal.MarkExecuting(JobOf(g), now, writes);
      Advance(Verify(true, text, writes));
      return saved, None;
    }

    /** The second half: one executor call, its result recorded before it is reported. */
    method RunJob(g: Ticket) returns (result: Option<JobResult>)
      requires Valid() && world.pc.Launching? && world.pc.g == g
      requires Begun(journal.disk, JobOf(g))
      modifies this`now, this`world, this`trace, this`executed, this`restarts, server, journal, config
      ensures Valid()
      ensures if result.Some? then world.pc == Reporting(g, result.value, old(world.pc.todo)) else world.pc.Idle?
      ensures executed == old(executed) + [JobOf(g)]
      ensures Begun(journal.disk, JobOf(g))
      ensures result.Some? ==> RecordedAs(journal.disk, JobOf(g), result.value)
    {
      var outcome: Option<JobResult> := *;
      executed := executed + [JobOf(g)];
      Advance(Launch(outcome));
      if !outcome.Some? {
        return None;
      }
      var alive := Pause();
      if !alive {
        return None;
      }
      var saved := RecordResult(g, outcome.value);
      return if saved then outcome else None;
    }

    method RecordResult(g: Ticket, result: JobResult) returns (saved: bool)
      requires Valid() && world.pc.Finished? && world.pc.g == g && world.pc.result == result
      requires Begun(journal.disk, JobOf(g))
      modifies this`world, this`trace, journal
      ensures Valid() && if saved then world.pc == Reporting(g, result, old(world.pc.todo)) else world.pc.Idle?
      ensures Begun(journal.disk, JobOf(g)) && (saved ==> RecordedAs(journal.disk, JobOf(g), result))
    {
      var writes: bool := *;
      HandledIsKnown();
      saved := journal.MarkExecuted(JobOf(g), result, now, writes);
      Advance(Finish(writes));
    }

    /** execute_job. None stands for an exception that ends the cycle. The executor is called only with
        `executing` on file, and its result is on file before it is returned. */
    method ExecuteJob(g: Ticket, signature: Signature) returns (result: Option<JobResult>)
      requires Valid() && world.pc.Journaled? && world.pc.g == g
      modifies this`now, this`world, this`trace, this`executed, this`restarts, server, journal, config
      ensures Valid()
      ensures if result.Some? then world.pc == Reporting(g, result.value, old(world.pc.todo)) else world.pc.Idle?
      ensures executed == old(executed) || executed == old(executed) + [JobOf(g)]
      ensures executed != old(executed) ==>
        && VerifyEnvelope(g.fields, signature, old(config.signingPublicKeys), setup.device, setup.tenant, supported,
                          old(now)).None?
        && Begun(journal.disk, JobOf(g)) && (result.Some? ==> RecordedAs(journal.disk, JobOf(g), result.value))
      ensures result.Some? && executed == old(executed) ==>
        journal.entries == old(journal.entries) && journal.disk == old(journal.disk)
    {
      var ok, refused := VerifyJob(g, signature);
      if !ok {
        return None;
      }
      if refused.Some? {
        return refused;
      }
      var alive := Pause();
      if !alive {
        return None;
      }
      result := RunJob(g);
    }

    /** A job being handled is in the journal from record_claimed to the acknowledgement. */
    lemma HandledIsKnown()
      requires Reached(setup, start, trace) == Some(world) && Start(start)
      requires world.pc.Journaled? || world.pc.Finished? || world.pc.Acknowledged?
      ensures JobOf(world.pc.g) in world.mem
    {
      var worlds := ReachedIsRun(setup, start, trace, world);
      RunKeeps(setup, worlds, trace, |trace|, JobOf(world.pc.g).action, JobOf(world.pc.g).attempt);
    }

    /** _handle_claimed_job: journal first, then execute, report, mark, prune. */
    method HandleClaimedJob(g: Ticket, signature: Signature) returns (ok: bool)
      requires Valid() && world.pc.Claiming? && world.pc.g == g
      modifies this`now, this`world, this`trace, this`executed, this`restarts, server, journal, config
      ensures Valid() && if ok then world.pc == Polled(old(world.pc.todo)) else world.pc.Idle?
      ensures executed == old(executed) || executed == old(executed) + [JobOf(g)]
    {
      var writes: bool := *;
      var saved := journal.RecordClaimed(NewEntry(g, now), now, writes);
      Advance(Journal(writes));
      if !saved {
        return false;
      }
      var alive := Pause();
      if !alive {
        return false;
      }
      var result := ExecuteJob(g, signature);
      if result.None? {
        return false;
      }
      alive := Pause();
      if !alive {
        return false;
      }
      ghost var acknowledged;
      ok, acknowledged := ReportAndMark(g, result.value);
    }

    /** Once a report was acknowledged its action has settled. */
    lemma AcknowledgedIsSettled()
      requires Reached(setup, start, trace) == Some(world) && Start(start) && world.pc.Acknowledged?
      ensures Settled(world.server, JobOf(world.pc.g).action)
    {
      var worlds := ReachedIsRun(setup, start, trace, world);
      RunKeeps(setup, worlds, trace, |trace|, JobOf(world.pc.g).action, JobOf(world.pc.g).attempt);
    }

    /** _report_result */
    method SendResult(g: Ticket, result: JobResult) returns (acknowledged: bool)
      requires Valid() && world.pc.Reporting? && world.pc.g == g && world.pc.result == result
      modifies this`world, this`trace, server
      ensures Valid() && if acknowledged then world.pc == Acknowledged(g, old(world.pc.todo)) else world.pc.Idle?
    {
      var net: Delivery := *;
      var answer := Send(ReportOp(setup, NewEntry(g, now), result), net);
      Advance(SendReport(net));
      acknowledged := answer.Some? && answer.value.Ok?;
    }

    /** _report_result, then the journal's last word on the job: only an acknowledged report marks it
        reported, and then the action has settled; otherwise the journal stays as it is. */
    method ReportAndMark(g: Ticket, result: JobResult) returns (ok: bool, ghost acknowledged: bool)
      requires Valid() && world.pc.Reporting? && world.pc.g == g && world.pc.result == result
      modifies this`now, this`world, this`trace, this`restarts, server, journal, config
      ensures Valid() && if ok then world.pc == Polled(old(world.pc.todo)) else world.pc.Idle?
      ensures !acknowledged ==> !ok && journal.entries == old(journal.entries) && journal.disk == old(journal.disk)
      ensures acknowledged && restarts == old(restarts) ==> Settled(server.View(), JobOf(g).action)
      ensures acknowledged && restarts == old(restarts) && JobOf(g) in journal.entries ==>
          journal.entries[JobOf(g)].progress == Reported
      ensures ok ==> acknowledged && journal.disk == journal.entries
    {
      ok := SendResult(g, result);
      acknowledged := ok;
      if ok {
        ok := Pause();
      }
      if ok {
        AcknowledgedIsSettled();
        ok := MarkAndPrune(g);
      }
    }

    method MarkAndPrune(g: Ticket) returns (ok: bool)
      requires Valid() && world.pc.Acknowledged? && world.pc.g == g
      modifies this`world, this`trace, journal
      ensures Valid() && if ok then world.pc == Polled(old(world.pc.todo)) else world.pc.Idle?
      ensures JobOf(g) in journal.entries ==> journal.entries[JobOf(g)].progress == Reported
      ensures ok ==> journal.disk == journal.entries
    {
      var marks: bool := *;
      HandledIsKnown();
      var marked := journal.MarkReported(JobOf(g), now, marks);
      if !marked {
        AcknowledgedMarks(world, false, {}, true);
        Advance(Acknowledge(false, {}, true));
        return false;
      }
      ok := PruneMarked(g);
    }

    /** prune_reported right after the mark was saved. */
    method PruneMarked(g: Ticket) returns (saved: bool)
      requires Linked() && world.pc.Acknowledged? && world.pc.g == g && JobOf(g) in world.mem
      requires journal.entries == Marked(world.mem, JobOf(g), Reported, None, now) && journal.disk == journal.entries
      modifies this`world, this`trace, journal
      ensures Valid() && if saved then world.pc == Polled(old(world.pc.todo)) else world.pc.Idle?
      ensures JobOf(g) in journal.entries ==> journal.entries[JobOf(g)].progress == Reported
      ensures saved ==> journal.disk == journal.entries
    {
      var writes: bool := *;
      ghost var drop;
      saved, drop := journal.PruneReported(500, writes);
      AcknowledgedMarks(world, true, drop, writes);
      Advance(Acknowledge(true, drop, writes));
    }

    /** process_jobs: recover, poll, then claim and handle each polled action. */
    method ProcessJobs() returns (ok: bool)
      requires Valid() && Resting(world.pc)
      modifies this`now, this`world, this`trace, this`executed, this`restarts, server, journal, config
      ensures Valid() && (!ok ==> world.pc.Idle?) && (ok ==> world.pc == Polled([]))
      ensures |old(executed)| <= |executed| <= |old(executed)| + 10
    {
      ok := RecoverInterruptedJobs();
      if ok {
        ok := Pause();
      }
      if ok {
        ok := PollAndHandle();
      }
    }

    /** run_once: refresh the pinned keys, send the heartbeat and inventory, process the jobs. An exception
        `main` catches ends the cycle; one it does not catch ends the process, which starts again. */
    method RunOnce() returns (ok: bool)
      requires Valid() && Resting(world.pc)
      modifies this`now, this`world, this`trace, this`executed, this`restarts, server, journal, config
      ensures Valid() && Resting(world.pc)
      ensures |old(executed)| <= |executed| <= |old(executed)| + 10
    {
      var reply: AgentConfig.KeyReply, writes: bool, delivered: bool := *, *, *;
      var outcome := config.EnsureSigningKey(reply, writes);
      if outcome.Died? {
        CrashAndRestart();
        return false;
      }
      if outcome.Failed? || !delivered {
        return false;
      }
      ok := Pause();
      if ok {
        ok := ProcessJobs();
      }
    }

    /** main: one cycle after the other in the same process, which may be killed and started again at any
        point. However many there are, no job is ever executed twice. */
    method Run(cycles: nat)
      requires Valid() && Resting(world.pc)
      modifies this`now, this`world, this`trace, this`executed, this`restarts, server, journal, config
      ensures Valid() && Resting(world.pc) && Distinct(executed)
      ensures |old(executed)| <= |executed| <= |old(executed)| + 10 * cycles
    {
      for i := 0 to cycles
        invariant Valid() && Resting(world.pc)
        invariant |old(executed)| <= |executed| <= |old(executed)| + 10 * i
      {
        var ok := RunOnce();
        var alive := Pause();
      }
      ExecutedAtMostOnce();
    }

    /** Claims one polled action; `job` is None when the journal has already seen the attempt. */
    method ClaimJob(id: string) returns (ok: bool, job: Option<(Ticket, Signature)>)
      requires Valid() && world.pc.Polled? && world.pc.todo != [] && world.pc.todo[0] == id
      modifies this`world, this`trace, server
      ensures Valid()
      ensures !ok ==> world.pc.Idle?
      ensures ok && job.None? ==> world.pc == Polled(old(world.pc.todo)[1..])
      ensures ok && job.Some? ==> world.pc == Claiming(job.value.0, old(world.pc.todo)[1..])
    {
      job := None;
      var nonce: string, net: Delivery := *, *;
      var answer := Send(ClaimOp(setup, id, nonce), net);
      Advance(ClaimNext(nonce, net));
      ok := answer.Some? && answer.value.Ok? && answer.value.response.GrantedClaim?;
      if ok {
        var reply := answer.value.response;
        var g := Ticket(reply.fields, reply.attempt, reply.token);
        var seen := journal.Seen(JobOf(g));
        if !seen {
          job := Some((g, reply.signature));
        }
      }
    }

    /** One round of the job loop: claim, skip what the journal has seen, handle the rest. */
    method ClaimAndHandle(id: string) returns (ok: bool)
      requires Valid() && world.pc.Polled? && world.pc.todo != [] && world.pc.todo[0] == id
      modifies this`now, this`world, this`trace, this`executed, this`restarts, server, journal, config
      ensures Valid() && if ok then world.pc == Polled(old(world.pc.todo)[1..]) else world.pc.Idle?
      ensures |old(executed)| <= |executed| <= |old(executed)| + 1
    {
      var job: Option<(Ticket, Signature)>;
      ok, job := ClaimJob(id);
      if ok && job.Some? {
        ok := Pause();
        if ok {
          ok := HandleClaimedJob(job.value.0, job.value.1);
        }
      }
    }

    /** GET jobs; an I/O error ends the cycle. */
    method Poll() returns (ok: bool, ids: seq<string>)
      requires Valid() && world.pc.Ready?
      modifies this`world, this`trace
      ensures Valid() && |ids| <= 10
      ensures if ok then world.pc == Polled(ids) else world.pc.Idle?
    {
      var net: Delivery := *;
      ids := server.PollJobs(setup.tenant, setup.device);
      assert forall id <- ids :: id in PollableIds(server.View(), setup.tenant, setup.device);
      Advance(Step.Poll(ids, net));
      return net == Delivered, ids;
    }

    method HandleAll(ids: seq<string>) returns (ok: bool)
      requires Valid() && world.pc == Polled(ids)
      modifies this`now, this`world, this`trace, this`executed, this`restarts, server, journal, config
      ensures Valid() && (!ok ==> world.pc.Idle?) && (ok ==> world.pc == Polled([]))
      ensures |old(executed)| <= |executed| <= |old(executed)| + |ids|
    {
      for i := 0 to |ids|
        invariant Valid() && world.pc == Polled(ids[i..])
        invariant |old(executed)| <= |executed| <= |old(executed)| + i
      {
        ok := Pause();
        if ok {
          ok := ClaimAndHandle(ids[i]);
        }
        if !ok {
          return;
        }
      }
      return true;
    }

    method PollAndHandle() returns (ok: bool)
      requires Valid() && world.pc.Ready?
      modifies this`now, this`world, this`trace, this`executed, this`restarts, server, journal, config
      ensures Valid() && (!ok ==> world.pc.Idle?) && (ok ==> world.pc == Polled([]))
      ensures |old(executed)| <= |executed| <= |old(executed)| + 10
    {
      var ids;
      ok, ids := Poll();
      if ok {
        ok := HandleAll(ids);
      }
    }
  }
}

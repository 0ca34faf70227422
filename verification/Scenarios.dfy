/** Runs of the whole system, step by step from empty tables: a requeue that leaves its action stuck, successes
    on record for jobs that never ran, and two runs the agent cannot tell apart although only one executed. */
module Scenarios {
  import opened Text
  import opened Policy
  import opened Skills
  import opened Signing
  import opened Lifecycle
  import opened Server
  import opened Journal
  import opened Protocol
  import opened ProtocolRuns
  import opened ProtocolTheorems
  import opened Recovery

  const ACTION := "a1"
  const SETUP := Setup(Config(2, {"nginx"}, "seed", 1), "acme", "host")
  const SKILL := SkillDefinition("service.restart", Low, {"linux"}, 60, None, LowRiskChange, false, false, false, true)
  const MANIFEST := Manifest(SKILL, 1, map["service" := ParameterSpec(StringType, true)], "")
  const BODY := ActionBody("host", "service.restart", map["service" := Json.Str("nginx")], None)
  const TABLES := State(map[], map[], [], [], [], map["service.restart" := MANIFEST],
                        map["host" := DeviceRow("acme", "linux")], map[])
  const CREATE := OpCreate("acme", "alice", "k1", BODY, ACTION)

  /** A created action that is queued for the device, with no claim on record. */
  predicate Fresh(s: State) {
    && Pollable(s, SETUP.tenant, SETUP.device, ACTION) && s.actions[ACTION].skillId in s.skills
    && s.actions[ACTION].attempt == 0 && ClaimRk(SETUP, ACTION) !in s.records
    && ResultRk(SETUP, ACTION, 1) !in s.records
  }

  lemma Acceptable()
    ensures CreateRefusal(SETUP.config, TABLES, "acme", BODY, ACTION).None?
    ensures var d := Evaluate(ActiveSkills(TABLES), BODY.skillId, "linux"); d.allowed && !d.approvalRequired
  {
    assert Lower("linux") in set item <- SKILL.supportedOs :: Lower(item) by {
      assert "linux" in SKILL.supportedOs;
    }
    assert BODY.skillId[0] == 's' && !Blank(BODY.skillId);
  }

  lemma Created()
    ensures Fresh(Next(SETUP.config, TABLES, CREATE, 0))
  {
    Acceptable();
  }

  /** The agent's claim of a fresh action is granted. */
  lemma GrantedOnce(s: State, nonce: string)
    requires Fresh(s)
    ensures
      var t := Next(SETUP.config, s, ClaimOp(SETUP, ACTION, nonce), 0);
      && t.actions[ACTION].status == Claimed && t.actions[ACTION].attempt == 1
      && t.actions[ACTION].leaseExpiresAt == Some(LEASE)
      && t.actions[ACTION].tokenHash == Some(ClaimToken(ACTION, 1, ClaimKey(ACTION)))
      && OurAction(SETUP, t, ACTION) && ClaimRecord(SETUP, t, ACTION).Some? && ResultRk(SETUP, ACTION, 1) !in t.records
    ensures
      var reply := ReplyTo(SETUP.config, s, ClaimOp(SETUP, ACTION, nonce), 0);
      && reply.Ok? && reply.response.GrantedClaim? && reply.response.attempt == 1
      && reply.response.fields.actionId == ACTION
      && reply.response.token == ClaimToken(ACTION, 1, ClaimKey(ACTION))
  {
  }

  const EMPTY := World(TABLES, 0, Idle, map[], map[], [], multiset{})

  /** Before the claim: the action is queued, and the agent has nothing on file. */
  ghost predicate Ready(w: World, pc: Pc) {
    Fresh(w.server) && w.now == 0 && w.pc == pc && w.mem == map[] && w.disk == map[] && w.executed == []
  }

  lemma ToCreated() returns (trace: seq<Step>, w: World)
    ensures Reached(SETUP, EMPTY, trace) == Some(w) && Ready(w, Idle)
    ensures Crash !in trace
  {
    Created();
    w := Do(SETUP, EMPTY, Elsewhere(CREATE));
    ReachedSnoc(SETUP, EMPTY, [], EMPTY, Elsewhere(CREATE));
    trace := [] + [Elsewhere(CREATE)];
  }

  /** An empty recovery, and a poll that shows the action. */
  lemma PolledFrom(before: seq<Step>, v: World) returns (trace: seq<Step>, w: World)
    requires Reached(SETUP, EMPTY, before) == Some(v) && Ready(v, Idle) && Crash !in before
    ensures Reached(SETUP, EMPTY, trace) == Some(w) && Ready(w, Polled([ACTION])) && w.server == v.server
    ensures before <= trace && Crash !in trace
  {
    var begin, end, poll := BeginCycle([]), EndRecovery({}, true), Poll([ACTION], Delivered);
    var begun := Do(SETUP, v, begin);
    ReachedSnoc(SETUP, EMPTY, before, v, begin);
    var ready := Do(SETUP, begun, end);
    ReachedSnoc(SETUP, EMPTY, before + [begin], begun, end);
    w := Do(SETUP, ready, poll);
    ReachedSnoc(SETUP, EMPTY, before + [begin] + [end], ready, poll);
    trace := before + [begin] + [end] + [poll];
  }

  lemma ToPolled() returns (trace: seq<Step>, w: World)
    ensures Reached(SETUP, EMPTY, trace) == Some(w) && Ready(w, Polled([ACTION]))
    ensures Crash !in trace
  {
    var created, v := ToCreated();
    trace, w := PolledFrom(created, v);
  }

  /** The claim was granted, but the agent never learned. */
  lemma ToLostClaim() returns (trace: seq<Step>, w: World)
    ensures Reached(SETUP, EMPTY, trace) == Some(w) && w.now == 0
    ensures OurAction(SETUP, w.server, ACTION) && ClaimRecord(SETUP, w.server, ACTION).Some?
    ensures w.server.actions[ACTION].status == Claimed && w.server.actions[ACTION].attempt == 1
    ensures w.server.actions[ACTION].leaseExpiresAt == Some(LEASE)
  {
    var before, v := ToPolled();
    var claim := ClaimNext("nonce", ReplyLost);
    GrantedOnce(v.server, "nonce");
    w := Do(SETUP, v, claim);
    ReachedSnoc(SETUP, EMPTY, before, v, claim);
    trace := before + [claim];
  }

  /** The claim's reply is lost, the lease runs out, the reaper requeues: the action is stuck. */
  lemma RequeueGetsStuck() returns (worlds: seq<World>, steps: seq<Step>)
    ensures IsRun(SETUP, worlds, steps) && |steps| > 0 && steps[|steps| - 1] == Elsewhere(OpReap(ACTION))
    ensures Stuck(SETUP, worlds[|steps|].server, ACTION)
  {
    var before, v := ToLostClaim();
    var tick, reap := Tick(LEASE + 1), Elsewhere(OpReap(ACTION));
    var late := Do(SETUP, v, tick);
    ReachedSnoc(SETUP, EMPTY, before, v, tick);
    var w := Do(SETUP, late, reap);
    ReachedSnoc(SETUP, EMPTY, before + [tick], late, reap);
    ReapLeavesStuckExactly(SETUP, late.server, ACTION, late.now);
    steps := before + [tick] + [reap];
    worlds := ReachedIsRun(SETUP, EMPTY, steps, w);
  }

  const HEALTHY := JobResult(true, true, "", None, false, None)

  /** Reporting the claimed attempt settles the action as succeeded. */
  lemma HealthySettles(s: State, e: Entry)
    requires OurAction(SETUP, s, ACTION) && s.actions[ACTION].status == Claimed
        && ResultRk(SETUP, ACTION, 1) !in s.records
    requires s.actions[ACTION].tokenHash == Some(e.claimToken) && s.actions[ACTION].leaseExpiresAt == Some(LEASE)
    requires e.job == JobRef(ACTION, 1) && e.key == ResultKey(ACTION, 1)
    ensures
      var t := Next(SETUP.config, s, ReportOp(SETUP, e, HEALTHY), 0);
      ACTION in t.actions && t.actions[ACTION].status == Succeeded && ResultRow("acme", ACTION, HEALTHY) in t.results
  {
  }

  const JOB := JobRef(ACTION, 1)

  /** The control plane holds the claim open, and nothing is on record for it. */
  predicate Open(s: State) {
    && OurAction(SETUP, s, ACTION) && s.actions[ACTION].status == Claimed && ResultRk(SETUP, ACTION, 1) !in s.records
    && s.actions[ACTION].tokenHash == Some(ClaimToken(ACTION, 1, ClaimKey(ACTION)))
    && s.actions[ACTION].leaseExpiresAt == Some(LEASE)
  }

  /** An entry of the job without a result. */
  predicate IsEntry(e: Entry) {
    && e.job == JOB && e.key == ResultKey(ACTION, 1) && e.claimToken == ClaimToken(ACTION, 1, ClaimKey(ACTION))
    && (e.progress == Recorded || e.progress == Executing) && e.result == None
  }

  /** The action is claimed, and nothing has run. */
  ghost predicate JustClaimed(w: World) {
    && w.now == 0 && w.executed == [] && Open(w.server)
    && w.pc.Claiming? && w.pc.g.fields.expiresAt == LEASE && IsEntry(NewEntry(w.pc.g, 0)) && w.mem == map[]
  }

  lemma ClaimedFrom(before: seq<Step>, v: World) returns (trace: seq<Step>, w: World)
    requires Reached(SETUP, EMPTY, before) == Some(v) && Ready(v, Polled([ACTION])) && Crash !in before
    ensures Reached(SETUP, EMPTY, trace) == Some(w) && JustClaimed(w) && w.server.skills == v.server.skills
    ensures trace == before + [ClaimNext("nonce", Delivered)]
  {
    var claim := ClaimNext("nonce", Delivered);
    GrantedOnce(v.server, "nonce");
    w := Do(SETUP, v, claim);
    ReachedSnoc(SETUP, EMPTY, before, v, claim);
    trace := before + [claim];
  }

  lemma ToClaimed() returns (trace: seq<Step>, w: World)
    ensures Reached(SETUP, EMPTY, trace) == Some(w) && JustClaimed(w)
    ensures Crash !in trace
  {
    var before, v := ToPolled();
    trace, w := ClaimedFrom(before, v);
  }

  /** The job's entry, without a result, is all that is in the journal and on file. */
  predicate Journals(w: World, progress: Progress) {
    w.mem.Keys == {JOB} && IsEntry(w.mem[JOB]) && w.mem[JOB].progress == progress && w.disk == w.mem
  }

  lemma JournaledFrom(before: seq<Step>, v: World) returns (trace: seq<Step>, w: World)
    requires Reached(SETUP, EMPTY, before) == Some(v) && JustClaimed(v)
    ensures Reached(SETUP, EMPTY, trace) == Some(w) && trace == before + [Journal(true)] && w.server == v.server
    ensures w.now == 0 && w.executed == [] && Open(w.server)
    ensures w.pc.Journaled? && JobOf(w.pc.g) == JOB && w.pc.g.fields.expiresAt == LEASE && Journals(w, Recorded)
  {
    w := Do(SETUP, v, Journal(true));
    ReachedSnoc(SETUP, EMPTY, before, v, Journal(true));
    assert w.mem == map[JOB := NewEntry(v.pc.g, 0)];
    trace := before + [Journal(true)];
  }

  lemma LaunchingFrom(before: seq<Step>, v: World) returns (trace: seq<Step>, w: World)
    requires Reached(SETUP, EMPTY, before) == Some(v) && JustClaimed(v)
    ensures Reached(SETUP, EMPTY, trace) == Some(w) && w.server == v.server
    ensures w.now == 0 && w.executed == [] && Open(w.server)
    ensures w.pc.Launching? && JobOf(w.pc.g) == JOB && Journals(w, Executing)
    ensures trace == before + [Journal(true)] + [Verify(true, "", true)]
  {
    var journaled, x := JournaledFrom(before, v);
    var verify := Verify(true, "", true);
    w := Do(SETUP, x, verify);
    ReachedSnoc(SETUP, EMPTY, journaled, x, verify);
    trace := journaled + [verify];
  }

  /** The next cycle begins with the entry to recover. */
  ghost predicate Recovers(w: World, executed: seq<JobRef>, progress: Progress) {
    w.pc == Recovering([JOB]) && w.now == 0 && Open(w.server) && Journals(w, progress) && w.executed == executed
  }

  const RECOVER := RecoverOne(HEALTHY, Delivered, true)

  lemma ToRecovering(before: seq<Step>, v: World, executed: seq<JobRef>, progress: Progress)
      returns (trace: seq<Step>, w: World)
    requires Reached(SETUP, EMPTY, before) == Some(v) && v.pc == Idle && v.now == 0 && Open(v.server)
    requires Journals(v, progress) && v.executed == executed
    ensures Reached(SETUP, EMPTY, trace) == Some(w) && trace == before + [BeginCycle([JOB])]
    ensures w == v.(pc := Recovering([JOB])) && Recovers(w, executed, progress)
  {
    var begin := BeginCycle([JOB]);
    w := Do(SETUP, v, begin);
    ReachedSnoc(SETUP, EMPTY, before, v, begin);
    trace := before + [begin];
  }

  /** The process dies, and the next cycle begins. */
  lemma ToCrashed(before: seq<Step>, v: World, executed: seq<JobRef>, progress: Progress)
      returns (trace: seq<Step>, w: World)
    requires Reached(SETUP, EMPTY, before) == Some(v) && v.now == 0 && Open(v.server)
    requires Journals(v, progress) && v.executed == executed
    ensures Reached(SETUP, EMPTY, trace) == Some(w) && trace == before + [Crash] + [BeginCycle([JOB])]
    ensures w == v.(pc := Recovering([JOB])) && Recovers(w, executed, progress)
  {
    var crashed := Do(SETUP, v, Crash);
    ReachedSnoc(SETUP, EMPTY, before, v, Crash);
    assert crashed == v.(pc := Idle);
    trace, w := ToRecovering(before + [Crash], crashed, executed, progress);
  }

  /** The action has succeeded with recovery's observation as its result. */
  predicate Succeeds(w: World) {
    ACTION in w.server.actions && w.server.actions[ACTION].status == Succeeded
        && ResultRow("acme", ACTION, HEALTHY) in w.server.results
  }

  /** The last step is a recovery, in this world, that makes a success of the action. */
  ghost predicate Recovered(worlds: seq<World>, steps: seq<Step>, v: World) {
    && |worlds| == |steps| + 1 && |steps| > 0 && steps[|steps| - 1] == RECOVER
    && worlds[|steps| - 1] == v && Succeeds(worlds[|steps|])
  }

  lemma RecoverySucceeds(trace: seq<Step>, v: World, executed: seq<JobRef>, progress: Progress)
      returns (worlds: seq<World>, steps: seq<Step>)
    requires Reached(SETUP, EMPTY, trace) == Some(v) && Recovers(v, executed, progress)
    ensures IsRun(SETUP, worlds, steps) && steps == trace + [RECOVER]
    ensures Recovered(worlds, steps, v) && worlds[|steps|].executed == executed
  {
    HealthySettles(v.server, v.mem[JOB]);
    var w := Do(SETUP, v, RECOVER);
    ReachedSnoc(SETUP, EMPTY, trace, v, RECOVER);
    steps := trace + [RECOVER];
    var earlier := ReachedIsRun(SETUP, EMPTY, trace, v);
    OneMoreStep(SETUP, earlier, trace, RECOVER);
    worlds := earlier + [w];
  }

  /** The claim is journaled, the process dies before anything runs, and the next cycle's recovery finds the
      service healthy: the action has succeeded, and nothing was ever executed. */
  lemma SuccessWithoutExecution() returns (worlds: seq<World>, steps: seq<Step>)
    ensures IsRun(SETUP, worlds, steps) && Succeeds(worlds[|steps|]) && worlds[|steps|].executed == []
  {
    var claimed, x := ToClaimed();
    var before, v := JournaledFrom(claimed, x);
    var trace, w := ToCrashed(before, v, [], Recorded);
    worlds, steps := RecoverySucceeds(trace, w, [], Recorded);
  }

  const REFUSE := Verify(false, "Execution envelope signature is invalid", true)

  lemma RefusedFrom(before: seq<Step>, v: World) returns (trace: seq<Step>, w: World)
    requires Reached(SETUP, EMPTY, before) == Some(v) && v.now == 0 && v.executed == [] && Open(v.server)
    requires v.pc.Journaled? && JobOf(v.pc.g) == JOB && Journals(v, Recorded)
    ensures Reached(SETUP, EMPTY, trace) == Some(w) && trace == before + [REFUSE] + [SendReport(RequestLost)]
    ensures w == v.(pc := Idle)
  {
    var report := SendReport(RequestLost);
    var refused := Do(SETUP, v, REFUSE);
    ReachedSnoc(SETUP, EMPTY, before, v, REFUSE);
    w := Do(SETUP, refused, report);
    ReachedSnoc(SETUP, EMPTY, before + [REFUSE], refused, report);
    trace := before + [REFUSE] + [report];
  }

  lemma RefusedRecovers() returns (before: seq<Step>, trace: seq<Step>, w: World)
    ensures Reached(SETUP, EMPTY, trace) == Some(w) && Recovers(w, [], Recorded) && Crash !in before
    ensures trace == before + [REFUSE] + [SendReport(RequestLost)] + [BeginCycle([JOB])]
  {
    var claimed, x := ToClaimed();
    var journaled, v := JournaledFrom(claimed, x);
    var refused, idle := RefusedFrom(journaled, v);
    before := journaled;
    trace, w := ToRecovering(refused, idle, [], Recorded);
  }

  /** The agent refuses the envelope, its report of the refusal is lost, and the next cycle's recovery finds
      the service healthy: the refused action has succeeded. */
  lemma SuccessAfterRefusal() returns (before: seq<Step>, worlds: seq<World>, steps: seq<Step>)
    ensures IsRun(SETUP, worlds, steps) && Crash !in before
    ensures steps == before + [REFUSE] + [SendReport(RequestLost)] + [BeginCycle([JOB])] + [RECOVER]
    ensures Succeeds(worlds[|steps|]) && worlds[|steps|].executed == []
  {
    var trace, w;
    before, trace, w := RefusedRecovers();
    worlds, steps := RecoverySucceeds(trace, w, [], Recorded);
  }

  lemma Forks() returns (never: seq<Step>, v: World, once: seq<Step>)
    ensures Reached(SETUP, EMPTY, never) == Some(v) && Recovers(v, [], Executing)
    ensures Reached(SETUP, EMPTY, once) == Some(v.(executed := [JOB])) && Launch(Some(HEALTHY)) in once
  {
    var claimed, c := ToClaimed();
    var before, w := LaunchingFrom(claimed, c);
    var launch := Launch(Some(HEALTHY));
    var launched := Do(SETUP, w, launch);
    ReachedSnoc(SETUP, EMPTY, before, w, launch);
    never, v := ToCrashed(before, w, [], Executing);
    var u;
    once, u := ToCrashed(before + [launch], launched, [JOB], Executing);
  }

  /** Two runs that recovery cannot tell apart: the process dies with `executing` on file, before the executor
      is called in the one and after it in the other. From then on tables, journal and file are the same, and
      recovery makes a success of both; only one of the jobs ever ran. */
  lemma JournalCannotTell()
      returns (never: seq<World>, stepsNever: seq<Step>, once: seq<World>, stepsOnce: seq<Step>, v: World)
    ensures IsRun(SETUP, never, stepsNever) && IsRun(SETUP, once, stepsOnce)
    ensures Recovered(never, stepsNever, v) && Recovered(once, stepsOnce, v.(executed := [JOB]))
    ensures v.executed == [] && v.pc == Recovering([JOB]) && Journals(v, Executing)
  {
    var traceNever, traceOnce;
    traceNever, v, traceOnce := Forks();
    never, stepsNever := RecoverySucceeds(traceNever, v, [], Executing);
    once, stepsOnce := RecoverySucceeds(traceOnce, v.(executed := [JOB]), [JOB], Executing);
  }

  const BANNED := MANIFEST.(definition := SKILL.(risk := Prohibited), version := 2)
  const BAN := Elsewhere(OpRegister(BANNED))

  /** A registration leaves the action queued. */
  lemma BannedStaysQueued(s: State)
    requires Fresh(s)
    ensures Fresh(Next(SETUP.config, s, OpRegister(BANNED), 0))
    ensures Banned(Next(SETUP.config, s, OpRegister(BANNED), 0))
  {
  }

  /** A run goes through the worlds its prefixes reach. */
  lemma {:induction false} RunReaches(worlds: seq<World>, steps: seq<Step>, n: nat)
    requires IsRun(SETUP, worlds, steps) && n <= |steps| && worlds[0] == EMPTY
    ensures Reached(SETUP, EMPTY, steps[..n]) == Some(worlds[n])
  {
    if n > 0 {
      RunReaches(worlds, steps, n - 1);
      StepOf(SETUP, worlds, steps, n - 1);
      ReachedSnoc(SETUP, EMPTY, steps[..n - 1], worlds[n - 1], steps[n - 1]);
      assert steps[..n - 1] + [steps[n - 1]] == steps[..n];
    }
  }

  predicate Banned(s: State) {
    !Runnable(ActiveSkills(s), "service.restart", "linux")
  }

  lemma BannedRuns(before: seq<Step>, v: World) returns (trace: seq<Step>, w: World)
    requires Reached(SETUP, EMPTY, before) == Some(v) && Ready(v, Idle) && Crash !in before && Banned(v.server)
    ensures Reached(SETUP, EMPTY, trace) == Some(w) && before <= trace && Banned(w.server) && w.executed == [JOB]
  {
    var polled, p := PolledFrom(before, v);
    var claimed, c := ClaimedFrom(polled, p);
    var launching, l := LaunchingFrom(claimed, c);
    var launch := Launch(Some(HEALTHY));
    w := Do(SETUP, l, launch);
    ReachedSnoc(SETUP, EMPTY, launching, l, launch);
    trace := launching + [launch];
  }

  /** The skill is prohibited while its action waits in the queue; the claim is granted all the same, under
      the prohibited version, and the endpoint executes it. */
  lemma ProhibitedSkillRuns() returns (worlds: seq<World>, steps: seq<Step>, i: nat)
    ensures IsRun(SETUP, worlds, steps) && i < |steps| && steps[i] == BAN
    ensures Ready(worlds[i], Idle) && Ready(worlds[i + 1], Idle) && Banned(worlds[i + 1].server)
    ensures worlds[|steps|].executed == [JOB] && Banned(worlds[|steps|].server)
  {
    var created, v := ToCreated();
    BannedStaysQueued(v.server);
    var banned := Do(SETUP, v, BAN);
    ReachedSnoc(SETUP, EMPTY, created, v, BAN);
    var w;
    steps, w := BannedRuns(created + [BAN], banned);
    worlds := ReachedIsRun(SETUP, EMPTY, steps, w);
    i := |created|;
    assert steps[..i + 1] == created + [BAN] && steps[..i] == created;
    RunReaches(worlds, steps, i);
    RunReaches(worlds, steps, i + 1);
  }
}

/** What becomes of expired claims: when a requeue leaves its action stuck, and when recovery can still finish
    an attempt (linux_agent/agent.py, helpdesktool/api.py, helpdesktool/lease_reaper.py). */
module Recovery {
  import opened Text
  import opened Signing
  import opened Lifecycle
  import opened Server
  import opened ServerRuns
  import opened Journal
  import opened Protocol
  import opened ProtocolRuns
  import opened ProtocolTheorems
  import opened ProtocolResults

  // ---- The requeue

  /** Reaping an expired claim whose record is on file leaves the action stuck exactly when attempts remain:
      a poll shows it, but the agent's claim is answered from the record. */
  lemma ReapLeavesStuckExactly(u: Setup, s: State, a: string, now: int)
    requires OurAction(u, s, a) && LeaseExpired(s, a, now) && ClaimRecord(u, s, a).Some?
    ensures Stuck(u, Next(u.config, s, OpReap(a), now), a) <==> s.actions[a].attempt < u.config.maxAttempts
  {
  }

  // ---- The agent's own tokens

  /** A token on the agent's action is the one its fixed claim key yields for the current attempt. */
  predicate OwnToken(u: Setup, s: State, a: string) {
    OurAction(u, s, a) && s.actions[a].tokenHash.Some? ==>
      s.actions[a].tokenHash.value == ClaimToken(a, s.actions[a].attempt, ClaimKey(a))
  }

  /** The agent's claim leaves the token of its own key. */
  lemma ClaimTokens(c: Config, s: State, tenant: string, device: string, id: string, key: string, nonce: string,
                    now: int)
    ensures
      var t := Claim(c, s, tenant, device, id, key, nonce, now).0;
      || Row(t, id) == Row(s, id)
      || (id in t.actions && t.actions[id].tokenHash == Some(ClaimToken(id, t.actions[id].attempt, key)))
  {
  }

  lemma MovesOwnToken(u: Setup, s: State, t: State, now: int, a: string)
    requires OwnToken(u, s, a) && RowMoves(u.config, Row(s, a), Row(t, a), a, now)
    requires OurAction(u, t, a) && Row(s, a) != Row(t, a) && Row(s, a).Some? && Row(s, a).value.status == Queued ==>
               t.actions[a].tokenHash == Some(ClaimToken(a, t.actions[a].attempt, ClaimKey(a)))
    ensures OwnToken(u, t, a)
  {
  }

  lemma StepOwnToken(u: Setup, s: State, op: Op, now: int, a: string)
    requires OwnToken(u, s, a)
    requires op.OpClaim? && op.device == u.device ==> op.key == ClaimKey(op.id)
    ensures OwnToken(u, Next(u.config, s, op, now), a)
  {
    var t := Next(u.config, s, op, now);
    StepTouches(u.config, s, op, now, a);
    if a in s.actions && s.actions[a].status == Queued && Row(t, a) != Row(s, a) {
      QueuedMoves(u.config, s, op, now, a);
      ClaimTokens(u.config, s, op.tenant, op.device, op.id, op.key, op.nonce, now);
    }
    MovesOwnToken(u, s, t, now, a);
  }

  lemma {:induction false} RunOwnToken(u: Setup, worlds: seq<World>, steps: seq<Step>, i: nat, a: string)
    requires IsRun(u, worlds, steps) && i < |worlds|
    ensures OwnToken(u, worlds[i].server, a)
  {
    if i > 0 {
      RunOwnToken(u, worlds, steps, i - 1, a);
      StepOf(u, worlds, steps, i - 1);
      var op := TablesStep(u, worlds[i - 1], steps[i - 1]);
      StepOwnToken(u, worlds[i - 1].server, op, worlds[i - 1].now, a);
    }
  }

  // ---- When recovery is acknowledged

  function ResultRk(u: Setup, a: string, n: nat): RecordKey {
    RecordKey(u.tenant, ResultScope, ResultKey(a, n))
  }

  /** The claim of attempt n is still open at this time. */
  predicate StillClaimed(u: Setup, s: State, a: string, n: nat, now: int) {
    && OurAction(u, s, a) && s.actions[a].status == Claimed && s.actions[a].attempt == n
    && s.actions[a].leaseExpiresAt.Some? && now <= s.actions[a].leaseExpiresAt.value
  }

  lemma ReportAcceptedExactly(u: Setup, s: State, a: string, n: nat, now: int)
    requires OwnToken(u, s, a) && Bounded(u.config, s, a) && TokenBelongs(s, a)
    ensures ReportRefusal(s, u.tenant, u.device, a, ClaimToken(a, n, ClaimKey(a)), now).None?
        <==> StillClaimed(u, s, a, n, now)
  {
    if ReportRefusal(s, u.tenant, u.device, a, ClaimToken(a, n, ClaimKey(a)), now).None? {
      TokenMessageAttempt(a, n, ClaimKey(a), s.actions[a].attempt, ClaimKey(a));
    }
  }

  lemma TokenStep(u: Setup, w: World, step: Step, a: string)
    requires Enabled(u, w, step) && TokenBelongs(w.server, a)
    ensures TokenBelongs(Do(u, w, step).server, a)
  {
    var op := TablesStep(u, w, step);
    StepToken(u.config, w.server, op, w.now, a);
  }

  lemma {:induction false} RunTokenBelongs(u: Setup, worlds: seq<World>, steps: seq<Step>, i: nat, a: string)
    requires IsRun(u, worlds, steps) && i < |worlds|
    ensures TokenBelongs(worlds[i].server, a)
  {
    if i > 0 {
      RunTokenBelongs(u, worlds, steps, i - 1, a);
      StepOf(u, worlds, steps, i - 1);
      TokenStep(u, worlds[i - 1], steps[i - 1], a);
    }
  }

  /** Over every run a report of journaled attempt n, first or repeated, is acknowledged exactly when the very
      same result is on record under its key, or nothing is on record there and the attempt is still claimed
      within its lease. Requeued, failed and superseded attempts, and attempts settled otherwise, are refused. */
  lemma AcknowledgedExactly(u: Setup, worlds: seq<World>, steps: seq<Step>, i: nat, a: string, n: nat, r: JobResult)
    requires IsRun(u, worlds, steps) && i < |worlds| && JobRef(a, n) in worlds[i].mem
    ensures
      var w := worlds[i];
      var s, rk := w.server, ResultRk(u, a, n);
      ReplyTo(u.config, s, ReportOp(u, w.mem[JobRef(a, n)], r), w.now).Ok? <==>
        if rk in s.records then s.records[rk].payload == ResultPayload(a, u.device, r)
            else StillClaimed(u, s, a, n, w.now)
  {
    RunKeeps(u, worlds, steps, i, a, n);
    RunOwnToken(u, worlds, steps, i, a);
    RunTokenBelongs(u, worlds, steps, i, a);
    ReportAcceptedExactly(u, worlds[i].server, a, n, worlds[i].now);
  }

  /** Recovery of a pending entry marks it reported exactly in that case, when the reply arrives; otherwise
      the journal stays as it is, and so do the tables unless only the reply was lost. */
  lemma RecoveryFinishesExactly(u: Setup, worlds: seq<World>, steps: seq<Step>, i: nat, a: string, n: nat)
    requires IsRun(u, worlds, steps) && i < |steps| && steps[i].RecoverOne?
    requires worlds[i].pc.Recovering? && worlds[i].pc.pending != [] && worlds[i].pc.pending[0] == JobRef(a, n)
    requires JobRef(a, n) in worlds[i].mem
    requires worlds[i].mem[JobRef(a, n)].progress != Reported
    ensures
      var w, v, job := worlds[i], worlds[i + 1], JobRef(a, n);
      var s, rk, r := w.server, ResultRk(u, a, n), RecoveryResult(w.mem[job], steps[i].observed);
      && job in v.mem
      && (v.mem[job].progress == Reported <==> (
            steps[i].net == Delivered
            && if rk in s.records then s.records[rk].payload == ResultPayload(a, u.device, r)
                else StillClaimed(u, s, a, n, w.now)))
      && (v.mem[job].progress != Reported ==> v.mem == w.mem && v.disk == w.disk)
      && (v.mem[job].progress != Reported && steps[i].net != ReplyLost ==> v.server == w.server)
  {
    StepOf(u, worlds, steps, i);
    AcknowledgedExactly(u, worlds, steps, i, a, n, RecoveryResult(worlds[i].mem[JobRef(a, n)], steps[i].observed));
  }

  // ---- Attempts that can no longer be reported

  /** Attempt n is over without a report: superseded, requeued, or settled some other way. */
  predicate Forfeited(u: Setup, s: State, a: string, n: nat) {
    && OurAction(u, s, a) && n <= s.actions[a].attempt && (s.actions[a].attempt == n ==> s.actions[a].status != Claimed)
    && (ResultRk(u, a, n) in s.records ==> !ReportOf(s.records[ResultRk(u, a, n)].payload, a, u.device))
  }

  predicate ReportOf(p: Payload, a: string, device: string) {
    p.ResultPayload? && p.action == a && p.device == device
  }

  /** The agent's credential only ever sends the report of some job, with that job's key and token. */
  ghost predicate OwnReport(u: Setup, op: Op) {
    op.OpReport? && op.device == u.device ==>
      exists m: nat :: op.key == ResultKey(op.id, m) && op.token == ClaimToken(op.id, m, ClaimKey(op.id))
  }

  lemma MovesForfeited(u: Setup, s: State, t: State, now: int, a: string, n: nat)
    requires Forfeited(u, s, a, n) && RowMoves(u.config, Row(s, a), Row(t, a), a, now)
    ensures OurAction(u, t, a) && n <= t.actions[a].attempt
        && (t.actions[a].attempt == n ==> t.actions[a].status != Claimed)
  {
  }

  lemma ForfeitedRow(u: Setup, s: State, op: Op, now: int, a: string, n: nat)
    requires Forfeited(u, s, a, n)
    ensures
      var t := Next(u.config, s, op, now);
      OurAction(u, t, a) && n <= t.actions[a].attempt && (t.actions[a].attempt == n ==> t.actions[a].status != Claimed)
  {
    StepTouches(u.config, s, op, now, a);
    MovesForfeited(u, s, Next(u.config, s, op, now), now, a, n);
  }

  lemma StepForfeited(u: Setup, s: State, op: Op, now: int, a: string, n: nat)
    requires Forfeited(u, s, a, n) && TokenBelongs(s, a) && OwnReport(u, op)
    ensures Forfeited(u, Next(u.config, s, op, now), a, n)
  {
    ForfeitedRow(u, s, op, now, a, n);
    var t, rk := Next(u.config, s, op, now), ResultRk(u, a, n);
    if rk in t.records {
      if op.OpReport? {
        ReportRecords(s, op.tenant, op.device, op.id, op.key, op.token, op.result, now, rk);
        if op.id == a && op.device == u.device && op.key == ResultKey(a, n) {
          var m: nat :| op.key == ResultKey(op.id, m) && op.token == ClaimToken(op.id, m, ClaimKey(op.id));
          ResultKeyInjective(a, m, a, n);
          ForfeitedIsRefused(u, s, op.tenant, a, n, now);
        }
      } else {
        NewRecord(u.config, s, op, now, rk);
      }
    }
  }

  lemma ForfeitedIsRefused(u: Setup, s: State, tenant: string, a: string, n: nat, now: int)
    requires Forfeited(u, s, a, n) && TokenBelongs(s, a)
    ensures ReportRefusal(s, tenant, u.device, a, ClaimToken(a, n, ClaimKey(a)), now).Some?
  {
    if ReportRefusal(s, tenant, u.device, a, ClaimToken(a, n, ClaimKey(a)), now).None? {
      AcceptedIsCurrent(s, tenant, u.device, a, n, ClaimKey(a), now);
    }
  }

  /** The agent's requests along a run. */
  lemma StepSends(u: Setup, worlds: seq<World>, steps: seq<Step>, i: nat) returns (op: Op)
    requires IsRun(u, worlds, steps) && i < |steps|
    ensures worlds[i + 1].server == worlds[i].server
        || worlds[i + 1].server == Next(u.config, worlds[i].server, op, worlds[i].now)
    ensures OwnReport(u, op)
  {
    var w, step := worlds[i], steps[i];
    StepOf(u, worlds, steps, i);
    op := OpPurge(0);
    match step
    case Elsewhere(other) => op := other;
    case ClaimNext(nonce, _) => op := ClaimOp(u, w.pc.todo[0], nonce);
    case SendReport(_) =>
      op := ReportOp(u, NewEntry(w.pc.g, w.now), w.pc.result);
      RunAgrees(u, worlds, steps, i, JobOf(w.pc.g).action, JobOf(w.pc.g).attempt);
      assert op.key == ResultKey(op.id, w.pc.g.attempt);
    case RecoverOne(observed, _, _) =>
      var job := w.pc.pending[0];
      if job in w.mem {
        op := ReportOp(u, w.mem[job], RecoveryResult(w.mem[job], observed));
        RunKeeps(u, worlds, steps, i, job.action, job.attempt);
        assert op.key == ResultKey(op.id, job.attempt);
      }
    case _ =>
  }

  lemma {:induction false} ForfeitedForever(u: Setup, worlds: seq<World>, steps: seq<Step>, i: nat, j: nat, a: string,
                                            n: nat)
    requires IsRun(u, worlds, steps) && i <= j < |worlds| && Forfeited(u, worlds[i].server, a, n)
    ensures Forfeited(u, worlds[j].server, a, n)
  {
    if i < j {
      ForfeitedForever(u, worlds, steps, i, j - 1, a, n);
      RunTokenBelongs(u, worlds, steps, j - 1, a);
      var op := StepSends(u, worlds, steps, j - 1);
      StepForfeited(u, worlds[j - 1].server, op, worlds[j - 1].now, a, n);
    }
  }

  /** What recovery cannot do: once an attempt is over without a report on record, be it requeued, superseded
      or failed by the reaper, no later recovery ever marks its pending entry reported. */
  lemma ForfeitedStaysPending(u: Setup, worlds: seq<World>, steps: seq<Step>, i: nat, j: nat, a: string, n: nat)
    requires IsRun(u, worlds, steps) && i <= j < |steps| && Forfeited(u, worlds[i].server, a, n)
    requires steps[j].RecoverOne? && worlds[j].pc.Recovering? && worlds[j].pc.pending != []
        && worlds[j].pc.pending[0] == JobRef(a, n)
    requires JobRef(a, n) in worlds[j].mem && worlds[j].mem[JobRef(a, n)].progress != Reported
    ensures worlds[j + 1].mem == worlds[j].mem && worlds[j + 1].disk == worlds[j].disk
  {
    ForfeitedForever(u, worlds, steps, i, j, a, n);
    RecoveryFinishesExactly(u, worlds, steps, j, a, n);
  }
}

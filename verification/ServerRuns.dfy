/** What every run of the control plane keeps: the audit log replays to the tables, attempts are bounded,
    every action settles, tokens belong to one attempt, and nobody approves their own action. */
module ServerRuns {
  import opened Text
  import opened Policy
  import opened Skills
  import opened Signing
  import opened Lifecycle
  import opened Server

  /** The action a step is about. */
  function Subject(op: Op): Option<string> {
    match op
    case OpCreate(_, _, _, _, newId) => Some(newId)
    case OpDecide(_, _, id, _, _) => Some(id)
    case OpClaim(_, _, id, _, _) => Some(id)
    case OpReport(_, _, id, _, _, _) => Some(id)
    case OpReap(id) => Some(id)
    case _ => None
  }

  ghost predicate NoEventOf(es: seq<Event>, id: string) {
    forall i :: 0 <= i < |es| ==> es[i].correlation != id
  }

  /** From s to t the log only grows, by events about one action. */
  ghost predicate LogExtends(s: State, t: State, id: string) {
    && |s.audit| <= |t.audit|
    && t.audit[..|s.audit|] == s.audit
    && forall i :: |s.audit| <= i < |t.audit| ==> t.audit[i].correlation == id
  }

  function Row(s: State, id: string): Option<ActionRow> {
    if id in s.actions then Some(s.actions[id]) else None
  }

  /** No row but one is touched. */
  ghost predicate SameButFor(s: State, t: State, id: string) {
    forall x :: x != id ==> (x in t.actions <==> x in s.actions) && (x in t.actions ==> t.actions[x] == s.actions[x])
  }

  /** What one step may do to one row. */
  ghost predicate RowMoves(c: Config, before: Option<ActionRow>, after: Option<ActionRow>, id: string, now: int) {
    || before == after
    || (before.None? && after.Some? && Submitted(after.value))
    || (before.Some? && after.Some? && Moves(c, before.value, after.value, id, now))
  }

  predicate Submitted(row: ActionRow) {
    && row.status in {PendingApproval, Queued, Denied}
    && row.attempt == 0 && row.approvedBy.None? && row.tokenHash.None? && row.leaseExpiresAt.None?
  }

  ghost predicate IsTokenFor(id: string, attempt: nat, token: Token) {
    exists key :: token == ClaimToken(id, attempt, key)
  }

  ghost predicate Moves(c: Config, a: ActionRow, b: ActionRow, id: string, now: int) {
    || (a.status == PendingApproval && b == a.(status := Denied))
    || (a.status == PendingApproval && b.approvedBy.Some? && b.approvedBy.value != a.requestedBy
        && b == a.(status := Queued, approvedBy := b.approvedBy))
    || (a.status == Queued && b.tokenHash.Some? && IsTokenFor(id, a.attempt + 1, b.tokenHash.value)
        && b == a.(status := Claimed, tokenHash := b.tokenHash, claimedAt := Some(now),
                   leaseExpiresAt := Some(now + LEASE), attempt := a.attempt + 1))
    || (a.status == Claimed && b.status in {Succeeded, Failed, RolledBack, RollbackFailed}
        && b == a.(status := b.status)
        && a.tokenHash.Some? && (a.leaseExpiresAt.Some? ==> now <= a.leaseExpiresAt.value))
    || (a.status == Claimed && a.leaseExpiresAt.Some? && a.leaseExpiresAt.value < now
        && b == a.(status := if a.attempt >= c.maxAttempts then Failed else Queued,
                   tokenHash := None, claimedAt := None, leaseExpiresAt := None))
  }

  lemma SubmitTouches(s: State, id: string, tenant: string, actor: string, body: ActionBody, os: string, now: int)
    requires id !in s.actions
    ensures
      var t := Submit(s, id, tenant, actor, body, os, now);
      SameButFor(s, t, id) && LogExtends(s, t, id) && id in t.actions && Submitted(t.actions[id])
  {
  }

  lemma CreateTouches(c: Config, s: State, tenant: string, actor: string, key: string, body: ActionBody, newId: string,
                      now: int)
    ensures
      var t := Create(c, s, tenant, actor, key, body, newId, now).0;
      && SameButFor(s, t, newId) && LogExtends(s, t, newId)
      && RowMoves(c, Row(s, newId), Row(t, newId), newId, now)
  {
    if Lookup(s, RecordKey(tenant, ActionScope, key), ActionPayload(body)).Miss?
        && CreateRefusal(c, s, tenant, body, newId).None? {
      SubmitTouches(s, newId, tenant, actor, body, s.devices[body.device].os, now);
    }
  }

  lemma ApproveTouches(s: State, actor: string, id: string)
    requires id in s.actions && s.actions[id].status == PendingApproval && actor != s.actions[id].requestedBy
    ensures
      var t := Approve(s, id, actor);
      && SameButFor(s, t, id) && LogExtends(s, t, id)
      && id in t.actions && (t.actions[id] == s.actions[id].(status := Denied)
                             || t.actions[id] == s.actions[id].(status := Queued, approvedBy := Some(actor)))
  {
    var row := s.actions[id];
    if !Evaluate(ActiveSkills(s), row.skillId, row.deviceOs).allowed {
      assert Approve(s, id, actor).actions == s.actions[id := row.(status := Denied)];
    } else {
      assert Approve(s, id, actor).actions == s.actions[id := row.(status := Queued, approvedBy := Some(actor))];
    }
  }

  lemma DenyTouches(s: State, actor: string, id: string, reason: string)
    requires id in s.actions
    ensures
      var t := Deny(s, id, actor, reason);
      && SameButFor(s, t, id) && LogExtends(s, t, id)
      && id in t.actions && t.actions[id] == s.actions[id].(status := Denied)
  {
  }

  lemma DecideTouches(c: Config, s: State, tenant: string, actor: string, id: string, approve: bool, reason: string,
                      now: int)
    ensures
      var t := Decide(s, tenant, actor, id, approve, reason).0;
      && SameButFor(s, t, id) && LogExtends(s, t, id)
      && RowMoves(c, Row(s, id), Row(t, id), id, now)
  {
    if id in s.actions && s.actions[id].status == PendingApproval {
      DenyTouches(s, actor, id, reason);
      if actor != s.actions[id].requestedBy {
        ApproveTouches(s, actor, id);
      }
    }
  }

  lemma GrantTouches(c: Config, s: State, id: string, key: string, nonce: string, now: int)
    requires id in s.actions && s.actions[id].skillId in s.skills && s.actions[id].status == Queued
    ensures
      var t := Grant(c, s, id, key, nonce, now);
      && SameButFor(s, t, id) && LogExtends(s, t, id)
      && id in t.actions && Moves(c, s.actions[id], t.actions[id], id, now)
  {
    var t := Grant(c, s, id, key, nonce, now);
    assert t.actions[id].tokenHash.value == ClaimToken(id, s.actions[id].attempt + 1, key);
    assert IsTokenFor(id, s.actions[id].attempt + 1, t.actions[id].tokenHash.value);
  }

  lemma ClaimTouches(c: Config, s: State, tenant: string, device: string, id: string, key: string, nonce: string,
                     now: int)
    ensures
      var t := Claim(c, s, tenant, device, id, key, nonce, now).0;
      && SameButFor(s, t, id) && LogExtends(s, t, id)
      && RowMoves(c, Row(s, id), Row(t, id), id, now)
  {
    if Claimable(s, tenant, device, id) {
      GrantTouches(c, s, id, key, nonce, now);
    }
  }

  lemma SettleTouches(c: Config, s: State, id: string, r: JobResult, now: int)
    requires id in s.actions && s.actions[id].status == Claimed && s.actions[id].tokenHash.Some?
    requires s.actions[id].leaseExpiresAt.Some? ==> now <= s.actions[id].leaseExpiresAt.value
    ensures
      var t := Settle(s, id, r);
      && SameButFor(s, t, id) && LogExtends(s, t, id)
      && id in t.actions && Moves(c, s.actions[id], t.actions[id], id, now)
  {
    var t := Settle(s, id, r);
    var es := ReportEvents(s.actions[id].tenant, id, s.actions[id].device, r);
    assert t.audit == s.audit + es;
    assert forall k :: 0 <= k < |es| ==> es[k].correlation == id;
    forall i | |s.audit| <= i < |t.audit| ensures t.audit[i].correlation == id {
      assert t.audit[i] == es[i - |s.audit|];
    }
  }

  lemma ReportTouches(c: Config, s: State, tenant: string, device: string, id: string, key: string, token: Token,
                      r: JobResult, now: int)
    ensures
      var t := Report(s, tenant, device, id, key, token, r, now).0;
      && SameButFor(s, t, id) && LogExtends(s, t, id)
      && RowMoves(c, Row(s, id), Row(t, id), id, now)
  {
    if ReportRefusal(s, tenant, device, id, token, now).None? {
      SettleTouches(c, s, id, r, now);
    }
  }

  lemma ReapTouches(c: Config, s: State, id: string, now: int)
    requires LeaseExpired(s, id, now)
    ensures
      var t := Reap(c, s, id);
      && SameButFor(s, t, id) && LogExtends(s, t, id)
      && RowMoves(c, Row(s, id), Row(t, id), id, now)
  {
  }

  /** Every step moves at most the row it is about, by one of the listed moves, and logs only about it. */
  lemma StepTouches(c: Config, s: State, op: Op, now: int, id: string)
    ensures RowMoves(c, Row(s, id), Row(Next(c, s, op, now), id), id, now)
    ensures Subject(op).Some? ==> LogExtends(s, Next(c, s, op, now), Subject(op).value)
    ensures Subject(op).None? ==> Next(c, s, op, now).audit == s.audit
    ensures Subject(op) != Some(id) ==> Row(Next(c, s, op, now), id) == Row(s, id)
  {
    var t := Next(c, s, op, now);
    match op
    case OpRegister(_) =>
    case OpPurge(_) =>
    case OpCreate(tenant, actor, key, body, newId) =>
      CreateTouches(c, s, tenant, actor, key, body, newId, now);
      OtherRows(s, t, newId, id);
    case OpDecide(tenant, actor, subject, approve, reason) =>
      DecideTouches(c, s, tenant, actor, subject, approve, reason, now);
      OtherRows(s, t, subject, id);
    case OpClaim(tenant, device, subject, key, nonce) =>
      ClaimTouches(c, s, tenant, device, subject, key, nonce, now);
      OtherRows(s, t, subject, id);
    case OpReport(tenant, device, subject, key, token, r) =>
      ReportTouches(c, s, tenant, device, subject, key, token, r, now);
      OtherRows(s, t, subject, id);
    case OpReap(subject) =>
      if LeaseExpired(s, subject, now) {
        ReapTouches(c, s, subject, now);
        OtherRows(s, t, subject, id);
      }
  }

  lemma OtherRows(s: State, t: State, subject: string, id: string)
    requires SameButFor(s, t, subject)
    ensures id != subject ==> Row(t, id) == Row(s, id)
  {
  }

  lemma OthersSilent(s: State, t: State, subject: string, id: string)
    requires LogExtends(s, t, subject) && subject != id
    ensures t.audit == s.audit + t.audit[|s.audit|..] && NoEventOf(t.audit[|s.audit|..], id)
  {
  }

  /** A step never touches an action it is not about. */
  lemma OthersUntouched(c: Config, s: State, op: Op, now: int, id: string)
    requires Subject(op) != Some(id)
    ensures Row(s, id) == Row(Next(c, s, op, now), id)
    ensures
      var t := Next(c, s, op, now);
      |s.audit| <= |t.audit| && t.audit == s.audit + t.audit[|s.audit|..] && NoEventOf(t.audit[|s.audit|..], id)
  {
    StepTouches(c, s, op, now, id);
    if Subject(op).Some? {
      OthersSilent(s, Next(c, s, op, now), Subject(op).value, id);
    }
  }

  lemma {:induction false} ReplaySilent(log: seq<Event>, es: seq<Event>, id: string)
    requires NoEventOf(es, id)
    ensures Replay(log + es, id) == Replay(log, id)
  {
    if es == [] {
      assert log + es == log;
    } else {
      var n := |es| - 1;
      ReplaySilent(log, es[..n], id);
      ReplaySnoc(log + es[..n], es[n], id);
      assert log + es == log + es[..n] + [es[n]];
    }
  }

  // ---- The audit log replays to the tables

  function LifeOf(s: State, id: string): Life {
    if id in s.actions then Life(s.actions[id].status, s.actions[id].attempt) else Unborn
  }

  predicate LogTells(s: State, id: string) {
    Replay(s.audit, id) == Some(LifeOf(s, id))
  }

  lemma SubmitTells(s: State, id: string, tenant: string, actor: string, body: ActionBody, os: string, now: int)
    requires LogTells(s, id) && id !in s.actions
    ensures LogTells(Submit(s, id, tenant, actor, body, os, now), id)
  {
    var d := Evaluate(ActiveSkills(s), body.skillId, os);
    var risk := if d.skill.Some? then d.skill.value.risk else Prohibited;
    var evaluated := Event(tenant, id, actor, PolicyEvaluated(d.allowed, d.approvalRequired, d.reason, risk, d.level));
    ReplaySnoc(s.audit, evaluated, id);
    ReplaySnoc(s.audit + [evaluated], Event(tenant, id, "system", ExecutionQueued(body.skillId, Approved, Queued)), id);
  }

  lemma CreateTells(c: Config, s: State, tenant: string, actor: string, key: string, body: ActionBody, newId: string,
                    now: int)
    requires LogTells(s, newId)
    ensures LogTells(Create(c, s, tenant, actor, key, body, newId, now).0, newId)
  {
    if Lookup(s, RecordKey(tenant, ActionScope, key), ActionPayload(body)).Miss?
        && CreateRefusal(c, s, tenant, body, newId).None? {
      SubmitTells(s, newId, tenant, actor, body, s.devices[body.device].os, now);
    }
  }

  lemma ApproveTells(s: State, actor: string, id: string)
    requires LogTells(s, id) && id in s.actions && s.actions[id].status == PendingApproval
    ensures LogTells(Approve(s, id, actor), id)
  {
    var row := s.actions[id];
    var d := Evaluate(ActiveSkills(s), row.skillId, row.deviceOs);
    var approved := Event(row.tenant, id, actor, ActionApproved(PendingApproval, Approved));
    if d.allowed {
      ReplaySnoc(s.audit, approved, id);
      ReplaySnoc(s.audit + [approved], Event(row.tenant, id, "system", ExecutionQueued(row.skillId, Approved, Queued)),
                 id);
    } else {
      ReplaySnoc(s.audit, Event(row.tenant, id, actor, ApprovalInvalidated(d.reason)), id);
    }
  }

  lemma DenyTells(s: State, actor: string, id: string, reason: string)
    requires LogTells(s, id) && id in s.actions && s.actions[id].status == PendingApproval
    ensures LogTells(Deny(s, id, actor, reason), id)
  {
    ReplaySnoc(s.audit, Event(s.actions[id].tenant, id, actor, ActionDenied(reason, PendingApproval, Denied)), id);
  }

  lemma DecideTells(s: State, tenant: string, actor: string, id: string, approve: bool, reason: string)
    requires LogTells(s, id)
    ensures LogTells(Decide(s, tenant, actor, id, approve, reason).0, id)
  {
    if id in s.actions && s.actions[id].status == PendingApproval {
      if approve {
        ApproveTells(s, actor, id);
      } else {
        DenyTells(s, actor, id, reason);
      }
    }
  }

  lemma ClaimTells(c: Config, s: State, tenant: string, device: string, id: string, key: string, nonce: string,
                   now: int)
    requires LogTells(s, id)
    ensures LogTells(Claim(c, s, tenant, device, id, key, nonce, now).0, id)
  {
    if Claimable(s, tenant, device, id) {
      var row := s.actions[id];
      var n := row.attempt + 1;
      ReplaySnoc(s.audit,
                 Event(row.tenant, id, row.device, ExecutionClaimed(JobId(id, n), n, now + LEASE, Queued, Claimed)),
                 id);
    }
  }

  /** The follow-up events of a report leave a settled life as it is. */
  lemma FollowUp(log: seq<Event>, when: bool, e: Event, id: string, life: Life)
    requires Replay(log, id) == Some(life) && life.Life? && Terminal(life.status)
    requires e.details.ExecutionVerified? || e.details.RollbackCompleted?
             || (e.details.EscalationRequired? && e.details.status == life.status)
    ensures Replay(log + (if when then [e] else []), id) == Some(life)
  {
    if when {
      ReplaySnoc(log, e, id);
    } else {
      assert log + [] == log;
    }
  }

  lemma ReportEventsReplay(log: seq<Event>, tenant: string, id: string, device: string, r: JobResult, attempt: nat)
    requires Replay(log, id) == Some(Life(Claimed, attempt))
    ensures Replay(log + ReportEvents(tenant, id, device, r), id) == Some(Life(ReportedStatus(r), attempt))
  {
    var status := ReportedStatus(r);
    var life := Life(status, attempt);
    var reported := Event(tenant, id, device, ExecutionReported(status, r.success, r.verified, r.rollbackAttempted,
                                                                r.rollbackSucceeded, Claimed, status));
    var verified := Event(tenant, id, device, ExecutionVerified(r.success));
    var rolledBack := Event(tenant, id, device, RollbackCompleted(r.rollbackSucceeded));
    var escalated := Event(tenant, id, "system", EscalationRequired(status, r.error));
    ReplaySnoc(log, reported, id);
    var l1 := log + [reported];
    FollowUp(l1, r.verified, verified, id, life);
    var l2 := l1 + (if r.verified then [verified] else []);
    FollowUp(l2, r.rollbackAttempted, rolledBack, id, life);
    var l3 := l2 + (if r.rollbackAttempted then [rolledBack] else []);
    FollowUp(l3, status !in {Succeeded, RolledBack}, escalated, id, life);
    Regroup(log, [reported], if r.verified then [verified] else [], if r.rollbackAttempted then [rolledBack] else [],
            if status !in {Succeeded, RolledBack} then [escalated] else []);
  }

  lemma Regroup<T>(log: seq<T>, a: seq<T>, b: seq<T>, c: seq<T>, d: seq<T>)
    ensures log + (a + b + c + d) == log + a + b + c + d
  {
  }

  lemma ReportTells(s: State, tenant: string, device: string, id: string, key: string, token: Token, r: JobResult,
                    now: int)
    requires LogTells(s, id)
    ensures LogTells(Report(s, tenant, device, id, key, token, r, now).0, id)
  {
    if ReportRefusal(s, tenant, device, id, token, now).None? {
      var row := s.actions[id];
      ReportEventsReplay(s.audit, row.tenant, id, row.device, r, row.attempt);
    }
  }

  lemma ReapTells(c: Config, s: State, id: string)
    requires LogTells(s, id) && id in s.actions && s.actions[id].status == Claimed
    ensures LogTells(Reap(c, s, id), id)
  {
    var row := s.actions[id];
    ReplaySnoc(s.audit, Event(row.tenant, id, "system:lease_reaper", RetriesExhausted(Failed, row.attempt, row.status)),
               id);
    ReplaySnoc(s.audit, Event(row.tenant, id, "system:lease_reaper", LeaseRequeued(row.attempt, row.status, Queued)),
               id);
  }

  lemma StepTells(c: Config, s: State, op: Op, now: int, id: string)
    requires LogTells(s, id)
    ensures LogTells(Next(c, s, op, now), id)
  {
    if Subject(op) != Some(id) {
      OthersUntouched(c, s, op, now, id);
      var t := Next(c, s, op, now);
      ReplaySilent(s.audit, t.audit[|s.audit|..], id);
    } else {
      match op
      case OpCreate(tenant, actor, key, body, newId) => CreateTells(c, s, tenant, actor, key, body, newId, now);
      case OpDecide(tenant, actor, _, approve, reason) => DecideTells(s, tenant, actor, id, approve, reason);
      case OpClaim(tenant, device, _, key, nonce) => ClaimTells(c, s, tenant, device, id, key, nonce, now);
      case OpReport(tenant, device, _, key, token, r) => ReportTells(s, tenant, device, id, key, token, r, now);
      case OpReap(_) => if LeaseExpired(s, id, now) { ReapTells(c, s, id); }
    }
  }

  /** After every run, folding an action's audit events gives exactly the status and attempt in its row,
      and every recorded previous status was the one the fold had reached (an event that disagrees makes
      the fold fail). */
  lemma {:induction false} AuditReplaysToStatus(c: Config, s: State, ops: seq<Timed>, id: string)
    requires Initial(s)
    ensures LogTells(Run(c, s, ops), id)
  {
    if ops != [] {
      var n := |ops| - 1;
      AuditReplaysToStatus(c, s, ops[..n], id);
      StepTells(c, Run(c, s, ops[..n]), ops[n].op, ops[n].now, id);
    }
  }

  /** Over every run, no claim attempt of an action is ended twice. */
  lemma AttemptsEndOnce(c: Config, s: State, ops: seq<Timed>, id: string, i: nat, j: nat)
    requires Initial(s) && i < j < |Run(c, s, ops).audit|
    requires
      var log := Run(c, s, ops).audit;
      && log[i].correlation == id && IsOutcome(log[i].details)
      && log[j].correlation == id && IsOutcome(log[j].details)
    ensures AttemptOf(Before(Run(c, s, ops).audit, id, i)) < AttemptOf(Before(Run(c, s, ops).audit, id, j))
  {
    AuditReplaysToStatus(c, s, ops, id);
    OneOutcomePerAttempt(Run(c, s, ops).audit, id, i, j);
  }

  // ---- Bounded attempts and termination

  /** The highest attempt number an action can reach. */
  function AttemptCap(c: Config): nat {
    if c.maxAttempts < 1 then 1 else c.maxAttempts
  }

  predicate RowBounded(c: Config, row: ActionRow) {
    match row.status
    case PendingApproval => row.attempt == 0 && row.approvedBy.None?
    case Denied => row.attempt == 0
    case Approved => false
    case Queued => row.attempt == 0 || row.attempt < c.maxAttempts
    case Claimed => 1 <= row.attempt <= AttemptCap(c) && row.leaseExpiresAt.Some? && row.tokenHash.Some?
    case _ => 1 <= row.attempt <= AttemptCap(c)
  }

  predicate Bounded(c: Config, s: State, id: string) {
    id in s.actions ==> RowBounded(c, s.actions[id])
  }

  lemma MovesBounded(c: Config, a: ActionRow, b: ActionRow, id: string, now: int)
    requires RowBounded(c, a) && Moves(c, a, b, id, now)
    ensures RowBounded(c, b)
  {
  }

  lemma StepBounded(c: Config, s: State, op: Op, now: int, id: string)
    requires Bounded(c, s, id)
    ensures Bounded(c, Next(c, s, op, now), id)
  {
    StepTouches(c, s, op, now, id);
    var before, after := Row(s, id), Row(Next(c, s, op, now), id);
    if before != after && before.Some? {
      MovesBounded(c, before.value, after.value, id, now);
    }
  }

  /** In every reachable state queued means attempt 0 or below the maximum, claimed means an attempt of at
      most max(1, maximum) with a lease and a token, and no row rests in `approved`. */
  lemma {:induction false} AttemptsBounded(c: Config, s: State, ops: seq<Timed>, id: string)
    requires Initial(s)
    ensures Bounded(c, Run(c, s, ops), id)
  {
    if ops != [] {
      var n := |ops| - 1;
      AttemptsBounded(c, s, ops[..n], id);
      StepBounded(c, Run(c, s, ops[..n]), ops[n].op, ops[n].now, id);
    }
  }

  /** Status changes still possible. */
  function Fuel(c: Config, row: Option<ActionRow>): int {
    if row.None? then 2 * AttemptCap(c) + 2
    else match row.value.status
      case PendingApproval => 2 * AttemptCap(c) + 1
      case Approved => 2 * AttemptCap(c) + 1
      case Queued => 2 * (AttemptCap(c) - row.value.attempt)
      case Claimed => 2 * (AttemptCap(c) - row.value.attempt) + 1
      case _ => 0
  }

  predicate StatusChanged(s: State, t: State, id: string) {
    LifeOf(s, id) != LifeOf(t, id)
  }

  lemma MovesBurnFuel(c: Config, a: ActionRow, b: ActionRow, id: string, now: int)
    requires RowBounded(c, a) && Moves(c, a, b, id, now)
    ensures 0 <= Fuel(c, Some(b)) < Fuel(c, Some(a))
  {
    MovesBounded(c, a, b, id, now);
  }

  lemma StepBurnsFuel(c: Config, s: State, op: Op, now: int, id: string)
    requires Bounded(c, s, id)
    ensures
      var before, after := Row(s, id), Row(Next(c, s, op, now), id);
      && (before != after ==> 0 <= Fuel(c, after) < Fuel(c, before))
      && (StatusChanged(s, Next(c, s, op, now), id) ==> before != after)
  {
    StepTouches(c, s, op, now, id);
    var before, after := Row(s, id), Row(Next(c, s, op, now), id);
    if before != after && before.Some? {
      MovesBurnFuel(c, before.value, after.value, id, now);
    }
  }

  /** How often the status of an action changes along a run (its creation counts as one). */
  function Changes(c: Config, s: State, ops: seq<Timed>, id: string): nat {
    if ops == [] then 0
    else
      var n := |ops| - 1;
      Changes(c, s, ops[..n], id) + (if StatusChanged(Run(c, s, ops[..n]), Run(c, s, ops), id) then 1 else 0)
  }

  /** Every action changes status finitely often, whatever the run does: at most twice per permitted
      attempt, plus its creation and its approval. */
  lemma {:induction false} ActionsSettle(c: Config, s: State, ops: seq<Timed>, id: string)
    requires Initial(s)
    ensures Changes(c, s, ops, id) + Fuel(c, Row(Run(c, s, ops), id)) <= 2 * AttemptCap(c) + 2
    ensures 0 <= Fuel(c, Row(Run(c, s, ops), id))
    ensures Changes(c, s, ops, id) <= 2 * AttemptCap(c) + 2
  {
    if ops != [] {
      var n := |ops| - 1;
      ActionsSettle(c, s, ops[..n], id);
      AttemptsBounded(c, s, ops[..n], id);
      StepBurnsFuel(c, Run(c, s, ops[..n]), ops[n].op, ops[n].now, id);
    }
  }

  lemma TerminalStep(c: Config, s: State, op: Op, now: int, id: string)
    requires id in s.actions && Terminal(s.actions[id].status)
    ensures Row(s, id) == Row(Next(c, s, op, now), id)
  {
    StepTouches(c, s, op, now, id);
  }

  lemma RunSnoc(c: Config, s: State, ops: seq<Timed>, last: Timed)
    ensures Run(c, s, ops + [last]) == Next(c, Run(c, s, ops), last.op, last.now)
  {
    assert (ops + [last])[..|ops|] == ops;
  }

  lemma {:induction false} RunSplits(c: Config, s: State, ops: seq<Timed>, more: seq<Timed>)
    ensures Run(c, s, ops + more) == Run(c, Run(c, s, ops), more)
  {
    if more == [] {
      assert ops + more == ops;
    } else {
      var n := |more| - 1;
      RunSplits(c, s, ops, more[..n]);
      RunSnoc(c, s, ops + more[..n], more[n]);
      RunSnoc(c, Run(c, s, ops), more[..n], more[n]);
      assert (ops + more[..n]) + [more[n]] == ops + more && more[..n] + [more[n]] == more;
    }
  }

  /** A settled action never changes again, in any column. */
  lemma {:induction false} TerminalForever(c: Config, s: State, more: seq<Timed>, id: string)
    requires id in s.actions && Terminal(s.actions[id].status)
    ensures Row(s, id) == Row(Run(c, s, more), id)
  {
    if more != [] {
      var n := |more| - 1;
      TerminalForever(c, s, more[..n], id);
      TerminalStep(c, Run(c, s, more[..n]), more[n].op, more[n].now, id);
    }
  }

  // ---- Records stay

  ghost predicate KeepsRecords(s: State, t: State) {
    forall rk <- s.records :: rk in t.records && t.records[rk] == s.records[rk]
  }

  lemma CreateKeepsRecords(c: Config, s: State, tenant: string, actor: string, key: string, body: ActionBody,
                           newId: string, now: int)
    ensures KeepsRecords(s, Create(c, s, tenant, actor, key, body, newId, now).0)
  {
  }

  lemma DecideKeepsRecords(s: State, tenant: string, actor: string, id: string, approve: bool, reason: string)
    ensures KeepsRecords(s, Decide(s, tenant, actor, id, approve, reason).0)
  {
  }

  lemma ClaimKeepsRecords(c: Config, s: State, tenant: string, device: string, id: string, key: string, nonce: string,
                          now: int)
    ensures KeepsRecords(s, Claim(c, s, tenant, device, id, key, nonce, now).0)
  {
  }

  lemma ReportKeepsRecords(s: State, tenant: string, device: string, id: string, key: string, token: Token,
                           r: JobResult, now: int)
    ensures KeepsRecords(s, Report(s, tenant, device, id, key, token, r, now).0)
  {
  }

  /** Only a purge takes a record away, and nothing changes one. */
  lemma RecordsPersist(c: Config, s: State, op: Op, now: int, rk: RecordKey)
    requires !op.OpPurge? && rk in s.records
    ensures rk in Next(c, s, op, now).records && Next(c, s, op, now).records[rk] == s.records[rk]
  {
    match op
    case OpCreate(tenant, actor, key, body, newId) => CreateKeepsRecords(c, s, tenant, actor, key, body, newId, now);
    case OpDecide(tenant, actor, id, approve, reason) => DecideKeepsRecords(s, tenant, actor, id, approve, reason);
    case OpClaim(tenant, device, id, key, nonce) => ClaimKeepsRecords(c, s, tenant, device, id, key, nonce, now);
    case OpReport(tenant, device, id, key, token, r) => ReportKeepsRecords(s, tenant, device, id, key, token, r, now);
    case _ =>
  }

  // ---- Claim tokens

  ghost predicate TokenBelongs(s: State, id: string) {
    id in s.actions && s.actions[id].tokenHash.Some? ==>
        IsTokenFor(id, s.actions[id].attempt, s.actions[id].tokenHash.value)
  }

  lemma StepToken(c: Config, s: State, op: Op, now: int, id: string)
    requires TokenBelongs(s, id)
    ensures TokenBelongs(Next(c, s, op, now), id)
  {
    StepTouches(c, s, op, now, id);
    MovesToken(c, s, Next(c, s, op, now), now, id);
  }

  lemma MovesToken(c: Config, s: State, t: State, now: int, id: string)
    requires RowMoves(c, Row(s, id), Row(t, id), id, now) && TokenBelongs(s, id)
    ensures TokenBelongs(t, id)
  {
  }

  lemma {:induction false} TokensBelong(c: Config, s: State, ops: seq<Timed>, id: string)
    requires Initial(s)
    ensures TokenBelongs(Run(c, s, ops), id)
  {
    if ops != [] {
      var n := |ops| - 1;
      TokensBelong(c, s, ops[..n], id);
      StepToken(c, Run(c, s, ops[..n]), ops[n].op, ops[n].now, id);
    }
  }

  /** A report that changes a row carries the token minted for exactly the row's current attempt, within its
      lease; that token is the token of no other action and no other attempt, under any key. */
  lemma ReportNeedsItsToken(c: Config, s: State, ops: seq<Timed>, tenant: string, device: string, id: string,
                            key: string, token: Token, r: JobResult, now: int,
                            otherId: string, otherAttempt: nat, otherKey: string)
    requires Initial(s) && ':' !in id && ':' !in otherId
    requires StatusChanged(Run(c, s, ops), Report(Run(c, s, ops), tenant, device, id, key, token, r, now).0, id)
    ensures id in Run(c, s, ops).actions
    ensures
      var row := Run(c, s, ops).actions[id];
      && row.status == Claimed && row.tenant == tenant && row.device == device
      && row.leaseExpiresAt.Some? && now <= row.leaseExpiresAt.value
      && IsTokenFor(id, row.attempt, token)
      && (token == ClaimToken(otherId, otherAttempt, otherKey) ==> otherId == id && otherAttempt == row.attempt)
  {
    TokensBelong(c, s, ops, id);
    AttemptsBounded(c, s, ops, id);
    var row := Run(c, s, ops).actions[id];
    var minted :| token == ClaimToken(id, row.attempt, minted);
    if token == ClaimToken(otherId, otherAttempt, otherKey) {
      TokenMessageInjective(id, row.attempt, minted, otherId, otherAttempt, otherKey);
    }
  }

  /** At one clock value an attempt can be reported or reaped, never both. */
  lemma ReportOrReap(c: Config, s: State, ops: seq<Timed>, tenant: string, device: string, id: string,
                     key: string, token: Token, r: JobResult, now: int)
    requires Initial(s)
    ensures var t := Run(c, s, ops);
      !(StatusChanged(t, Report(t, tenant, device, id, key, token, r, now).0, id) && LeaseExpired(t, id, now))
  {
    AttemptsBounded(c, s, ops, id);
  }

  // ---- Separation of duties

  ghost predicate WasQueued(log: seq<Event>, id: string) {
    exists i :: 0 <= i < |log| && log[i].correlation == id && log[i].details.ExecutionQueued?
  }

  /** The policy evaluation at submission allowed the action without approval. */
  ghost predicate NeededNoApproval(log: seq<Event>, id: string) {
    exists i :: 0 <= i < |log| && log[i].correlation == id
      && log[i].details.PolicyEvaluated? && log[i].details.allowed && !log[i].details.approvalRequired
  }

  predicate ApprovedByAnother(row: ActionRow) {
    row.approvedBy.Some? && row.approvedBy.value != row.requestedBy
  }

  ghost predicate DutiesSeparate(s: State, id: string) {
    && (id !in s.actions ==> NoEventOf(s.audit, id))
    && (id in s.actions && (s.actions[id].status in {Queued, Claimed} || s.actions[id].attempt > 0) ==>
        WasQueued(s.audit, id))
    && (id in s.actions && WasQueued(s.audit, id) ==> NeededNoApproval(s.audit, id) || ApprovedByAnother(s.actions[id]))
    && (id in s.actions && s.actions[id].status == PendingApproval ==> !WasQueued(s.audit, id))
  }

  lemma LogGrows(log: seq<Event>, e: Event, id: string)
    ensures WasQueued(log + [e], id) <==> WasQueued(log, id) || (e.correlation == id && e.details.ExecutionQueued?)
    ensures NeededNoApproval(log, id) ==> NeededNoApproval(log + [e], id)
    ensures e.correlation == id && e.details.PolicyEvaluated? && e.details.allowed && !e.details.approvalRequired
            ==> NeededNoApproval(log + [e], id)
  {
    var longer := log + [e];
    assert longer[|log|] == e;
    if i :| 0 <= i < |log| && log[i].correlation == id && log[i].details.ExecutionQueued? {
      assert longer[i] == log[i];
    }
    if NeededNoApproval(log, id) {
      var i :| 0 <= i < |log| && log[i].correlation == id
               && log[i].details.PolicyEvaluated? && log[i].details.allowed && !log[i].details.approvalRequired;
      assert longer[i] == log[i];
    }
  }

  lemma {:induction false} LogGrowsBy(log: seq<Event>, es: seq<Event>, id: string)
    requires forall i :: 0 <= i < |es| ==> es[i].correlation != id || !es[i].details.ExecutionQueued?
    ensures WasQueued(log + es, id) <==> WasQueued(log, id)
    ensures NeededNoApproval(log, id) ==> NeededNoApproval(log + es, id)
  {
    if es == [] {
      assert log + es == log;
    } else {
      var n := |es| - 1;
      LogGrowsBy(log, es[..n], id);
      LogGrows(log + es[..n], es[n], id);
      assert log + es == log + es[..n] + [es[n]];
    }
  }

  lemma SubmitSeparates(s: State, id: string, tenant: string, actor: string, body: ActionBody, os: string, now: int)
    requires id !in s.actions && NoEventOf(s.audit, id)
    ensures DutiesSeparate(Submit(s, id, tenant, actor, body, os, now), id)
  {
    var d := Evaluate(ActiveSkills(s), body.skillId, os);
    var risk := if d.skill.Some? then d.skill.value.risk else Prohibited;
    var evaluated := Event(tenant, id, actor, PolicyEvaluated(d.allowed, d.approvalRequired, d.reason, risk, d.level));
    assert !WasQueued(s.audit, id);
    LogGrows(s.audit, evaluated, id);
    LogGrows(s.audit + [evaluated], Event(tenant, id, "system", ExecutionQueued(body.skillId, Approved, Queued)), id);
  }

  lemma CreateSeparates(c: Config, s: State, tenant: string, actor: string, key: string, body: ActionBody,
                        newId: string, now: int)
    requires DutiesSeparate(s, newId)
    ensures DutiesSeparate(Create(c, s, tenant, actor, key, body, newId, now).0, newId)
  {
    if Lookup(s, RecordKey(tenant, ActionScope, key), ActionPayload(body)).Miss?
        && CreateRefusal(c, s, tenant, body, newId).None? {
      SubmitSeparates(s, newId, tenant, actor, body, s.devices[body.device].os, now);
    }
  }

  lemma ApproveSeparates(s: State, actor: string, id: string)
    requires DutiesSeparate(s, id) && id in s.actions && s.actions[id].status == PendingApproval
        && s.actions[id].attempt == 0
    requires actor != s.actions[id].requestedBy
    ensures DutiesSeparate(Approve(s, id, actor), id)
  {
    var row := s.actions[id];
    var d := Evaluate(ActiveSkills(s), row.skillId, row.deviceOs);
    var approved := Event(row.tenant, id, actor, ActionApproved(PendingApproval, Approved));
    LogGrows(s.audit, Event(row.tenant, id, actor, ApprovalInvalidated(d.reason)), id);
    LogGrows(s.audit, approved, id);
    LogGrows(s.audit + [approved], Event(row.tenant, id, "system", ExecutionQueued(row.skillId, Approved, Queued)), id);
  }

  lemma DenySeparates(s: State, actor: string, id: string, reason: string)
    requires DutiesSeparate(s, id) && id in s.actions && s.actions[id].status == PendingApproval
        && s.actions[id].attempt == 0
    ensures DutiesSeparate(Deny(s, id, actor, reason), id)
  {
    LogGrows(s.audit, Event(s.actions[id].tenant, id, actor, ActionDenied(reason, PendingApproval, Denied)), id);
  }

  lemma DecideSeparates(s: State, tenant: string, actor: string, id: string, approve: bool, reason: string)
    requires DutiesSeparate(s, id)
        && (id in s.actions && s.actions[id].status == PendingApproval ==> s.actions[id].attempt == 0)
    ensures DutiesSeparate(Decide(s, tenant, actor, id, approve, reason).0, id)
  {
    if id in s.actions && s.actions[id].status == PendingApproval {
      if !approve {
        DenySeparates(s, actor, id, reason);
      } else if actor != s.actions[id].requestedBy {
        ApproveSeparates(s, actor, id);
      }
    }
  }

  /** From s to t no event queues an action. */
  ghost predicate QueuesNothing(s: State, t: State) {
    |s.audit| <= |t.audit| && forall i :: |s.audit| <= i < |t.audit| ==> !t.audit[i].details.ExecutionQueued?
  }

  lemma ClaimQueuesNothing(c: Config, s: State, tenant: string, device: string, id: string, key: string, nonce: string,
                           now: int)
    ensures QueuesNothing(s, Claim(c, s, tenant, device, id, key, nonce, now).0)
  {
  }

  lemma SettleQueuesNothing(s: State, id: string, r: JobResult)
    requires id in s.actions
    ensures QueuesNothing(s, Settle(s, id, r))
  {
    var t, es := Settle(s, id, r), ReportEvents(s.actions[id].tenant, id, s.actions[id].device, r);
    assert forall i :: 0 <= i < |es| ==> !es[i].details.ExecutionQueued?;
    assert forall i :: |s.audit| <= i < |t.audit| ==> t.audit[i] == es[i - |s.audit|];
  }

  lemma ReportQueuesNothing(s: State, tenant: string, device: string, id: string, key: string, token: Token,
                            r: JobResult, now: int)
    ensures QueuesNothing(s, Report(s, tenant, device, id, key, token, r, now).0)
  {
    if id in s.actions {
      SettleQueuesNothing(s, id, r);
    }
  }

  /** Only submission and approval put an action in the queue for the first time; the other steps change
      rows that were queued before. */
  lemma LaterOpsQueueNothing(c: Config, s: State, op: Op, now: int)
    requires !op.OpCreate? && !op.OpDecide?
    ensures QueuesNothing(s, Next(c, s, op, now))
  {
    match op
    case OpClaim(tenant, device, id, key, nonce) => ClaimQueuesNothing(c, s, tenant, device, id, key, nonce, now);
    case OpReport(tenant, device, id, key, token, r) => ReportQueuesNothing(s, tenant, device, id, key, token, r, now);
    case _ =>
  }

  lemma LaterOpsChangeQueued(c: Config, s: State, op: Op, now: int, id: string)
    requires !op.OpCreate? && !op.OpDecide? && Subject(op) == Some(id)
    ensures Row(s, id) != Row(Next(c, s, op, now), id) ==>
        Row(s, id).Some? && Row(s, id).value.status in {Queued, Claimed}
    ensures id !in s.actions ==> Next(c, s, op, now).audit == s.audit
  {
  }

  lemma QuietLog(s: State, t: State, id: string)
    requires QueuesNothing(s, t) && t.audit[..|s.audit|] == s.audit
    ensures WasQueued(t.audit, id) <==> WasQueued(s.audit, id)
    ensures NeededNoApproval(s.audit, id) ==> NeededNoApproval(t.audit, id)
  {
    LogGrowsBy(s.audit, t.audit[|s.audit|..], id);
    assert t.audit == s.audit + t.audit[|s.audit|..];
  }

  lemma LaterOpsSeparate(c: Config, s: State, op: Op, now: int, id: string)
    requires !op.OpCreate? && !op.OpDecide? && Subject(op) == Some(id)
    ensures WasQueued(Next(c, s, op, now).audit, id) <==> WasQueued(s.audit, id)
    ensures NeededNoApproval(s.audit, id) ==> NeededNoApproval(Next(c, s, op, now).audit, id)
  {
    StepTouches(c, s, op, now, id);
    LaterOpsQueueNothing(c, s, op, now);
    QuietLog(s, Next(c, s, op, now), id);
  }

  /** A change of a queued or claimed row that logs no queueing. */
  lemma LaterMovesSeparate(c: Config, s: State, t: State, now: int, id: string)
    requires DutiesSeparate(s, id) && RowMoves(c, Row(s, id), Row(t, id), id, now)
    requires Row(s, id) != Row(t, id) ==> Row(s, id).Some? && Row(s, id).value.status in {Queued, Claimed}
    requires id !in s.actions ==> t.audit == s.audit
    requires WasQueued(t.audit, id) <==> WasQueued(s.audit, id)
    requires NeededNoApproval(s.audit, id) ==> NeededNoApproval(t.audit, id)
    ensures DutiesSeparate(t, id)
  {
  }

  lemma StepSeparates(c: Config, s: State, op: Op, now: int, id: string)
    requires DutiesSeparate(s, id) && Bounded(c, s, id)
    ensures DutiesSeparate(Next(c, s, op, now), id)
  {
    var t := Next(c, s, op, now);
    if Subject(op) != Some(id) {
      OthersUntouched(c, s, op, now, id);
      OthersSeparate(s, t, id);
    } else if op.OpCreate? {
      CreateSeparates(c, s, op.tenant, op.actor, op.key, op.body, op.newId, now);
    } else if op.OpDecide? {
      DecideSeparates(s, op.tenant, op.actor, id, op.approve, op.reason);
    } else {
      StepTouches(c, s, op, now, id);
      LaterOpsSeparate(c, s, op, now, id);
      LaterOpsChangeQueued(c, s, op, now, id);
      LaterMovesSeparate(c, s, t, now, id);
    }
  }

  lemma OthersSeparate(s: State, t: State, id: string)
    requires DutiesSeparate(s, id) && Row(s, id) == Row(t, id)
    requires |s.audit| <= |t.audit| && t.audit == s.audit + t.audit[|s.audit|..] && NoEventOf(t.audit[|s.audit|..], id)
    ensures DutiesSeparate(t, id)
    ensures WasQueued(t.audit, id) <==> WasQueued(s.audit, id)
  {
    LogGrowsBy(s.audit, t.audit[|s.audit|..], id);
    if id !in s.actions {
      forall i | 0 <= i < |t.audit| ensures t.audit[i].correlation != id {
        if i >= |s.audit| {
          assert t.audit[i] == t.audit[|s.audit|..][i - |s.audit|];
        } else {
          assert t.audit[i] == s.audit[i];
        }
      }
    }
  }

  /** Over every run with a changing skill registry, an action that was ever queued either needed no
      approval when it was submitted or was approved by someone other than its requester. */
  lemma {:induction false} NobodyApprovesTheirOwn(c: Config, s: State, ops: seq<Timed>, id: string)
    requires Initial(s)
    ensures DutiesSeparate(Run(c, s, ops), id)
  {
    if ops != [] {
      var n := |ops| - 1;
      NobodyApprovesTheirOwn(c, s, ops[..n], id);
      AttemptsBounded(c, s, ops[..n], id);
      StepSeparates(c, Run(c, s, ops[..n]), ops[n].op, ops[n].now, id);
    }
  }

  /** Whenever a step queues an action for the first time, its skill is at that moment registered, not
      prohibited, not destructive, and supports the device's operating system. */
  lemma QueuedOnlyWhenRunnable(c: Config, s: State, op: Op, now: int, id: string)
    requires DutiesSeparate(s, id) && Bounded(c, s, id)
    requires !WasQueued(s.audit, id) && WasQueued(Next(c, s, op, now).audit, id)
    ensures id in Next(c, s, op, now).actions
    ensures var row := Next(c, s, op, now).actions[id];
      row.status == Queued && Runnable(ActiveSkills(Next(c, s, op, now)), row.skillId, row.deviceOs)
  {
    if Subject(op) != Some(id) {
      OthersUntouched(c, s, op, now, id);
      OthersSeparate(s, Next(c, s, op, now), id);
    } else if !op.OpCreate? && !op.OpDecide? {
      LaterOpsSeparate(c, s, op, now, id);
    } else if op.OpCreate? {
      CreateQueuesRunnable(c, s, op.tenant, op.actor, op.key, op.body, op.newId, now);
    } else {
      DecideQueuesRunnable(s, op.tenant, op.actor, id, op.approve, op.reason);
    }
  }

  /** The action is queued and its skill may run. */
  predicate QueuedRunnable(s: State, id: string) {
    && id in s.actions && s.actions[id].status == Queued
    && Runnable(ActiveSkills(s), s.actions[id].skillId, s.actions[id].deviceOs)
  }

  lemma SubmitQueuesRunnable(s: State, id: string, tenant: string, actor: string, body: ActionBody, os: string,
                             now: int)
    requires !WasQueued(s.audit, id) && WasQueued(Submit(s, id, tenant, actor, body, os, now).audit, id)
    ensures QueuedRunnable(Submit(s, id, tenant, actor, body, os, now), id)
  {
    var d := Evaluate(ActiveSkills(s), body.skillId, os);
    var risk := if d.skill.Some? then d.skill.value.risk else Prohibited;
    assert ActiveSkills(Submit(s, id, tenant, actor, body, os, now)) == ActiveSkills(s);
    LogGrows(s.audit, Event(tenant, id, actor, PolicyEvaluated(d.allowed, d.approvalRequired, d.reason, risk, d.level)),
             id);
    AllowedMeansRunnable(ActiveSkills(s), body.skillId, os);
  }

  lemma CreateQueuesRunnable(c: Config, s: State, tenant: string, actor: string, key: string, body: ActionBody,
                             newId: string, now: int)
    requires !WasQueued(s.audit, newId) && WasQueued(Create(c, s, tenant, actor, key, body, newId, now).0.audit, newId)
    ensures QueuedRunnable(Create(c, s, tenant, actor, key, body, newId, now).0, newId)
  {
    if Lookup(s, RecordKey(tenant, ActionScope, key), ActionPayload(body)).Miss?
        && CreateRefusal(c, s, tenant, body, newId).None? {
      SubmitQueuesRunnable(s, newId, tenant, actor, body, s.devices[body.device].os, now);
    }
  }

  lemma ApproveQueuesRunnable(s: State, actor: string, id: string)
    requires id in s.actions && !WasQueued(s.audit, id) && WasQueued(Approve(s, id, actor).audit, id)
    ensures QueuedRunnable(Approve(s, id, actor), id)
  {
    var row := s.actions[id];
    var d := Evaluate(ActiveSkills(s), row.skillId, row.deviceOs);
    assert ActiveSkills(Approve(s, id, actor)) == ActiveSkills(s);
    LogGrows(s.audit, Event(row.tenant, id, actor, ApprovalInvalidated(d.reason)), id);
    AllowedMeansRunnable(ActiveSkills(s), row.skillId, row.deviceOs);
  }

  lemma DecideQueuesRunnable(s: State, tenant: string, actor: string, id: string, approve: bool, reason: string)
    requires !WasQueued(s.audit, id) && WasQueued(Decide(s, tenant, actor, id, approve, reason).0.audit, id)
    ensures QueuedRunnable(Decide(s, tenant, actor, id, approve, reason).0, id)
  {
    if id in s.actions {
      if approve {
        if WasQueued(Approve(s, id, actor).audit, id) {
          ApproveQueuesRunnable(s, actor, id);
        }
      } else {
        LogGrows(s.audit, Event(s.actions[id].tenant, id, actor, ActionDenied(reason, PendingApproval, Denied)), id);
      }
    }
  }
}

/** The control plane as an object that updates its tables step by step; each handler is proved to perform
    exactly its transition of module Server. */
module ControlPlane {
  import opened Text
  import opened Policy
  import opened Skills
  import opened Signing
  import opened Lifecycle
  import opened Server

  /** The reaper's batch as steps of a run, all at one clock value. */
  function ReapSteps(batch: seq<string>, now: int): seq<Timed> {
    seq(|batch|, i requires 0 <= i < |batch| => Timed(OpReap(batch[i]), now))
  }

  function Clamp(limit: int): nat {
    if limit < 1 then 1 else if limit > 100 then 100 else limit
  }

  /** When a row was created, or claimed; a claimed row always says when. */
  function Created(s: State): string -> int {
    id => if id in s.actions then s.actions[id].createdAt else 0
  }

  function ClaimTimes(s: State): string -> int {
    id => if id in s.actions && s.actions[id].claimedAt.Some? then s.actions[id].claimedAt.value else 0
  }

  function PollableIds(s: State, tenant: string, device: string): set<string> {
    set id <- s.actions | Pollable(s, tenant, device, id)
  }

  /** Queued for this very device of this tenant. */
  predicate Waiting(s: State, tenant: string, device: string, id: string) {
    && id in s.actions && s.actions[id].status == Queued
    && s.actions[id].tenant == tenant && s.actions[id].device == device
  }

  /** A claim whose lease has run out, and when it was made. */
  predicate RunOut(s: State, id: string, now: int) {
    && id in s.actions && s.actions[id].status == Claimed
    && s.actions[id].leaseExpiresAt.Some? && s.actions[id].leaseExpiresAt.value < now
  }

  function ClaimedAt(s: State, id: string): int {
    if id in s.actions && s.actions[id].claimedAt.Some? then s.actions[id].claimedAt.value else 0
  }

  /** What the reaper's batch is: claims that have run out and are not locked elsewhere, by the time of the claim,
      at least one and at most a hundred wanted; those left out were claimed no earlier. */
  lemma BatchExactly(s: State, now: int, locked: set<string>, limit: int, batch: seq<string>)
    requires FirstOf(ExpiredIds(s, now, locked), ClaimTimes(s), Clamp(limit), batch)
    ensures
      var bound := if limit <= 0 then 1 else if limit <= 100 then limit else 100;
      && |batch| <= bound
      && (forall id <- batch :: RunOut(s, id, now) && id !in locked)
      && (forall i, j :: 0 <= i < j < |batch| ==>
            batch[i] != batch[j] && ClaimedAt(s, batch[i]) <= ClaimedAt(s, batch[j]))
      && (forall id <- s.actions :: RunOut(s, id, now) && id !in locked && id !in batch ==>
            |batch| == bound && forall b <- batch :: ClaimedAt(s, b) <= ClaimedAt(s, id))
  {
    assert forall id <- s.actions :: RunOut(s, id, now) && id !in locked <==> id in ExpiredIds(s, now, locked);
    assert forall i :: 0 <= i < |batch| ==> batch[i] in ExpiredIds(s, now, locked);
  }

  /** The claims the reaper may take: expired, and not locked elsewhere. */
  function ExpiredIds(s: State, now: int, locked: set<string>): set<string> {
    set id <- s.actions | LeaseExpired(s, id, now) && id !in locked
  }

  /** `order_by(age).limit(bound)` over the candidates: the first ones, none twice; those left out are no earlier. */
  ghost predicate FirstOf(candidates: set<string>, age: string -> int, bound: nat, picked: seq<string>) {
    && |picked| <= bound
    && (forall id <- picked :: id in candidates)
    && (forall i, j :: 0 <= i < j < |picked| ==> picked[i] != picked[j] && age(picked[i]) <= age(picked[j]))
    && (forall id <- candidates :: id in picked || (|picked| == bound && forall p <- picked :: age(p) <= age(id)))
  }

  lemma EarliestExists(candidates: set<string>, age: string -> int) returns (id: string)
    requires candidates != {}
    ensures id in candidates && forall other <- candidates :: age(id) <= age(other)
    decreases |candidates|
  {
    id :| id in candidates;
    var rest := candidates - {id};
    if rest != {} {
      assert |rest| < |candidates|;
      var best := EarliestExists(rest, age);
      if age(best) < age(id) {
        id := best;
      }
    }
  }

  method Select(candidates: set<string>, age: string -> int, bound: nat) returns (picked: seq<string>)
    ensures FirstOf(candidates, age, bound, picked)
  {
    picked := [];
    var rest := candidates;
    while rest != {} && |picked| < bound
      invariant rest <= candidates && |picked| <= bound
      invariant forall id <- candidates :: id in picked || id in rest
      invariant forall id <- picked :: id in candidates && id !in rest
      invariant forall i, j :: 0 <= i < j < |picked| ==> picked[i] != picked[j] && age(picked[i]) <= age(picked[j])
      invariant forall p <- picked, id <- rest :: age(p) <= age(id)
      decreases |rest|
    {
      ghost var earliest := EarliestExists(rest, age);
      var next :| next in rest && forall other <- rest :: age(next) <= age(other);
      picked := picked + [next];
      rest := rest - {next};
    }
  }

  class ControlPlane {
    const config: Config
    var actions: map<string, ActionRow>
    var records: map<RecordKey, Record>
    var results: seq<ResultRow>
    var approvals: seq<ApprovalRow>
    var audit: seq<Event>
    var skills: map<string, Manifest>
    var devices: map<string, DeviceRow>
    var tickets: map<string, string>

    function View(): State
      reads this
    {
      State(actions, records, results, approvals, audit, skills, devices, tickets)
    }

    constructor (config: Config, skills: map<string, Manifest>, devices: map<string, DeviceRow>,
                 tickets: map<string, string>)
      ensures Initial(View()) && this.config == config
      ensures this.skills == skills && this.devices == devices && this.tickets == tickets
    {
      this.config := config;
      this.skills, this.devices, this.tickets := skills, devices, tickets;
      actions, records, results, approvals, audit := map[], map[], [], [], [];
    }

    method IdempotencyLookup(rk: RecordKey, payload: Payload) returns (found: LookupResult)
      ensures found == Lookup(View(), rk, payload)
    {
      found := Miss;
      if rk in records {
        found := if records[rk].payload != payload then Conflict else Hit(records[rk].response);
      }
    }

    method Append(tenant: string, id: string, actor: string, details: Details)
      modifies this`audit
      ensures View() == Log(old(View()), tenant, id, actor, details)
    {
      audit := audit + [Event(tenant, id, actor, details)];
    }

    /** _execute_or_queue with execution left to the endpoint. */
    method Queue(id: string)
      requires id in actions
      modifies this`actions, this`audit
      ensures View() == QueueAction(old(View()), id)
    {
      var row := actions[id].(status := Queued);
      actions := actions[id := row];
      Append(row.tenant, id, "system", ExecutionQueued(row.skillId, Approved, Queued));
    }

    method SubmitAction(id: string, tenant: string, actor: string, body: ActionBody, os: string, now: int)
      modifies this`actions, this`audit
      ensures View() == Submit(old(View()), id, tenant, actor, body, os, now)
    {
      var d := Evaluate(ActiveSkills(View()), body.skillId, os);
      var status := SubmittedStatus(d);
      var risk := if d.skill.Some? then d.skill.value.risk else Prohibited;
      actions := actions[id := ActionRow(tenant, body.device, body.skillId, actor, body.parameters, os, risk, status,
                                         None, None, None, None, 0, body.ticket, now)];
      Append(tenant, id, actor, PolicyEvaluated(d.allowed, d.approvalRequired, d.reason, risk, d.level));
      if status == Approved {
        Queue(id);
      }
    }

    method CreateAction(tenant: string, actor: string, key: string, body: ActionBody, newId: string, now: int)
        returns (reply: Reply)
      modifies this
      ensures (View(), reply) == Create(config, old(View()), tenant, actor, key, body, newId, now)
    {
      var rk := RecordKey(tenant, ActionScope, key);
      var cached := IdempotencyLookup(rk, ActionPayload(body));
      if cached.Conflict? {
        return Refused(409);
      }
      if cached.Hit? {
        return Ok(cached.response);
      }
      if body.skillId in skills && !Conforms(skills[body.skillId], body.parameters) {
        return Refused(422);
      }
      if body.skillId == "service.restart" && !ServiceAllowed(config, body) {
        return Refused(403);
      }
      if body.device !in devices || devices[body.device].tenant != tenant {
        return Refused(404);
      }
      if !TicketFound(View(), tenant, body) {
        return Refused(404);
      }
      if Blank(body.skillId) || newId in actions {
        return Refused(500);
      }
      SubmitAction(newId, tenant, actor, body, devices[body.device].os, now);
      var response := ActionResponse(newId, actions[newId]);
      records := records[rk := Record(ActionPayload(body), response, now)];
      return Ok(response);
    }

    method ApproveAction(id: string, actor: string)
      requires id in actions
      modifies this`actions, this`audit
      ensures View() == Approve(old(View()), id, actor)
    {
      var row := actions[id];
      var d := Evaluate(ActiveSkills(View()), row.skillId, row.deviceOs);
      if !d.allowed {
        actions := actions[id := row.(status := Denied)];
        Append(row.tenant, id, actor, ApprovalInvalidated(d.reason));
        return;
      }
      row := row.(approvedBy := Some(actor));
      row := row.(status := Approved);
      actions := actions[id := row];
      Append(row.tenant, id, actor, ActionApproved(PendingApproval, Approved));
      Queue(id);
    }

    method DecideAction(tenant: string, actor: string, id: string, approve: bool, reason: string) returns (reply: Reply)
      modifies this
      ensures (View(), reply) == Decide(old(View()), tenant, actor, id, approve, reason)
    {
      if id !in actions || actions[id].tenant != tenant {
        return Refused(404);
      }
      if actions[id].status != PendingApproval {
        return Refused(409);
      }
      if approve {
        if actor == actions[id].requestedBy {
          return Refused(403);
        }
        ApproveAction(id, actor);
      } else {
        actions := actions[id := actions[id].(status := Denied)];
        Append(tenant, id, actor, ActionDenied(reason, PendingApproval, Denied));
      }
      approvals := approvals + [ApprovalRow(tenant, id, actor, approve, reason)];
      return Ok(Done);
    }

    /** The oldest ten queued actions of the device. */
    method PollJobs(tenant: string, device: string) returns (ids: seq<string>)
      ensures FirstOf(PollableIds(View(), tenant, device), Created(View()), 10, ids)
      ensures |ids| <= 10 && forall id <- ids :: Waiting(View(), tenant, device, id)
      ensures forall i, j :: 0 <= i < j < |ids| ==>
        ids[i] != ids[j] && actions[ids[i]].createdAt <= actions[ids[j]].createdAt
      ensures forall id <- actions :: Waiting(View(), tenant, device, id) && id !in ids ==>
        |ids| == 10 && forall p <- ids :: actions[p].createdAt <= actions[id].createdAt
    {
      ids := Select(PollableIds(View(), tenant, device), Created(View()), 10);
      assert forall id <- actions :: Waiting(View(), tenant, device, id) <==> id in PollableIds(View(), tenant, device);
      assert forall i :: 0 <= i < |ids| ==> ids[i] in PollableIds(View(), tenant, device);
    }

    method ClaimJob(tenant: string, device: string, id: string, key: string, nonce: string, now: int)
        returns (reply: Reply)
      modifies this
      ensures (View(), reply) == Claim(config, old(View()), tenant, device, id, key, nonce, now)
    {
      var rk := RecordKey(tenant, ClaimScope, key);
      var cached := IdempotencyLookup(rk, ClaimPayload(id, device));
      if cached.Conflict? {
        return Refused(409);
      }
      if cached.Hit? {
        return Ok(Regrant(id, key, cached.response));
      }
      var skillVersion, next := 0, 1;
      if id in actions {
        next := actions[id].attempt + 1;
        if actions[id].tenant == tenant {
          if actions[id].skillId !in skills {
            return Refused(409);
          }
          skillVersion := skills[actions[id].skillId].version;
        }
      }
      var token := ClaimToken(id, next, key);
      if id !in actions || actions[id].tenant != tenant || actions[id].device != device
          || actions[id].status != Queued {
        return Refused(409);
      }
      actions := actions[id := actions[id].(
        status := Claimed, tokenHash := Some(token), claimedAt := Some(now), leaseExpiresAt := Some(now + LEASE),
        attempt := actions[id].attempt + 1)];
      var row := actions[id];
      var fields := Fields(JobId(id, row.attempt), id, row.device, tenant, row.skillId, skillVersion,
                           row.parameters, row.deviceOs, now, now + LEASE, nonce, config.keyVersion);
      var signature := SignEnvelope(fields, config.seed, config.keyVersion);
      Append(tenant, id, device, ExecutionClaimed(JobId(id, row.attempt), row.attempt, now + LEASE, Queued, Claimed));
      records := records[rk := Record(ClaimPayload(id, device), StoredClaim(fields, signature, row.attempt), now)];
      return Ok(GrantedClaim(fields, signature, row.attempt, token));
    }

    /** The audit events of an accepted report, one by one. */
    method LogReport(tenant: string, id: string, device: string, r: JobResult, previous: Status, status: Status)
      requires previous == Claimed && status == ReportedStatus(r)
      modifies this`audit
      ensures audit == old(audit) + ReportEvents(tenant, id, device, r)
    {
      Append(tenant, id, device,
             ExecutionReported(status, r.success, r.verified, r.rollbackAttempted, r.rollbackSucceeded,
                               previous, status));
      if r.verified {
        Append(tenant, id, device, ExecutionVerified(r.success));
      }
      if r.rollbackAttempted {
        Append(tenant, id, device, RollbackCompleted(r.rollbackSucceeded));
      }
      if status !in {Succeeded, RolledBack} {
        Append(tenant, id, "system", EscalationRequired(status, r.error));
      }
    }

    method SettleJob(id: string, r: JobResult)
      requires id in actions && actions[id].status == Claimed
      modifies this`actions, this`results, this`audit
      ensures View() == Settle(old(View()), id, r)
    {
      var row := actions[id];
      var previous := row.status;
      row := row.(status := ReportedStatus(r));
      actions := actions[id := row];
      results := results + [ResultRow(row.tenant, id, r)];
      LogReport(row.tenant, id, row.device, r, previous, row.status);
    }

    method ReportJobResult(tenant: string, device: string, id: string, key: string, token: Token, r: JobResult,
                           now: int)
      returns (reply: Reply)
      modifies this
      ensures (View(), reply) == Report(old(View()), tenant, device, id, key, token, r, now)
    {
      var rk := RecordKey(tenant, ResultScope, key);
      var cached := IdempotencyLookup(rk, ResultPayload(id, device, r));
      if cached.Conflict? {
        return Refused(409);
      }
      if cached.Hit? {
        return Ok(cached.response);
      }
      if id !in actions || actions[id].tenant != tenant {
        return Refused(404);
      }
      var row := actions[id];
      if row.device != device || row.status != Claimed || row.tokenHash.None? {
        return Refused(409);
      }
      if row.tokenHash.value != token {
        return Refused(401);
      }
      if row.leaseExpiresAt.Some? && row.leaseExpiresAt.value < now {
        return Refused(409);
      }
      SettleJob(id, r);
      var response := Accepted(id, actions[id].status);
      records := records[rk := Record(ResultPayload(id, device, r), response, now)];
      return Ok(response);
    }

    method ReapOne(id: string)
      requires id in actions
      modifies this`actions, this`audit
      ensures View() == Reap(config, old(View()), id)
    {
      var row := actions[id];
      var previous := row.status;
      row := row.(tokenHash := None, claimedAt := None, leaseExpiresAt := None);
      if row.attempt >= config.maxAttempts {
        row := row.(status := Failed);
        actions := actions[id := row];
        Append(row.tenant, id, "system:lease_reaper", RetriesExhausted(row.status, row.attempt, previous));
        return;
      }
      row := row.(status := Queued);
      actions := actions[id := row];
      Append(row.tenant, id, "system:lease_reaper", LeaseRequeued(row.attempt, previous, row.status));
    }

    method ReapAll(now: int, batch: seq<string>)
      requires forall k :: 0 <= k < |batch| ==> LeaseExpired(View(), batch[k], now)
      requires forall i, j :: 0 <= i < j < |batch| ==> batch[i] != batch[j]
      modifies this`actions, this`audit
      ensures View() == Run(config, old(View()), ReapSteps(batch, now))
    {
      for i := 0 to |batch|
        invariant View() == Run(config, old(View()), ReapSteps(batch[..i], now))
        invariant forall k :: i <= k < |batch| ==> LeaseExpired(View(), batch[k], now)
      {
        ReapStep(config, old(View()), batch, i, now);
        StillExpired(config, View(), batch, i, now);
        ReapOne(batch[i]);
      }
      assert batch[..|batch|] == batch;
    }

    /** The expired claims by claim time up to the clamped limit, rows locked elsewhere skipped; reaping them
        in one transaction equals reaping them one by one. */
    method ReapBatch(now: int, limit: int, locked: set<string>) returns (batch: seq<string>)
      modifies this`actions, this`audit
      ensures FirstOf(ExpiredIds(old(View()), now, locked), ClaimTimes(old(View())), Clamp(limit), batch)
      ensures View() == Run(config, old(View()), ReapSteps(batch, now))
    {
      batch := Select(ExpiredIds(View(), now, locked), ClaimTimes(View()), Clamp(limit));
      forall k | 0 <= k < |batch| ensures LeaseExpired(View(), batch[k], now) {
        assert batch[k] in batch;
      }
      ReapAll(now, batch);
    }

    /** The retention worker's purge of idempotency records. */
    method PurgeRecords(cutoff: int)
      modifies this`records
      ensures View() == Purge(old(View()), cutoff)
    {
      records := map rk <- records | records[rk].createdAt >= cutoff :: records[rk];
    }

    /** Any one transaction. */
    method Perform(op: Op, now: int) returns (reply: Reply)
      modifies this
      ensures (View(), reply) == Apply(config, old(View()), op, now)
    {
      reply := Ok(Done);
      match op
      case OpRegister(m) => skills := skills[m.definition.skillId := m];
      case OpCreate(tenant, actor, key, body, newId) => reply := CreateAction(tenant, actor, key, body, newId, now);
      case OpDecide(tenant, actor, id, approve, reason) => reply := DecideAction(tenant, actor, id, approve, reason);
      case OpClaim(tenant, device, id, key, nonce) => reply := ClaimJob(tenant, device, id, key, nonce, now);
      case OpReport(tenant, device, id, key, token, r) =>
          reply := ReportJobResult(tenant, device, id, key, token, r, now);
      case OpReap(id) => if LeaseExpired(View(), id, now) { ReapOne(id); }
      case OpPurge(cutoff) => PurgeRecords(cutoff);
    }
  }

  /** One more row of the batch is one more step. */
  lemma ReapStep(c: Config, s: State, batch: seq<string>, i: nat, now: int)
    requires i < |batch| && LeaseExpired(Run(c, s, ReapSteps(batch[..i], now)), batch[i], now)
    ensures Run(c, s, ReapSteps(batch[..i + 1], now)) == Reap(c, Run(c, s, ReapSteps(batch[..i], now)), batch[i])
  {
    ReapStepsGrow(batch, i, now);
  }

  /** Reaping one row leaves the others expired. */
  lemma StillExpired(c: Config, s: State, batch: seq<string>, i: nat, now: int)
    requires i < |batch| && batch[i] in s.actions && forall k :: i <= k < |batch| ==> LeaseExpired(s, batch[k], now)
    requires forall k :: i < k < |batch| ==> batch[k] != batch[i]
    ensures forall k :: i < k < |batch| ==> LeaseExpired(Reap(c, s, batch[i]), batch[k], now)
  {
  }

  lemma ReapStepsGrow(batch: seq<string>, i: nat, now: int)
    requires i < |batch|
    ensures ReapSteps(batch[..i + 1], now) == ReapSteps(batch[..i], now) + [Timed(OpReap(batch[i]), now)]
    ensures ReapSteps(batch[..i + 1], now)[..i] == ReapSteps(batch[..i], now)
  {
  }
}

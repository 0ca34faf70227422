/** What a request to create an action is answered, and what every action's row remembers of it
    (helpdesktool/api.py, helpdesktool/orchestrator.py). */
module Submissions {
  import opened Text
  import opened Policy
  import opened Skills
  import opened Lifecycle
  import opened Server
  import opened ServerRuns

  // ---- One request

  /** service.restart names, as a string, a service the control plane allows. */
  predicate NamesAllowedService(c: Config, parameters: Parameters) {
    "service" in parameters && parameters["service"].Str? && parameters["service"].s in c.allowedServices
  }

  predicate ShapeFits(s: State, body: ActionBody) {
    body.skillId in s.skills ==> Conforms(s.skills[body.skillId], body.parameters)
  }

  predicate ServiceFits(c: Config, body: ActionBody) {
    body.skillId == "service.restart" ==> NamesAllowedService(c, body.parameters)
  }

  /** The device, and the ticket if one is named, belong to the tenant. */
  predicate Belongs(s: State, tenant: string, body: ActionBody) {
    && body.device in s.devices && s.devices[body.device].tenant == tenant
    && (body.ticket.Some? && body.ticket.value != "" ==>
          body.ticket.value in s.tickets && s.tickets[body.ticket.value] == tenant)
  }

  predicate Usable(s: State, body: ActionBody, newId: string) {
    (exists i :: 0 <= i < |body.skillId| && body.skillId[i] !in {' ', '\t', '\n', '\r'}) && newId !in s.actions
  }

  predicate Acceptable(c: Config, s: State, tenant: string, body: ActionBody, newId: string) {
    ShapeFits(s, body) && ServiceFits(c, body) && Belongs(s, tenant, body) && Usable(s, body, newId)
  }

  /** A request whose key is on record is answered from the record; any other one is accepted exactly when all
      checks hold, otherwise the first that fails gives the code. A refusal changes nothing. */
  lemma CreateAnsweredExactly(
    c: Config, s: State, tenant: string, actor: string, key: string, body: ActionBody, newId: string, now: int)
    ensures
      var (t, reply) := Create(c, s, tenant, actor, key, body, newId, now);
      var rk := RecordKey(tenant, ActionScope, key);
      if rk in s.records then
        && t == s
        && reply == if s.records[rk].payload == ActionPayload(body) then Ok(s.records[rk].response) else Refused(409)
      else
        && (reply.Ok? <==> Acceptable(c, s, tenant, body, newId))
        && (reply.Refused? ==> t == s)
        && (reply == Refused(422) <==> !ShapeFits(s, body))
        && (reply == Refused(403) <==> ShapeFits(s, body) && !ServiceFits(c, body))
        && (reply == Refused(404) <==> ShapeFits(s, body) && ServiceFits(c, body) && !Belongs(s, tenant, body))
        && (reply == Refused(500) <==>
              ShapeFits(s, body) && ServiceFits(c, body) && Belongs(s, tenant, body) && !Usable(s, body, newId))
  {
  }

  /** The status of a new action: what the policy's decision makes of it. */
  function FirstStatus(d: Decision): Status {
    if d.allowed && !d.approvalRequired then Queued else if d.allowed then PendingApproval else Denied
  }

  function EvaluatedEvent(tenant: string, id: string, actor: string, d: Decision): Event {
    Event(tenant, id, actor, PolicyEvaluated(d.allowed, d.approvalRequired, d.reason,
                                             if d.skill.Some? then d.skill.value.risk else Prohibited, d.level))
  }

  /** An accepted request adds its row, its policy event and its record, and queues the action exactly when the
      policy allows it outright. */
  lemma AcceptedCreation(
    c: Config, s: State, tenant: string, actor: string, key: string, body: ActionBody, newId: string, now: int)
    requires RecordKey(tenant, ActionScope, key) !in s.records && Acceptable(c, s, tenant, body, newId)
    ensures
      var (t, reply) := Create(c, s, tenant, actor, key, body, newId, now);
      var os := s.devices[body.device].os;
      var d := Evaluate(ActiveSkills(s), body.skillId, os);
      var risk := if body.skillId in s.skills then s.skills[body.skillId].definition.risk else Prohibited;
      var row := ActionRow(tenant, body.device, body.skillId, actor, body.parameters, os, risk, FirstStatus(d),
                           None, None, None, None, 0, body.ticket, now);
      && t.actions == s.actions[newId := row]
      && t.audit == s.audit + [EvaluatedEvent(tenant, newId, actor, d)]
                    + (if row.status == Queued
                       then [Event(tenant, newId, "system", ExecutionQueued(body.skillId, Approved, Queued))] else [])
      && t.records == s.records[RecordKey(tenant, ActionScope, key) :=
                                  Record(ActionPayload(body), ActionResponse(newId, row), now)]
      && t == s.(actions := t.actions, audit := t.audit, records := t.records)
      && reply == Ok(ActionResponse(newId, row))
  {
    CreateAnsweredExactly(c, s, tenant, actor, key, body, newId, now);
    EvaluateExactly(ActiveSkills(s), body.skillId, s.devices[body.device].os);
    var d := Evaluate(ActiveSkills(s), body.skillId, s.devices[body.device].os);
    assert FirstStatus(d) == if SubmittedStatus(d) == Approved then Queued else SubmittedStatus(d);
  }

  // ---- What rows remember

  /** The columns a submission fixes. */
  predicate SameNames(a: ActionRow, b: ActionRow) {
    && a.tenant == b.tenant && a.device == b.device && a.skillId == b.skillId && a.requestedBy == b.requestedBy
    && a.parameters == b.parameters && a.deviceOs == b.deviceOs && a.risk == b.risk && a.ticket == b.ticket
    && a.createdAt == b.createdAt
  }

  lemma StepNames(c: Config, s: State, op: Op, now: int, id: string)
    requires id in s.actions
    ensures id in Next(c, s, op, now).actions && SameNames(s.actions[id], Next(c, s, op, now).actions[id])
  {
    StepTouches(c, s, op, now, id);
  }

  /** The row is what this acceptable request asks for, in these tables. */
  predicate Submits(c: Config, s: State, op: Op, now: int, id: string, row: ActionRow) {
    && op.OpCreate? && op.newId == id && Acceptable(c, s, op.tenant, op.body, id)
    && row.tenant == op.tenant && row.requestedBy == op.actor
    && row.device == op.body.device && row.skillId == op.body.skillId && row.parameters == op.body.parameters
    && row.ticket == op.body.ticket && row.deviceOs == s.devices[op.body.device].os && row.createdAt == now
  }

  /** Only an acceptable request makes a row, and it is the row asked for. */
  lemma StepOrigin(c: Config, s: State, op: Op, now: int, id: string)
    requires id !in s.actions && id in Next(c, s, op, now).actions
    ensures Submits(c, s, op, now, id, Next(c, s, op, now).actions[id])
    ensures
      var row := Next(c, s, op, now).actions[id];
      row.status == FirstStatus(Evaluate(ActiveSkills(s), row.skillId, row.deviceOs)) && row.approvedBy == None
  {
    if Subject(op) != Some(id) {
      OthersUntouched(c, s, op, now, id);
    } else if op.OpCreate? {
      CreateAnsweredExactly(c, s, op.tenant, op.actor, op.key, op.body, op.newId, now);
      AcceptedCreation(c, s, op.tenant, op.actor, op.key, op.body, op.newId, now);
    } else {
      LaterOpsCreateNothing(c, s, op, now, id);
    }
  }

  lemma LaterOpsCreateNothing(c: Config, s: State, op: Op, now: int, id: string)
    requires !op.OpCreate? && id !in s.actions
    ensures id !in Next(c, s, op, now).actions
  {
    if Subject(op) != Some(id) {
      OthersUntouched(c, s, op, now, id);
    } else if op.OpDecide? {
      assert Next(c, s, op, now) == Decide(s, op.tenant, op.actor, op.id, op.approve, op.reason).0 == s;
    } else {
      LaterOpsChangeQueued(c, s, op, now, id);
    }
  }

  lemma RunStep(c: Config, s: State, ops: seq<Timed>, n: nat)
    requires n < |ops|
    ensures Run(c, s, ops[..n + 1]) == Next(c, Run(c, s, ops[..n]), ops[n].op, ops[n].now)
  {
    assert ops[..n + 1][..n] == ops[..n];
  }

  lemma {:induction false} NamesStay(c: Config, s: State, ops: seq<Timed>, m: nat, n: nat, id: string)
    requires m <= n <= |ops| && id in Run(c, s, ops[..m]).actions
    ensures id in Run(c, s, ops[..n]).actions
    ensures SameNames(Run(c, s, ops[..m]).actions[id], Run(c, s, ops[..n]).actions[id])
  {
    if m < n {
      NamesStay(c, s, ops, m, n - 1, id);
      RunStep(c, s, ops, n - 1);
      StepNames(c, Run(c, s, ops[..n - 1]), ops[n - 1].op, ops[n - 1].now, id);
    }
  }

  /** Over every run an action's row is there because of one acceptable request, and still says what that
      request asked for: who, for which device, which skill with which parameters, on which ticket. */
  lemma {:induction false} RowOrigin(c: Config, s: State, ops: seq<Timed>, n: nat, id: string) returns (k: nat)
    requires Initial(s) && n <= |ops| && id in Run(c, s, ops[..n]).actions
    ensures k < n && id !in Run(c, s, ops[..k]).actions && id in Run(c, s, ops[..k + 1]).actions
    ensures Submits(c, Run(c, s, ops[..k]), ops[k].op, ops[k].now, id, Run(c, s, ops[..n]).actions[id])
  {
    assert ops[..0] == [];
    RunStep(c, s, ops, n - 1);
    if id in Run(c, s, ops[..n - 1]).actions {
      k := RowOrigin(c, s, ops, n - 1, id);
      StepNames(c, Run(c, s, ops[..n - 1]), ops[n - 1].op, ops[n - 1].now, id);
    } else {
      k := n - 1;
      StepOrigin(c, Run(c, s, ops[..k]), ops[k].op, ops[k].now, id);
    }
  }

  // ---- Devices, tickets and services

  predicate SameSetup(s: State, t: State) {
    s.devices == t.devices && s.tickets == t.tickets
  }

  /** No step touches devices or tickets. */
  lemma StepSetup(c: Config, s: State, op: Op, now: int)
    ensures SameSetup(s, Next(c, s, op, now))
  {
    match op
    case OpCreate(tenant, actor, key, body, newId) => CreateSetup(c, s, tenant, actor, key, body, newId, now);
    case OpDecide(tenant, actor, id, approve, reason) => DecideSetup(s, tenant, actor, id, approve, reason);
    case OpClaim(tenant, device, id, key, nonce) => ClaimSetup(c, s, tenant, device, id, key, nonce, now);
    case OpReport(tenant, device, id, key, token, r) => ReportSetup(s, tenant, device, id, key, token, r, now);
    case _ =>
  }

  lemma CreateSetup(
    c: Config, s: State, tenant: string, actor: string, key: string, body: ActionBody, newId: string, now: int)
    ensures SameSetup(s, Create(c, s, tenant, actor, key, body, newId, now).0)
  {
  }

  lemma DecideSetup(s: State, tenant: string, actor: string, id: string, approve: bool, reason: string)
    ensures SameSetup(s, Decide(s, tenant, actor, id, approve, reason).0)
  {
  }

  lemma ClaimSetup(
    c: Config, s: State, tenant: string, device: string, id: string, key: string, nonce: string, now: int)
    ensures SameSetup(s, Claim(c, s, tenant, device, id, key, nonce, now).0)
  {
  }

  lemma ReportSetup(
    s: State, tenant: string, device: string, id: string, key: string, token: Token, r: JobResult, now: int)
    ensures SameSetup(s, Report(s, tenant, device, id, key, token, r, now).0)
  {
  }

  lemma {:induction false} RunSetup(c: Config, s: State, ops: seq<Timed>, n: nat)
    requires n <= |ops|
    ensures SameSetup(s, Run(c, s, ops[..n]))
  {
    if n == 0 {
      assert ops[..0] == [];
    } else {
      RunSetup(c, s, ops, n - 1);
      RunStep(c, s, ops, n - 1);
      StepSetup(c, Run(c, s, ops[..n - 1]), ops[n - 1].op, ops[n - 1].now);
    }
  }

  /** Over every run, whoever asked and whatever the registry said: a service restart names an allowlisted
      service, and every action is for a device, and on a ticket, of its own tenant. */
  lemma RowsKeepToTheirTenant(c: Config, s: State, ops: seq<Timed>, id: string)
    requires Initial(s) && id in Run(c, s, ops).actions
    ensures
      var row := Run(c, s, ops).actions[id];
      && (row.skillId == "service.restart" ==> NamesAllowedService(c, row.parameters))
      && row.device in s.devices && s.devices[row.device] == DeviceRow(row.tenant, row.deviceOs)
      && (row.ticket.Some? && row.ticket.value != "" ==>
            row.ticket.value in s.tickets && s.tickets[row.ticket.value] == row.tenant)
  {
    assert ops[..|ops|] == ops;
    var k := RowOrigin(c, s, ops, |ops|, id);
    RunSetup(c, s, ops, k);
  }
}

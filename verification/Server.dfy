/** The control plane's request handlers as functions on its tables (helpdesktool/api.py,
    helpdesktool/orchestrator.py in queued mode, helpdesktool/lease_reaper.py,
    helpdesktool/retention_worker.py). Each handler is one transaction. */
module Server {
  import opened Text
  import opened Policy
  import opened Skills
  import opened Signing
  import opened Lifecycle

  /** Microseconds. */
  const LEASE := 60_000_000

  /** A claim token as a client presents it: a MAC under the claim secret, or any other text. SHA-256 of it
      is injective, so the stored hash is modelled by the token itself. */
  datatype Token = Minted(message: string) | OtherText(text: string)

  function ClaimToken(action: string, attempt: nat, key: string): Token {
    Minted(TokenMessage(action, attempt, key))
  }

  datatype ActionRow = ActionRow(
    tenant: string, device: string, skillId: string, requestedBy: string, parameters: Parameters,
    deviceOs: string, risk: Risk, status: Status, approvedBy: Option<string>,
    tokenHash: Option<Token>, claimedAt: Option<int>, leaseExpiresAt: Option<int>, attempt: nat,
    ticket: Option<string>, createdAt: int)

  datatype JobResult = JobResult(
    success: bool, verified: bool, output: string, error: Option<string>,
    rollbackAttempted: bool, rollbackSucceeded: Option<bool>)

  datatype ActionBody = ActionBody(device: string, skillId: string, parameters: Parameters, ticket: Option<string>)

  datatype Scope = ActionScope | ClaimScope | ResultScope

  datatype RecordKey = RecordKey(tenant: string, scope: Scope, key: string)

  /** The request payload whose SHA-256 the record stores (ideal hash: the payload itself). */
  datatype Payload =
    | ActionPayload(body: ActionBody)
    | ClaimPayload(action: string, device: string)
    | ResultPayload(action: string, device: string, result: JobResult)

  datatype Response =
    | ActionResponse(id: string, row: ActionRow)
    | StoredClaim(fields: Fields, signature: Signature, attempt: nat)
    | GrantedClaim(fields: Fields, signature: Signature, attempt: nat, token: Token)
    | Accepted(id: string, status: Status)
    | Done

  datatype Record = Record(payload: Payload, response: Response, createdAt: int)

  datatype Reply = Ok(response: Response) | Refused(code: int)

  datatype ResultRow = ResultRow(tenant: string, action: string, result: JobResult)
  datatype ApprovalRow = ApprovalRow(tenant: string, action: string, decidedBy: string, approve: bool, reason: string)
  datatype DeviceRow = DeviceRow(tenant: string, os: string)

  datatype Config = Config(
    maxAttempts: int, allowedServices: set<string>, seed: string, keyVersion: int)

  datatype State = State(
    actions: map<string, ActionRow>, records: map<RecordKey, Record>, results: seq<ResultRow>,
    approvals: seq<ApprovalRow>, audit: seq<Event>, skills: map<string, Manifest>, devices: map<string, DeviceRow>,
    tickets: map<string, string>)

  function ActiveSkills(s: State): map<string, SkillDefinition> {
    map id <- s.skills :: s.skills[id].definition
  }

  function Log(s: State, tenant: string, id: string, actor: string, details: Details): State {
    s.(audit := s.audit + [Event(tenant, id, actor, details)])
  }

  // ---- Idempotency records

  datatype LookupResult = Miss | Hit(response: Response) | Conflict

  function Lookup(s: State, rk: RecordKey, payload: Payload): LookupResult {
    if rk !in s.records then Miss
    else if s.records[rk].payload != payload then Conflict
    else Hit(s.records[rk].response)
  }

  function Remember(s: State, rk: RecordKey, payload: Payload, response: Response, now: int): State {
    s.(records := s.records[rk := Record(payload, response, now)])
  }

  function Purge(s: State, cutoff: int): State {
    s.(records := map rk <- s.records | s.records[rk].createdAt >= cutoff :: s.records[rk])
  }

  // ---- Creating an action

  predicate Blank(s: string) {
    forall i :: 0 <= i < |s| ==> s[i] in {' ', '\t', '\n', '\r'}
  }

  predicate ServiceAllowed(c: Config, body: ActionBody) {
    && "service" in body.parameters
    && body.parameters["service"].Str?
    && body.parameters["service"].s in c.allowedServices
  }

  /** A ticket, when one is named, must be the tenant's; Python takes an empty name as none. */
  predicate TicketFound(s: State, tenant: string, body: ActionBody) {
    body.ticket.Some? && body.ticket.value != "" ==>
        body.ticket.value in s.tickets && s.tickets[body.ticket.value] == tenant
  }

  /** The first check of create_action that fails, as a status code. */
  function CreateRefusal(c: Config, s: State, tenant: string, body: ActionBody, newId: string): Option<int> {
    if body.skillId in s.skills && !Conforms(s.skills[body.skillId], body.parameters) then Some(422)
    else if body.skillId == "service.restart" && !ServiceAllowed(c, body) then Some(403)
    else if body.device !in s.devices || s.devices[body.device].tenant != tenant then Some(404)
    else if !TicketFound(s, tenant, body) then Some(404)
    else if Blank(body.skillId) || newId in s.actions then Some(500)
    else None
  }

  function QueueAction(s: State, id: string): State
    requires id in s.actions
  {
    var row := s.actions[id];
    Log(s.(actions := s.actions[id := row.(status := Queued)]), row.tenant, id, "system",
        ExecutionQueued(row.skillId, Approved, Queued))
  }

  function SubmittedStatus(d: Decision): Status {
    if d.approvalRequired then PendingApproval else if d.allowed then Approved else Denied
  }

  function Submit(s: State, id: string, tenant: string, actor: string, body: ActionBody, os: string, now: int): State {
    var d := Evaluate(ActiveSkills(s), body.skillId, os);
    var risk := if d.skill.Some? then d.skill.value.risk else Prohibited;
    var row := ActionRow(tenant, body.device, body.skillId, actor, body.parameters, os, risk,
                         SubmittedStatus(d), None, None, None, None, 0, body.ticket, now);
    var added := Log(s.(actions := s.actions[id := row]), tenant, id, actor,
                     PolicyEvaluated(d.allowed, d.approvalRequired, d.reason, risk, d.level));
    if SubmittedStatus(d) == Approved then QueueAction(added, id) else added
  }

  function Create(c: Config, s: State, tenant: string, actor: string, key: string, body: ActionBody,
                  newId: string, now: int): (State, Reply)
  {
    var rk := RecordKey(tenant, ActionScope, key);
    match Lookup(s, rk, ActionPayload(body))
    case Conflict => (s, Refused(409))
    case Hit(response) => (s, Ok(response))
    case Miss =>
      var refusal := CreateRefusal(c, s, tenant, body, newId);
      if refusal.Some? then (s, Refused(refusal.value))
      else
        var submitted := Submit(s, newId, tenant, actor, body, s.devices[body.device].os, now);
        var response := ActionResponse(newId, submitted.actions[newId]);
        (Remember(submitted, rk, ActionPayload(body), response, now), Ok(response))
  }

  // ---- Deciding an action

  function SetStatus(s: State, id: string, status: Status): State
    requires id in s.actions
  {
    s.(actions := s.actions[id := s.actions[id].(status := status)])
  }

  function Approve(s: State, id: string, actor: string): State
    requires id in s.actions
  {
    var row := s.actions[id];
    var d := Evaluate(ActiveSkills(s), row.skillId, row.deviceOs);
    if !d.allowed then
      Log(SetStatus(s, id, Denied), row.tenant, id, actor, ApprovalInvalidated(d.reason))
    else
      var approved := s.(actions := s.actions[id := row.(status := Approved, approvedBy := Some(actor))]);
      QueueAction(Log(approved, row.tenant, id, actor, ActionApproved(PendingApproval, Approved)), id)
  }

  function Deny(s: State, id: string, actor: string, reason: string): State
    requires id in s.actions
  {
    Log(SetStatus(s, id, Denied), s.actions[id].tenant, id, actor, ActionDenied(reason, PendingApproval, Denied))
  }

  function Decide(s: State, tenant: string, actor: string, id: string, approve: bool, reason: string): (State, Reply) {
    if id !in s.actions || s.actions[id].tenant != tenant then (s, Refused(404))
    else if s.actions[id].status != PendingApproval then (s, Refused(409))
    else if approve && actor == s.actions[id].requestedBy then (s, Refused(403))
    else
      var decided := if approve then Approve(s, id, actor) else Deny(s, id, actor, reason);
      (decided.(approvals := decided.approvals + [ApprovalRow(tenant, id, actor, approve, reason)]), Ok(Done))
  }

  // ---- Claiming and reporting a job

  predicate Claimable(s: State, tenant: string, device: string, id: string) {
    && id in s.actions
    && s.actions[id].tenant == tenant
    && s.actions[id].device == device
    && s.actions[id].status == Queued
    && s.actions[id].skillId in s.skills
  }

  function ClaimFields(c: Config, s: State, id: string, nonce: string, now: int): Fields
    requires id in s.actions && s.actions[id].skillId in s.skills
  {
    var row := s.actions[id];
    Fields(JobId(id, row.attempt + 1), id, row.device, row.tenant, row.skillId, s.skills[row.skillId].version,
           row.parameters, row.deviceOs, now, now + LEASE, nonce, c.keyVersion)
  }

  function Grant(c: Config, s: State, id: string, key: string, nonce: string, now: int): State
    requires id in s.actions && s.actions[id].skillId in s.skills
  {
    var row := s.actions[id];
    var n := row.attempt + 1;
    var fields := ClaimFields(c, s, id, nonce, now);
    var claimed := s.(actions := s.actions[id := row.(
      status := Claimed, tokenHash := Some(ClaimToken(id, n, key)), claimedAt := Some(now),
      leaseExpiresAt := Some(now + LEASE), attempt := n)]);
    var logged := Log(claimed, row.tenant, id, row.device,
                      ExecutionClaimed(JobId(id, n), n, now + LEASE, Queued, Claimed));
    Remember(logged, RecordKey(row.tenant, ClaimScope, key), ClaimPayload(id, row.device),
             StoredClaim(fields, SignEnvelope(fields, c.seed, c.keyVersion), n), now)
  }

  /** The reply rebuilt from a stored claim: the token is recomputed, never stored. */
  function Regrant(id: string, key: string, stored: Response): Response {
    match stored
    case StoredClaim(fields, signature, attempt) =>
        GrantedClaim(fields, signature, attempt, ClaimToken(id, attempt, key))
    case other => other
  }

  function Claim(c: Config, s: State, tenant: string, device: string, id: string, key: string, nonce: string, now: int)
    : (State, Reply)
  {
    match Lookup(s, RecordKey(tenant, ClaimScope, key), ClaimPayload(id, device))
    case Conflict => (s, Refused(409))
    case Hit(stored) => (s, Ok(Regrant(id, key, stored)))
    case Miss =>
      if !Claimable(s, tenant, device, id) then (s, Refused(409))
      else
        var fields := ClaimFields(c, s, id, nonce, now);
        var n := s.actions[id].attempt + 1;
        (Grant(c, s, id, key, nonce, now),
         Ok(GrantedClaim(fields, SignEnvelope(fields, c.seed, c.keyVersion), n, ClaimToken(id, n, key))))
  }

  function ReportedStatus(r: JobResult): Status {
    if r.success && r.verified then Succeeded
    else if r.rollbackAttempted && r.rollbackSucceeded == Some(true) then RolledBack
    else if r.rollbackAttempted then RollbackFailed
    else Failed
  }

  /** The audit events of an accepted report, in order. */
  function ReportEvents(tenant: string, id: string, device: string, r: JobResult): seq<Event> {
    var status := ReportedStatus(r);
    [Event(tenant, id, device, ExecutionReported(status, r.success, r.verified, r.rollbackAttempted,
                                                 r.rollbackSucceeded, Claimed, status))]
    + (if r.verified then [Event(tenant, id, device, ExecutionVerified(r.success))] else [])
    + (if r.rollbackAttempted then [Event(tenant, id, device, RollbackCompleted(r.rollbackSucceeded))] else [])
    + (if status !in {Succeeded, RolledBack} then [Event(tenant, id, "system", EscalationRequired(status, r.error))]
       else [])
  }

  function ReportRefusal(s: State, tenant: string, device: string, id: string, token: Token, now: int): Option<int> {
    if id !in s.actions || s.actions[id].tenant != tenant then Some(404)
    else
      var row := s.actions[id];
      if row.device != device || row.status != Claimed || row.tokenHash.None? then Some(409)
      else if row.tokenHash.value != token then Some(401)
      else if row.leaseExpiresAt.Some? && row.leaseExpiresAt.value < now then Some(409)
      else None
  }

  function Settle(s: State, id: string, r: JobResult): State
    requires id in s.actions
  {
    var row := s.actions[id];
    SetStatus(s, id, ReportedStatus(r)).(
      results := s.results + [ResultRow(row.tenant, id, r)],
      audit := s.audit + ReportEvents(row.tenant, id, row.device, r))
  }

  function Report(s: State, tenant: string, device: string, id: string, key: string, token: Token, r: JobResult,
                  now: int)
    : (State, Reply)
  {
    var rk := RecordKey(tenant, ResultScope, key);
    var payload := ResultPayload(id, device, r);
    match Lookup(s, rk, payload)
    case Conflict => (s, Refused(409))
    case Hit(response) => (s, Ok(response))
    case Miss =>
      var refusal := ReportRefusal(s, tenant, device, id, token, now);
      if refusal.Some? then (s, Refused(refusal.value))
      else
        var response := Accepted(id, ReportedStatus(r));
        (Remember(Settle(s, id, r), rk, payload, response, now), Ok(response))
  }

  // ---- Polling

  predicate Pollable(s: State, tenant: string, device: string, id: string) {
    id in s.actions && s.actions[id].tenant == tenant && s.actions[id].device == device
        && s.actions[id].status == Queued
  }

  // ---- The lease reaper

  predicate LeaseExpired(s: State, id: string, now: int) {
    && id in s.actions
    && s.actions[id].status == Claimed
    && s.actions[id].leaseExpiresAt.Some?
    && s.actions[id].leaseExpiresAt.value < now
  }

  function Reap(c: Config, s: State, id: string): State
    requires id in s.actions
  {
    var row := s.actions[id];
    var freed := row.(tokenHash := None, claimedAt := None, leaseExpiresAt := None);
    if row.attempt >= c.maxAttempts then
      Log(s.(actions := s.actions[id := freed.(status := Failed)]), row.tenant, id, "system:lease_reaper",
          RetriesExhausted(Failed, row.attempt, row.status))
    else
      Log(s.(actions := s.actions[id := freed.(status := Queued)]), row.tenant, id, "system:lease_reaper",
          LeaseRequeued(row.attempt, row.status, Queued))
  }

  // ---- One step of the control plane

  datatype Op =
    | OpRegister(manifest: Manifest)
    | OpCreate(tenant: string, actor: string, key: string, body: ActionBody, newId: string)
    | OpDecide(tenant: string, actor: string, id: string, approve: bool, reason: string)
    | OpClaim(tenant: string, device: string, id: string, key: string, nonce: string)
    | OpReport(tenant: string, device: string, id: string, key: string, token: Token, result: JobResult)
    | OpReap(id: string)
    | OpPurge(cutoff: int)

  function Apply(c: Config, s: State, op: Op, now: int): (State, Reply) {
    match op
    case OpRegister(m) => (s.(skills := s.skills[m.definition.skillId := m]), Ok(Done))
    case OpCreate(tenant, actor, key, body, newId) => Create(c, s, tenant, actor, key, body, newId, now)
    case OpDecide(tenant, actor, id, approve, reason) => Decide(s, tenant, actor, id, approve, reason)
    case OpClaim(tenant, device, id, key, nonce) => Claim(c, s, tenant, device, id, key, nonce, now)
    case OpReport(tenant, device, id, key, token, r) => Report(s, tenant, device, id, key, token, r, now)
    case OpReap(id) => if LeaseExpired(s, id, now) then (Reap(c, s, id), Ok(Done)) else (s, Ok(Done))
    case OpPurge(cutoff) => (Purge(s, cutoff), Ok(Done))
  }

  function Next(c: Config, s: State, op: Op, now: int): State {
    Apply(c, s, op, now).0
  }

  function ReplyTo(c: Config, s: State, op: Op, now: int): Reply {
    Apply(c, s, op, now).1
  }

  datatype Timed = Timed(op: Op, now: int)

  /** The tables after a whole sequence of steps. */
  function Run(c: Config, s: State, ops: seq<Timed>): State {
    if ops == [] then s
    else
      var before := Run(c, s, ops[..|ops| - 1]);
      Next(c, before, ops[|ops| - 1].op, ops[|ops| - 1].now)
  }

  /** Empty action, record and history tables; devices and skills are whatever was set up. */
  predicate Initial(s: State) {
    s.actions == map[] && s.records == map[] && s.results == [] && s.approvals == [] && s.audit == []
  }
}

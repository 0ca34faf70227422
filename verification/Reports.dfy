/** What a job's report is answered, and what it leaves on record (helpdesktool/api.py). */
module Reports {
  import opened Text
  import opened Lifecycle
  import opened Server
  import opened Protocol
  import opened ProtocolResults
  import opened ProtocolTheorems
  import opened Origins

  /** The status a report settles its action with, told from the report's own fields. */
  lemma ReportedStatusExactly(r: JobResult)
    ensures
      var status, good := ReportedStatus(r), r.success && r.verified;
      && (status == Succeeded <==> good)
      && (status == RolledBack <==> !good && r.rollbackAttempted && r.rollbackSucceeded == Some(true))
      && (status == RollbackFailed <==> !good && r.rollbackAttempted && r.rollbackSucceeded != Some(true))
      && (status == Failed <==> !good && !r.rollbackAttempted)
  {
  }

  /** The action is claimed by this device, with a token and within its lease. */
  predicate HoldsClaim(row: ActionRow, device: string, token: Token, now: int) {
    && row.device == device && row.status == Claimed && row.tokenHash == Some(token)
    && (row.leaseExpiresAt.Some? ==> now <= row.leaseExpiresAt.value)
  }

  /** A report whose key is on record is answered from the record; any other one is accepted exactly from the
      device that holds the claim. The refusals, in order; none of them changes anything. */
  lemma ReportAnsweredExactly(
    s: State, tenant: string, device: string, id: string, key: string, token: Token, r: JobResult, now: int)
    ensures
      var (t, reply) := Report(s, tenant, device, id, key, token, r, now);
      var rk := RecordKey(tenant, ResultScope, key);
      if rk in s.records then
        && t == s
        && reply == if s.records[rk].payload == ResultPayload(id, device, r) then Ok(s.records[rk].response)
                    else Refused(409)
      else
        var found := id in s.actions && s.actions[id].tenant == tenant;
        && (reply.Ok? <==> found && HoldsClaim(s.actions[id], device, token, now))
        && (reply.Refused? ==> t == s)
        && (reply == Refused(404) <==> !found)
        && (reply == Refused(401) <==>
              found && s.actions[id].device == device && s.actions[id].status == Claimed
              && s.actions[id].tokenHash.Some? && s.actions[id].tokenHash != Some(token))
        && (reply.Refused? ==> reply.code in {401, 404, 409})
  {
  }

  /** The events of an accepted report: what was reported, and exactly when they apply the verification, the
      rollback and the call for a human. */
  predicate Tells(es: seq<Event>, tenant: string, id: string, device: string, r: JobResult) {
    var status := ReportedStatus(r);
    var reported := Event(tenant, id, device, ExecutionReported(status, r.success, r.verified, r.rollbackAttempted,
                                                                r.rollbackSucceeded, Claimed, status));
    var verified := Event(tenant, id, device, ExecutionVerified(r.success));
    var rolledBack := Event(tenant, id, device, RollbackCompleted(r.rollbackSucceeded));
    var escalated := Event(tenant, id, "system", EscalationRequired(status, r.error));
    && 1 <= |es| <= 4 && es[0] == reported
    && (forall e <- es[1..] :: e in {verified, rolledBack, escalated})
    && (verified in es <==> r.verified)
    && (rolledBack in es <==> r.rollbackAttempted)
    && (escalated in es <==> status == Failed || status == RollbackFailed)
    && forall i, j :: 0 <= i < j < |es| ==> es[i] != es[j]
  }

  lemma EventsTell(tenant: string, id: string, device: string, r: JobResult)
    ensures Tells(ReportEvents(tenant, id, device, r), tenant, id, device, r)
  {
    var es := ReportEvents(tenant, id, device, r);
    ReportedStatusExactly(r);
    assert r.verified ==> es[1].details.ExecutionVerified?;
    assert r.rollbackAttempted ==> es[if r.verified then 2 else 1].details.RollbackCompleted?;
    assert ReportedStatus(r) !in {Succeeded, RolledBack} ==> es[|es| - 1].details.EscalationRequired?;
  }

  /** An accepted report settles the action with its status, records the result, and tells its events. */
  lemma AcceptedReportExactly(
    s: State, tenant: string, device: string, id: string, key: string, token: Token, r: JobResult, now: int)
    requires RecordKey(tenant, ResultScope, key) !in s.records
    requires id in s.actions && s.actions[id].tenant == tenant && HoldsClaim(s.actions[id], device, token, now)
    ensures
      var (t, reply) := Report(s, tenant, device, id, key, token, r, now);
      var status := ReportedStatus(r);
      && reply == Ok(Accepted(id, status))
      && t.audit[..|s.audit|] == s.audit && Tells(t.audit[|s.audit|..], tenant, id, device, r)
      && t == s.(
        actions := s.actions[id := s.actions[id].(status := status)],
        results := s.results + [ResultRow(tenant, id, r)],
        audit := t.audit,
        records := s.records[RecordKey(tenant, ResultScope, key) :=
                               Record(ResultPayload(id, device, r), Accepted(id, status), now)])
  {
    EventsTell(tenant, id, device, r);
    var t := Report(s, tenant, device, id, key, token, r, now).0;
    assert t.audit[|s.audit|..] == ReportEvents(tenant, id, device, r);
  }

  /** Over every run of agent and control plane, whatever result is recorded for an attempt settles the action
      with that result's status; a recorded refusal leaves it failed. */
  lemma RecordSettles(u: Setup, worlds: seq<World>, steps: seq<Step>, i: nat, a: string, n: nat, r: JobResult)
    requires IsRun(u, worlds, steps) && i < |steps| && Records(u, worlds, i, a, n, r)
    ensures a in worlds[i + 1].server.actions && worlds[i + 1].server.actions[a].status == ReportedStatus(r)
    ensures (exists error :: r == Refusal(error)) ==> worlds[i + 1].server.actions[a].status == Failed
  {
    StepOf(u, worlds, steps, i);
    var s, now := worlds[i].server, worlds[i].now;
    var op := TablesStep(u, worlds[i], steps[i]);
    StepAnswers(u.config, s, op, now);
    var row := ResultRow(s.actions[a].tenant, a, r);
    assert (s.results + [row])[|s.results|] == row;
    assert |s.results + [row]| != |s.results|;
    SettledBy(u.config, s, op, now);
  }

  lemma SettledBy(c: Config, s: State, op: Op, now: int)
    requires op.OpReport? && Next(c, s, op, now).results != s.results
    ensures op.id in Next(c, s, op, now).actions
    ensures Next(c, s, op, now).actions[op.id].status == ReportedStatus(op.result)
  {
    ReportAnsweredExactly(s, op.tenant, op.device, op.id, op.key, op.token, op.result, now);
    AcceptedReportExactly(s, op.tenant, op.device, op.id, op.key, op.token, op.result, now);
  }
}

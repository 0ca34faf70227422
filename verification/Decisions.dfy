/** What a decision on a pending action does, and what an action's history therefore shows
    (helpdesktool/api.py, helpdesktool/orchestrator.py). */
module Decisions {
  import opened Text
  import opened Policy
  import opened Lifecycle
  import opened Server
  import opened ServerRuns
  import opened Submissions

  /** The tenant's own action, and nobody has decided it yet. */
  predicate Undecided(s: State, tenant: string, id: string) {
    id in s.actions && s.actions[id].tenant == tenant && s.actions[id].status == PendingApproval
  }

  /** A decision is refused exactly for another tenant's or an unknown action, one that is not pending, and an
      approval by the requester; a refusal changes nothing. */
  lemma DecideAnsweredExactly(s: State, tenant: string, actor: string, id: string, approve: bool, reason: string)
    ensures
      var (t, reply) := Decide(s, tenant, actor, id, approve, reason);
      var found := id in s.actions && s.actions[id].tenant == tenant;
      && (reply == Refused(404) <==> !found)
      && (reply == Refused(409) <==> found && s.actions[id].status != PendingApproval)
      && (reply == Refused(403) <==> Undecided(s, tenant, id) && approve && actor == s.actions[id].requestedBy)
      && (reply == Ok(Done) <==> Undecided(s, tenant, id) && !(approve && actor == s.actions[id].requestedBy))
      && (reply != Ok(Done) ==> t == s)
  {
  }

  /** Denying, by anybody, denies: the row's status, one event with actor and reason, the approval row, and
      nothing else. */
  lemma DenialDenies(s: State, tenant: string, actor: string, id: string, reason: string)
    requires Undecided(s, tenant, id)
    ensures
      Decide(s, tenant, actor, id, false, reason).0 == s.(
        actions := s.actions[id := s.actions[id].(status := Denied)],
        audit := s.audit + [Event(tenant, id, actor, ActionDenied(reason, PendingApproval, Denied))],
        approvals := s.approvals + [ApprovalRow(tenant, id, actor, false, reason)])
  {
  }

  /** Approving, by anybody but the requester, queues the action with its approver exactly when the skill may
      still run; otherwise the action is denied, and the event says why. */
  lemma ApprovalQueuesExactly(s: State, tenant: string, actor: string, id: string, reason: string)
    requires Undecided(s, tenant, id) && actor != s.actions[id].requestedBy
    ensures
      var t, row := Decide(s, tenant, actor, id, true, reason).0, s.actions[id];
      var engine := ActiveSkills(s);
      var runs := Runnable(engine, row.skillId, row.deviceOs);
      && t.actions[id] == (if runs then row.(status := Queued, approvedBy := Some(actor)) else row.(status := Denied))
      && t == s.(
        actions := s.actions[id := t.actions[id]],
        audit := s.audit + (if runs then [Event(tenant, id, actor, ActionApproved(PendingApproval, Approved)),
                                          Event(tenant, id, "system", ExecutionQueued(row.skillId, Approved, Queued))]
                            else [Event(tenant, id, actor,
                                        ApprovalInvalidated(Evaluate(engine, row.skillId, row.deviceOs).reason))]),
        approvals := s.approvals + [ApprovalRow(tenant, id, actor, true, reason)])
  {
    AllowedMeansRunnable(ActiveSkills(s), s.actions[id].skillId, s.actions[id].deviceOs);
    assert s.audit + [Event(tenant, id, actor, ActionApproved(PendingApproval, Approved))]
             + [Event(tenant, id, "system", ExecutionQueued(s.actions[id].skillId, Approved, Queued))]
        == s.audit + [Event(tenant, id, actor, ActionApproved(PendingApproval, Approved)),
                      Event(tenant, id, "system", ExecutionQueued(s.actions[id].skillId, Approved, Queued))];
  }

  // ---- Whatever was queued, and whatever was not

  /** An action has been queued exactly unless it is waiting for approval or was denied. */
  ghost predicate QueuedUnlessDenied(s: State, id: string) {
    if id !in s.actions then NoEventOf(s.audit, id)
    else
      && s.actions[id].status != Approved
      && (WasQueued(s.audit, id) <==> s.actions[id].status !in {PendingApproval, Denied})
  }

  lemma CreateQueues(c: Config, s: State, op: Op, now: int)
    requires op.OpCreate? && QueuedUnlessDenied(s, op.newId)
    ensures QueuedUnlessDenied(Next(c, s, op, now), op.newId)
  {
    var t := Next(c, s, op, now);
    CreateAnsweredExactly(c, s, op.tenant, op.actor, op.key, op.body, op.newId, now);
    if t != s {
      AcceptedCreation(c, s, op.tenant, op.actor, op.key, op.body, op.newId, now);
      var d := Evaluate(ActiveSkills(s), op.body.skillId, s.devices[op.body.device].os);
      var evaluated := EvaluatedEvent(op.tenant, op.newId, op.actor, d);
      var queued := Event(op.tenant, op.newId, "system", ExecutionQueued(op.body.skillId, Approved, Queued));
      assert !WasQueued(s.audit, op.newId);
      LogGrows(s.audit, evaluated, op.newId);
      LogGrows(s.audit + [evaluated], queued, op.newId);
      assert s.audit + [evaluated] + [] == s.audit + [evaluated];
    }
  }

  lemma ApprovalQueues(s: State, tenant: string, actor: string, id: string, reason: string)
    requires Undecided(s, tenant, id) && actor != s.actions[id].requestedBy && QueuedUnlessDenied(s, id)
    ensures QueuedUnlessDenied(Decide(s, tenant, actor, id, true, reason).0, id)
  {
    var row := s.actions[id];
    ApprovalQueuesExactly(s, tenant, actor, id, reason);
    var approved := Event(tenant, id, actor, ActionApproved(PendingApproval, Approved));
    var queued := Event(tenant, id, "system", ExecutionQueued(row.skillId, Approved, Queued));
    LogGrows(s.audit, approved, id);
    LogGrows(s.audit + [approved], queued, id);
    assert s.audit + [approved] + [queued] == s.audit + [approved, queued];
    var why := Evaluate(ActiveSkills(s), row.skillId, row.deviceOs).reason;
    LogGrows(s.audit, Event(tenant, id, actor, ApprovalInvalidated(why)), id);
  }

  lemma DecisionQueues(c: Config, s: State, op: Op, now: int)
    requires op.OpDecide? && QueuedUnlessDenied(s, op.id)
    ensures QueuedUnlessDenied(Next(c, s, op, now), op.id)
  {
    var t := Next(c, s, op, now);
    DecideAnsweredExactly(s, op.tenant, op.actor, op.id, op.approve, op.reason);
    if t != s {
      if op.approve {
        ApprovalQueues(s, op.tenant, op.actor, op.id, op.reason);
      } else {
        DenialDenies(s, op.tenant, op.actor, op.id, op.reason);
        LogGrows(s.audit, Event(op.tenant, op.id, op.actor, ActionDenied(op.reason, PendingApproval, Denied)), op.id);
      }
    }
  }

  lemma LaterQueues(c: Config, s: State, op: Op, now: int, id: string)
    requires !op.OpCreate? && !op.OpDecide? && Subject(op) == Some(id) && QueuedUnlessDenied(s, id)
    ensures QueuedUnlessDenied(Next(c, s, op, now), id)
  {
    StepTouches(c, s, op, now, id);
    LaterOpsSeparate(c, s, op, now, id);
    LaterOpsChangeQueued(c, s, op, now, id);
    LaterMoveQueues(c, s, Next(c, s, op, now), now, id);
  }

  /** A change of a queued or claimed row that logs no queueing. */
  lemma LaterMoveQueues(c: Config, s: State, t: State, now: int, id: string)
    requires QueuedUnlessDenied(s, id) && RowMoves(c, ServerRuns.Row(s, id), ServerRuns.Row(t, id), id, now)
    requires ServerRuns.Row(s, id) != ServerRuns.Row(t, id) ==>
      ServerRuns.Row(s, id).Some? && ServerRuns.Row(s, id).value.status in {Queued, Claimed}
    requires id !in s.actions ==> t.audit == s.audit
    requires WasQueued(t.audit, id) <==> WasQueued(s.audit, id)
    ensures QueuedUnlessDenied(t, id)
  {
  }

  lemma StepQueues(c: Config, s: State, op: Op, now: int, id: string)
    requires QueuedUnlessDenied(s, id)
    ensures QueuedUnlessDenied(Next(c, s, op, now), id)
  {
    if Subject(op) != Some(id) {
      OthersUntouched(c, s, op, now, id);
      OthersQueue(s, Next(c, s, op, now), id);
    } else if op.OpCreate? {
      CreateQueues(c, s, op, now);
    } else if op.OpDecide? {
      DecisionQueues(c, s, op, now);
    } else {
      LaterQueues(c, s, op, now, id);
    }
  }

  lemma OthersQueue(s: State, t: State, id: string)
    requires QueuedUnlessDenied(s, id) && ServerRuns.Row(s, id) == ServerRuns.Row(t, id)
    requires |s.audit| <= |t.audit| && t.audit == s.audit + t.audit[|s.audit|..] && NoEventOf(t.audit[|s.audit|..], id)
    ensures QueuedUnlessDenied(t, id)
  {
    LogGrowsBy(s.audit, t.audit[|s.audit|..], id);
    if id !in s.actions {
      forall i | 0 <= i < |t.audit| ensures t.audit[i].correlation != id {
        assert i >= |s.audit| ==> t.audit[i] == t.audit[|s.audit|..][i - |s.audit|];
      }
    }
  }

  /** Over every run an action has been queued for its endpoint exactly unless it waits for approval or was
      denied. */
  lemma {:induction false} QueuedExactlyUnlessDenied(c: Config, s: State, ops: seq<Timed>, id: string)
    requires Initial(s)
    ensures QueuedUnlessDenied(Run(c, s, ops), id)
  {
    if ops != [] {
      var n := |ops| - 1;
      QueuedExactlyUnlessDenied(c, s, ops[..n], id);
      StepQueues(c, Run(c, s, ops[..n]), ops[n].op, ops[n].now, id);
    }
  }

  /** Over every run, once somebody denied a pending action it stays denied, and it was never queued, then or
      later. */
  lemma DeniedNeverQueued(c: Config, s: State, ops: seq<Timed>, k: nat)
    requires Initial(s) && k < |ops| && ops[k].op.OpDecide? && !ops[k].op.approve
    requires Undecided(Run(c, s, ops[..k]), ops[k].op.tenant, ops[k].op.id)
    ensures
      var t, id := Run(c, s, ops), ops[k].op.id;
      && id in t.actions && t.actions[id].status == Denied && !WasQueued(t.audit, id)
      && ApprovalRow(ops[k].op.tenant, id, ops[k].op.actor, false, ops[k].op.reason)
         in Run(c, s, ops[..k + 1]).approvals
  {
    var before, op := Run(c, s, ops[..k]), ops[k].op;
    RunStep(c, s, ops, k);
    DenialDenies(before, op.tenant, op.actor, op.id, op.reason);
    TerminalForever(c, Run(c, s, ops[..k + 1]), ops[k + 1..], op.id);
    RunSplits(c, s, ops[..k + 1], ops[k + 1..]);
    assert ops[..k + 1] + ops[k + 1..] == ops;
    QueuedExactlyUnlessDenied(c, s, ops, op.id);
  }

  // ---- Approvers

  /** An approval of the action by this actor, who did not ask for it, while it was pending. */
  predicate Approves(s: State, op: Op, id: string, actor: string) {
    && op.OpDecide? && op.id == id && op.approve && op.actor == actor
    && Undecided(s, op.tenant, id) && actor != s.actions[id].requestedBy
  }

  lemma StepApprover(c: Config, s: State, op: Op, now: int, id: string, actor: string)
    requires id in Next(c, s, op, now).actions && Next(c, s, op, now).actions[id].approvedBy == Some(actor)
    ensures (id in s.actions && s.actions[id].approvedBy == Some(actor)) || Approves(s, op, id, actor)
  {
    if id !in s.actions {
      StepOrigin(c, s, op, now, id);
    } else if Subject(op) == Some(id) && op.OpDecide? {
      DecisionApprover(c, s, op, now, actor);
    } else {
      OthersApproveNobody(c, s, op, now, id);
    }
  }

  lemma OthersApproveNobody(c: Config, s: State, op: Op, now: int, id: string)
    requires id in s.actions && (Subject(op) == Some(id) ==> !op.OpDecide?)
    ensures id in Next(c, s, op, now).actions && Next(c, s, op, now).actions[id].approvedBy == s.actions[id].approvedBy
  {
    StepTouches(c, s, op, now, id);
    if Subject(op) == Some(id) && op.OpCreate? {
      CreateAnsweredExactly(c, s, op.tenant, op.actor, op.key, op.body, op.newId, now);
    } else if Subject(op) == Some(id) {
      LaterOpsChangeQueued(c, s, op, now, id);
    }
  }

  lemma DecisionApprover(c: Config, s: State, op: Op, now: int, actor: string)
    requires op.OpDecide? && op.id in s.actions && op.id in Next(c, s, op, now).actions
    requires Next(c, s, op, now).actions[op.id].approvedBy == Some(actor)
    ensures s.actions[op.id].approvedBy == Some(actor) || Approves(s, op, op.id, actor)
  {
    DecideAnsweredExactly(s, op.tenant, op.actor, op.id, op.approve, op.reason);
    if Next(c, s, op, now) != s {
      if op.approve {
        ApprovalQueuesExactly(s, op.tenant, op.actor, op.id, op.reason);
      } else {
        DenialDenies(s, op.tenant, op.actor, op.id, op.reason);
      }
    }
  }

  /** Over every run, whoever an action's row names as its approver did approve it. */
  lemma {:induction false} ApproverApproved(c: Config, s: State, ops: seq<Timed>, n: nat, id: string, actor: string)
      returns (k: nat)
    requires Initial(s) && n <= |ops| && id in Run(c, s, ops[..n]).actions
    requires Run(c, s, ops[..n]).actions[id].approvedBy == Some(actor)
    ensures k < n && Approves(Run(c, s, ops[..k]), ops[k].op, id, actor)
  {
    assert ops[..0] == [];
    RunStep(c, s, ops, n - 1);
    StepApprover(c, Run(c, s, ops[..n - 1]), ops[n - 1].op, ops[n - 1].now, id, actor);
    if Approves(Run(c, s, ops[..n - 1]), ops[n - 1].op, id, actor) {
      k := n - 1;
    } else {
      k := ApproverApproved(c, s, ops, n - 1, id, actor);
    }
  }

  // ---- Sensitive skills

  /** The registered definition asks for an approval, told from its own fields. */
  predicate Sensitive(skill: SkillDefinition) {
    skill.risk == Medium || skill.risk == High || skill.requiresUserApproval || skill.requiresAdminApproval
    || skill.securitySensitive
  }

  /** Decided by another actor, or not queued. */
  predicate Guarded(row: ActionRow) {
    ApprovedByAnother(row) || row.status in {PendingApproval, Denied}
  }

  lemma StepGuarded(c: Config, s: State, op: Op, now: int, id: string)
    requires id in s.actions && Guarded(s.actions[id])
    ensures id in Next(c, s, op, now).actions && Guarded(Next(c, s, op, now).actions[id])
  {
    StepTouches(c, s, op, now, id);
  }

  lemma {:induction false} GuardedStays(c: Config, s: State, ops: seq<Timed>, m: nat, n: nat, id: string)
    requires m <= n <= |ops|
    requires id in Run(c, s, ops[..m]).actions && Guarded(Run(c, s, ops[..m]).actions[id])
    ensures id in Run(c, s, ops[..n]).actions && Guarded(Run(c, s, ops[..n]).actions[id])
  {
    if m < n {
      GuardedStays(c, s, ops, m, n - 1, id);
      RunStep(c, s, ops, n - 1);
      StepGuarded(c, Run(c, s, ops[..n - 1]), ops[n - 1].op, ops[n - 1].now, id);
    }
  }

  /** Over every run with a changing registry: an action ever queued, whose skill as registered when it was
      submitted was of medium or high risk or flagged, was approved by someone other than its requester. */
  lemma SensitiveNeedsAnother(c: Config, s: State, ops: seq<Timed>, id: string) returns (k: nat)
    requires Initial(s) && id in Run(c, s, ops).actions
    ensures k < |ops| && Submits(c, Run(c, s, ops[..k]), ops[k].op, ops[k].now, id, Run(c, s, ops).actions[id])
    ensures
      var row, registered := Run(c, s, ops).actions[id], Run(c, s, ops[..k]).skills;
      row.skillId in registered && Sensitive(registered[row.skillId].definition) && WasQueued(Run(c, s, ops).audit, id)
      ==> ApprovedByAnother(row)
  {
    assert ops[..|ops|] == ops;
    k := RowOrigin(c, s, ops, |ops|, id);
    var before := Run(c, s, ops[..k]);
    RunStep(c, s, ops, k);
    StepOrigin(c, before, ops[k].op, ops[k].now, id);
    var first := Run(c, s, ops[..k + 1]).actions[id];
    EvaluateExactly(ActiveSkills(before), first.skillId, first.deviceOs);
    NamesStay(c, s, ops, k + 1, |ops|, id);
    if first.skillId in before.skills && Sensitive(before.skills[first.skillId].definition) {
      GuardedStays(c, s, ops, k + 1, |ops|, id);
      QueuedExactlyUnlessDenied(c, s, ops, id);
    }
  }
}

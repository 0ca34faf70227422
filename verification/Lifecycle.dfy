/** The status of an action and the audit events that record its changes. */
module Lifecycle {
  import opened Text
  import opened Policy

  datatype Status =
    | PendingApproval | Approved | Queued | Claimed
    | Succeeded | Failed | RolledBack | RollbackFailed | Denied

  predicate Terminal(s: Status) {
    s in {Succeeded, Failed, RolledBack, RollbackFailed, Denied}
  }

  /** Event type and details of one audit entry; `previous` and `next` are the recorded statuses. */
  datatype Details =
    | PolicyEvaluated(allowed: bool, approvalRequired: bool, reason: Reason, risk: Risk, level: AutomationLevel)
    | ApprovalInvalidated(why: Reason)
    | ActionApproved(previous: Status, next: Status)
    | ActionDenied(note: string, previous: Status, next: Status)
    | ExecutionQueued(skillId: string, previous: Status, next: Status)
    | ExecutionClaimed(jobId: string, attempt: nat, lease: int, previous: Status, next: Status)
    | ExecutionReported(status: Status, success: bool, verified: bool, rollbackAttempted: bool,
                        rollbackSucceeded: Option<bool>, previous: Status, next: Status)
    | ExecutionVerified(success: bool)
    | RollbackCompleted(rollback: Option<bool>)
    | LeaseRequeued(attempt: nat, previous: Status, next: Status)
    | RetriesExhausted(status: Status, attempt: nat, previous: Status)
    | EscalationRequired(status: Status, error: Option<string>)

  datatype Event = Event(tenant: string, correlation: string, actor: string, details: Details)

  /** What an action's events say about it: not yet seen, or a status and the number of the last claim. */
  datatype Life = Unborn | Life(status: Status, attempt: nat)

  /** One event applied to a life. None when the event does not fit: its recorded previous status is not
      the current one, or it announces a change that cannot follow. */
  function Follow(life: Life, d: Details): Option<Life> {
    match d
    case PolicyEvaluated(allowed, approvalRequired, _, _, _) =>
      if life.Unborn? then
        Some(Life(if approvalRequired then PendingApproval else if allowed then Approved else Denied, 0))
      else None
    case ApprovalInvalidated(_) => Move(life, PendingApproval, Denied)
    case ActionApproved(p, n) => if p == PendingApproval && n == Approved then Move(life, p, n) else None
    case ActionDenied(_, p, n) => if p == PendingApproval && n == Denied then Move(life, p, n) else None
    case ExecutionQueued(_, p, n) => if p == Approved && n == Queued then Move(life, p, n) else None
    case ExecutionClaimed(_, attempt, _, p, n) =>
      if attempt > 0 && life == Life(Queued, attempt - 1) && p == Queued && n == Claimed
          then Some(Life(Claimed, attempt)) else None
    case ExecutionReported(s, _, _, _, _, p, n) =>
      if s == n && p == Claimed && Terminal(n) && n != Denied then Move(life, p, n) else None
    case LeaseRequeued(attempt, p, n) =>
      if life == Life(Claimed, attempt) && p == Claimed && n == Queued then Some(Life(Queued, attempt)) else None
    case RetriesExhausted(s, attempt, p) =>
      if life == Life(Claimed, attempt) && p == Claimed && s == Failed then Some(Life(Failed, attempt)) else None
    case EscalationRequired(s, _) => if life.Life? && life.status == s && Terminal(s) then Some(life) else None
    case ExecutionVerified(_) => if life.Life? && Terminal(life.status) then Some(life) else None
    case RollbackCompleted(_) => if life.Life? && Terminal(life.status) then Some(life) else None
  }

  function Move(life: Life, previous: Status, next: Status): Option<Life> {
    if life.Life? && life.status == previous then Some(life.(status := next)) else None
  }

  /** The fold of the events about one action; None as soon as one does not fit. */
  function Replay(log: seq<Event>, id: string): Option<Life> {
    if log == [] then Some(Unborn)
    else
      var last := log[|log| - 1];
      match Replay(log[..|log| - 1], id)
      case None => None
      case Some(life) => if last.correlation == id then Follow(life, last.details) else Some(life)
  }

  lemma ReplaySnoc(log: seq<Event>, e: Event, id: string)
    ensures Replay(log + [e], id) ==
      match Replay(log, id)
      case None => None
      case Some(life) => if e.correlation == id then Follow(life, e.details) else Some(life)
  {
    assert (log + [e])[..|log|] == log;
  }

  /** Events that end a claim attempt. */
  predicate IsOutcome(d: Details) {
    d.ExecutionReported? || d.LeaseRequeued? || d.RetriesExhausted?
  }

  /** Where an action stands just before position i of the log. */
  function Before(log: seq<Event>, id: string, i: nat): Option<Life>
    requires i <= |log|
  {
    Replay(log[..i], id)
  }

  function AttemptOf(life: Option<Life>): nat {
    if life.Some? && life.value.Life? then life.value.attempt else 0
  }

  lemma {:induction false} ReplayPrefix(log: seq<Event>, id: string, i: nat)
    requires i <= |log| && Replay(log, id).Some?
    ensures Before(log, id, i).Some?
  {
    if i < |log| {
      ReplayPrefix(log[..|log| - 1], id, i);
      assert log[..|log| - 1][..i] == log[..i];
    } else {
      assert log[..i] == log;
    }
  }

  lemma BeforeNext(log: seq<Event>, id: string, j: nat)
    requires j < |log|
    ensures Before(log, id, j + 1) ==
      match Before(log, id, j)
      case None => None
      case Some(life) => if log[j].correlation == id then Follow(life, log[j].details) else Some(life)
  {
    assert log[..j + 1] == log[..j] + [log[j]];
    ReplaySnoc(log[..j], log[j], id);
  }

  predicate IsClaimed(life: Life) {
    life.Life? && life.status == Claimed
  }

  /** Claiming raises the attempt number, nothing lowers it. */
  lemma FollowAdvances(life: Life, d: Details)
    requires Follow(life, d).Some?
    ensures AttemptOf(Some(life)) <= AttemptOf(Follow(life, d))
    ensures !IsClaimed(life) && IsClaimed(Follow(life, d).value) ==> AttemptOf(Some(life)) < AttemptOf(Follow(life, d))
  {
  }

  /** A consistent log never lowers the attempt number, and leaves a state outside `claimed` only for a
      claim with a higher number. */
  lemma {:induction false} AttemptsAdvance(log: seq<Event>, id: string, i: nat, j: nat)
    requires i <= j <= |log| && Replay(log, id).Some?
    ensures Before(log, id, i).Some? && Before(log, id, j).Some?
    ensures AttemptOf(Before(log, id, i)) <= AttemptOf(Before(log, id, j))
    ensures !IsClaimed(Before(log, id, i).value) && IsClaimed(Before(log, id, j).value)
            ==> AttemptOf(Before(log, id, i)) < AttemptOf(Before(log, id, j))
  {
    ReplayPrefix(log, id, i);
    ReplayPrefix(log, id, j);
    if i < j {
      AttemptsAdvance(log, id, i, j - 1);
      BeforeNext(log, id, j - 1);
      if log[j - 1].correlation == id {
        FollowAdvances(Before(log, id, j - 1).value, log[j - 1].details);
      }
    }
  }

  lemma FollowOutcome(life: Life, d: Details)
    requires IsOutcome(d) && Follow(life, d).Some?
    ensures life.Life? && life.status == Claimed
    ensures Follow(life, d).value.Life? && Follow(life, d).value.status != Claimed
    ensures Follow(life, d).value.attempt == life.attempt
  {
  }

  lemma OutcomeEndsClaim(log: seq<Event>, id: string, i: nat)
    requires i < |log| && Replay(log, id).Some?
    requires log[i].correlation == id && IsOutcome(log[i].details)
    ensures Before(log, id, i).Some? && Before(log, id, i).value.Life? && Before(log, id, i).value.status == Claimed
    ensures Before(log, id, i + 1).Some? && Before(log, id, i + 1).value.Life?
        && Before(log, id, i + 1).value.status != Claimed
    ensures AttemptOf(Before(log, id, i)) == AttemptOf(Before(log, id, i + 1))
  {
    ReplayPrefix(log, id, i);
    ReplayPrefix(log, id, i + 1);
    assert log[..i + 1] == log[..i] + [log[i]];
    ReplaySnoc(log[..i], log[i], id);
    FollowOutcome(Before(log, id, i).value, log[i].details);
  }

  /** In a consistent log every claim attempt of an action has at most one outcome: two outcome events
      always end attempts with different numbers. */
  lemma OneOutcomePerAttempt(log: seq<Event>, id: string, i: nat, j: nat)
    requires i < j < |log| && Replay(log, id).Some?
    requires log[i].correlation == id && IsOutcome(log[i].details)
    requires log[j].correlation == id && IsOutcome(log[j].details)
    ensures AttemptOf(Before(log, id, i)) < AttemptOf(Before(log, id, j))
  {
    OutcomeEndsClaim(log, id, i);
    OutcomeEndsClaim(log, id, j);
    AttemptsAdvance(log, id, i + 1, j);
  }
}

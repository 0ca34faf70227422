/** Immediate execution of an approved action and its rollback (helpdesktool/orchestrator.py). */
module Immediate {
  import opened Text
  import opened Policy

  datatype Status = Approved | Running | Succeeded | Failed | RolledBack | RollbackFailed

  datatype Happening = ExecutionStarted | ExecutionVerified | ExecutionFailed | RollbackCompleted(success: bool)

  /** What the executor answers: the execution, its verification, and a rollback should there be one. */
  datatype Answers = Answers(success: bool, verified: bool, rollback: bool)

  predicate RollsBack(skill: SkillDefinition) {
    skill.reversible && skill.rollbackSkillId.Some?
  }

  function Happened(skill: SkillDefinition, x: Answers): seq<Happening> {
    if x.success && x.verified then [ExecutionStarted, ExecutionVerified]
    else [ExecutionStarted, ExecutionFailed] + (if RollsBack(skill) then [RollbackCompleted(x.rollback)] else [])
  }

  /** The status, told from the recorded events alone. */
  function StatusAfter(events: seq<Happening>): Status {
    if events == [] then Approved
    else
      match events[|events| - 1]
      case ExecutionStarted => Running
      case ExecutionVerified => Succeeded
      case ExecutionFailed => Failed
      case RollbackCompleted(success) => if success then RolledBack else RollbackFailed
  }

  /** A recorded level L2 keeps its promise: a failed run always attempts the rollback and ends in its result.
      At L1, which promises none, a failed run attempts one for exactly the reversible skills whose rollback
      id is declared but empty, where the orchestrator's test and the policy's differ. */
  lemma RollbackAgreesWithLevel(skill: SkillDefinition, x: Answers, approvalRequired: bool)
    requires !(x.success && x.verified)
    ensures
      var level, events := AutomationLevelFor(skill, approvalRequired), Happened(skill, x);
      && (level == L2AutomaticVerifyRollback
          ==> RollbackCompleted(x.rollback) in events
              && StatusAfter(events) == if x.rollback then RolledBack else RollbackFailed)
      && (level == L1SafeAutomatic
          ==> (StatusAfter(events) != Failed <==> skill.reversible && skill.rollbackSkillId == Some("")))
  {
    var events := Happened(skill, x);
    assert RollsBack(skill) ==> events[2] == RollbackCompleted(x.rollback);
  }

  /** How an immediate run ends, told from the skill's fields and the answers. */
  lemma EndsExactly(skill: SkillDefinition, x: Answers)
    ensures
      var status := StatusAfter(Happened(skill, x));
      var tries := skill.reversible && skill.rollbackSkillId != None;
      && (status == Succeeded <==> x.success && x.verified)
      && (status == RolledBack <==> !(x.success && x.verified) && tries && x.rollback)
      && (status == RollbackFailed <==> !(x.success && x.verified) && tries && !x.rollback)
      && (status == Failed <==> !(x.success && x.verified) && !tries)
  {
  }

  class Orchestrator {
    var status: Status
    var events: seq<Happening>

    constructor ()
      ensures status == Approved && events == []
    {
      status, events := Approved, [];
    }

    method Run(skill: SkillDefinition, x: Answers)
      modifies this
      ensures events == old(events) + Happened(skill, x)
      ensures status == StatusAfter(Happened(skill, x))
    {
      status := Running;
      events := events + [ExecutionStarted];
      if x.success && x.verified {
        status := Succeeded;
        events := events + [ExecutionVerified];
        return;
      }
      status := Failed;
      events := events + [ExecutionFailed];
      if skill.reversible && skill.rollbackSkillId.Some? {
        status := if x.rollback then RolledBack else RollbackFailed;
        events := events + [RollbackCompleted(x.rollback)];
      }
    }
  }
}

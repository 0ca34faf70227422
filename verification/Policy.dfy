/** Default-deny policy evaluation of registered skills (helpdesktool/policy.py, helpdesktool/models.py). */
module Policy {
  import opened Text

  datatype Risk = ReadOnly | Low | Medium | High | Prohibited

  datatype CommandType = ReadOnlyCommand | LowRiskChange | PrivilegedChange | SecurityContainment | Destructive

  datatype AutomationLevel =
    | L0ObserveOnly | L1SafeAutomatic | L2AutomaticVerifyRollback
    | L3UserApproval | L4AdminApproval | L5SecurityIncident

  datatype SkillDefinition = SkillDefinition(
    skillId: string, risk: Risk, supportedOs: set<string>, timeoutSeconds: int,
    rollbackSkillId: Option<string>, commandType: CommandType,
    requiresUserApproval: bool, requiresAdminApproval: bool, securitySensitive: bool, reversible: bool)

  datatype Reason = NotAllowlisted | ProhibitedByPolicy | NeverAutonomous | UnsupportedOs | AllowedBySkillPolicy

  datatype Decision = Decision(
    allowed: bool, approvalRequired: bool, reason: Reason, skill: Option<SkillDefinition>, level: AutomationLevel)

  function LowerChar(c: char): char {
    if 'A' <= c <= 'Z' then (c as int + 32) as char else c
  }

  function Lower(s: string): string {
    seq(|s|, i requires 0 <= i < |s| => LowerChar(s[i]))
  }

  predicate SupportsOs(skill: SkillDefinition, os: string) {
    Lower(os) in set item <- skill.supportedOs :: Lower(item)
  }

  function AutomationLevelFor(skill: SkillDefinition, approvalRequired: bool): AutomationLevel {
    if skill.risk == ReadOnly && skill.commandType == ReadOnlyCommand then L0ObserveOnly
    else if skill.securitySensitive || skill.commandType == SecurityContainment then L5SecurityIncident
    else if skill.requiresAdminApproval then L4AdminApproval
    else if approvalRequired || skill.requiresUserApproval then L3UserApproval
    else if skill.reversible && DeclaresRollback(skill) then L2AutomaticVerifyRollback
    else L1SafeAutomatic
  }

  /** Python truthiness: an empty rollback id counts as none declared. */
  predicate DeclaresRollback(skill: SkillDefinition) {
    skill.rollbackSkillId.Some? && skill.rollbackSkillId.value != ""
  }

  predicate NeedsApproval(skill: SkillDefinition) {
    || skill.risk in {Medium, High}
    || skill.requiresUserApproval
    || skill.requiresAdminApproval
    || skill.securitySensitive
  }

  /** The engine's dictionary, or None for the duplicate-id error of the constructor. */
  function Engine(skills: seq<SkillDefinition>): Option<map<string, SkillDefinition>> {
    var byId := ById(skills);
    if |byId| != |skills| then None else Some(byId)
  }

  function ById(skills: seq<SkillDefinition>): map<string, SkillDefinition> {
    if skills == [] then map[]
    else
      var last := skills[|skills| - 1];
      ById(skills[..|skills| - 1])[last.skillId := last]
  }

  function Evaluate(engine: map<string, SkillDefinition>, skillId: string, os: string): Decision {
    if skillId !in engine then Decision(false, false, NotAllowlisted, None, L0ObserveOnly)
    else
      var skill := engine[skillId];
      if skill.risk == Prohibited then
        Decision(false, false, ProhibitedByPolicy, Some(skill), L0ObserveOnly)
      else if skill.commandType == Destructive then
        Decision(false, false, NeverAutonomous, Some(skill), L0ObserveOnly)
      else if !SupportsOs(skill, os) then
        Decision(false, false, UnsupportedOs, Some(skill), L0ObserveOnly)
      else
        Decision(true, NeedsApproval(skill), AllowedBySkillPolicy, Some(skill),
                 AutomationLevelFor(skill, NeedsApproval(skill)))
  }

  /** What must hold of a skill before an action naming it may be queued for an endpoint. */
  predicate Runnable(engine: map<string, SkillDefinition>, skillId: string, os: string) {
    && skillId in engine
    && engine[skillId].risk != Prohibited
    && engine[skillId].commandType != Destructive
    && SupportsOs(engine[skillId], os)
  }

  lemma AllowedMeansRunnable(engine: map<string, SkillDefinition>, skillId: string, os: string)
    ensures Evaluate(engine, skillId, os).allowed <==> Runnable(engine, skillId, os)
    ensures Evaluate(engine, skillId, os).approvalRequired
       <==> Runnable(engine, skillId, os) && NeedsApproval(engine[skillId])
  {
  }

  /** The same letter, or the two cases of one ASCII letter. */
  predicate SameLetter(a: char, b: char) {
    || a == b
    || ('A' <= a <= 'Z' && b as int == a as int + 32)
    || ('A' <= b <= 'Z' && a as int == b as int + 32)
  }

  predicate SameIgnoringCase(a: string, b: string) {
    |a| == |b| && forall i :: 0 <= i < |a| ==> SameLetter(a[i], b[i])
  }

  lemma LowerExactly(a: string, b: string)
    ensures Lower(a) == Lower(b) <==> SameIgnoringCase(a, b)
  {
    if Lower(a) == Lower(b) {
      assert |a| == |Lower(a)| == |Lower(b)| == |b|;
      forall i | 0 <= i < |a| ensures SameLetter(a[i], b[i]) {
        assert Lower(a)[i] == Lower(b)[i];
      }
    }
  }

  /** The skill lists the operating system, in whatever capitals. */
  ghost predicate ListsOs(skill: SkillDefinition, os: string) {
    exists item <- skill.supportedOs :: SameIgnoringCase(item, os)
  }

  lemma SupportsExactly(skill: SkillDefinition, os: string)
    ensures SupportsOs(skill, os) <==> ListsOs(skill, os)
  {
    forall item | item in skill.supportedOs ensures Lower(item) == Lower(os) <==> SameIgnoringCase(item, os) {
      LowerExactly(item, os);
    }
  }

  /** The decision, told from the registered definition's own fields: each reason exactly when it applies, what
      is allowed, and which allowed skills need approval. */
  lemma EvaluateExactly(engine: map<string, SkillDefinition>, skillId: string, os: string)
    ensures
      var d := Evaluate(engine, skillId, os);
      if skillId !in engine then d == Decision(false, false, NotAllowlisted, None, L0ObserveOnly)
      else
        var skill := engine[skillId];
        && d.skill == Some(skill)
        && (d.reason == ProhibitedByPolicy <==> skill.risk == Prohibited)
        && (d.reason == NeverAutonomous <==> skill.risk != Prohibited && skill.commandType == Destructive)
        && (d.reason == UnsupportedOs <==>
              skill.risk != Prohibited && skill.commandType != Destructive && !ListsOs(skill, os))
        && (d.allowed <==> skill.risk != Prohibited && skill.commandType != Destructive && ListsOs(skill, os))
        && (d.allowed <==> d.reason == AllowedBySkillPolicy)
        && (d.approvalRequired <==>
              d.allowed && (skill.risk == Medium || skill.risk == High || skill.requiresUserApproval
                            || skill.requiresAdminApproval || skill.securitySensitive))
        && (!d.allowed ==> d.level == L0ObserveOnly)
  {
    if skillId in engine {
      SupportsExactly(engine[skillId], os);
    }
  }

  /** The automation level of an allowed skill: which of its fields each level stands for. */
  lemma LevelExactly(engine: map<string, SkillDefinition>, skillId: string, os: string)
    requires Evaluate(engine, skillId, os).allowed
    ensures
      var d, skill := Evaluate(engine, skillId, os), engine[skillId];
      var observes := skill.risk == ReadOnly && skill.commandType == ReadOnlyCommand;
      var incident := skill.securitySensitive || skill.commandType == SecurityContainment;
      && (d.level == L0ObserveOnly <==> observes)
      && (d.level == L5SecurityIncident <==> !observes && incident)
      && (d.level == L4AdminApproval <==> !observes && !incident && skill.requiresAdminApproval)
      && (d.level == L3UserApproval <==>
            !observes && !incident && !skill.requiresAdminApproval
            && (skill.requiresUserApproval || skill.risk == Medium || skill.risk == High))
      && (d.level == L2AutomaticVerifyRollback <==>
            !observes && !d.approvalRequired && skill.commandType != SecurityContainment
            && skill.reversible && skill.rollbackSkillId.Some? && skill.rollbackSkillId.value != "")
  {
  }

  ghost predicate DistinctIds(skills: seq<SkillDefinition>) {
    forall i, j :: 0 <= i < j < |skills| ==> skills[i].skillId != skills[j].skillId
  }

  function Ids(skills: seq<SkillDefinition>): set<string> {
    set i | 0 <= i < |skills| :: skills[i].skillId
  }

  lemma IdsSnoc(skills: seq<SkillDefinition>)
    requires skills != []
    ensures Ids(skills) == Ids(skills[..|skills| - 1]) + {skills[|skills| - 1].skillId}
    ensures DistinctIds(skills) <==>
            DistinctIds(skills[..|skills| - 1]) && skills[|skills| - 1].skillId !in Ids(skills[..|skills| - 1])
  {
    var n := |skills| - 1;
    var before := skills[..n];
    assert forall i :: 0 <= i < n ==> before[i] == skills[i];
    forall id | id in Ids(skills) ensures id in Ids(before) + {skills[n].skillId} {
      var i :| 0 <= i < |skills| && skills[i].skillId == id;
      assert i < n ==> before[i].skillId == id;
    }
  }

  /** The constructor's length comparison detects exactly the lists that repeat an id, and an accepted
      list is found again entry by entry. */
  lemma {:induction false} EngineRejectsExactlyDuplicates(skills: seq<SkillDefinition>)
    ensures Engine(skills).Some? <==> DistinctIds(skills)
    ensures Engine(skills).Some? ==> Engine(skills).value.Keys == Ids(skills)
    ensures Engine(skills).Some? ==> forall i :: 0 <= i < |skills| ==>
      skills[i].skillId in Engine(skills).value && Engine(skills).value[skills[i].skillId] == skills[i]
  {
    ByIdSize(skills);
    if DistinctIds(skills) {
      ByIdFinds(skills);
    }
  }

  lemma {:induction false} ByIdSize(skills: seq<SkillDefinition>)
    ensures ById(skills).Keys == Ids(skills)
    ensures |ById(skills)| <= |skills|
    ensures |ById(skills)| == |skills| <==> DistinctIds(skills)
  {
    if skills != [] {
      var n := |skills| - 1;
      ByIdSize(skills[..n]);
      IdsSnoc(skills);
      assert ById(skills).Keys == ById(skills[..n]).Keys + {skills[n].skillId};
      assert |ById(skills)| == |ById(skills).Keys|;
    }
  }

  lemma {:induction false} ByIdFinds(skills: seq<SkillDefinition>)
    requires DistinctIds(skills)
    ensures forall i :: 0 <= i < |skills| ==>
        skills[i].skillId in ById(skills) && ById(skills)[skills[i].skillId] == skills[i]
  {
    if skills != [] {
      var before := skills[..|skills| - 1];
      ByIdFinds(before);
      forall i | 0 <= i < |before|
        ensures skills[i].skillId in ById(skills) && ById(skills)[skills[i].skillId] == skills[i]
      {
        assert before[i] == skills[i];
      }
    }
  }

  /** Among allowed skills, the unattended change levels never hide an approval; level 0 does for exactly
      the read-only skills that were nevertheless flagged for approval. */
  lemma LevelAgreesWithApproval(engine: map<string, SkillDefinition>, skillId: string, os: string)
    requires Evaluate(engine, skillId, os).allowed
    ensures
      var d := Evaluate(engine, skillId, os);
      var skill := engine[skillId];
      && (d.level in {L1SafeAutomatic, L2AutomaticVerifyRollback} ==> !d.approvalRequired)
      && (d.level in {L3UserApproval, L4AdminApproval} ==> d.approvalRequired)
      && ((d.level == L0ObserveOnly && d.approvalRequired)
          <==> (skill.risk == ReadOnly && skill.commandType == ReadOnlyCommand
                && (skill.requiresUserApproval || skill.requiresAdminApproval || skill.securitySensitive)))
      && ((d.level == L5SecurityIncident && !d.approvalRequired)
          <==> (skill.commandType == SecurityContainment && !NeedsApproval(skill)))
  {
  }
}

/** The standing of a skill between queueing and claim: policy is asked when an action is first queued, but a
    claim only asks whether the skill is registered (helpdesktool/orchestrator.py, helpdesktool/api.py). */
module Standing {
  import opened Text
  import opened Policy
  import opened Skills
  import opened Lifecycle
  import opened Server
  import opened ServerRuns
  import opened Submissions

  predicate Registers(t: Timed, skillId: string) {
    t.op.OpRegister? && t.op.manifest.definition.skillId == skillId
  }

  /** Step k registers the skill, and it is the last to do so before step n. */
  ghost predicate RegistersLast(ops: seq<Timed>, k: nat, n: nat, skillId: string)
    requires k < n <= |ops|
  {
    Registers(ops[k], skillId) && forall j :: k < j < n ==> !Registers(ops[j], skillId)
  }

  /** The definition itself forbids running on this operating system. */
  predicate Unfit(definition: SkillDefinition, os: string) {
    definition.risk == Prohibited || definition.commandType == Destructive || !SupportsOs(definition, os)
  }

  /** The last registration of the skill from step m on, before step n, is one that may not run. */
  ghost predicate Spoiled(ops: seq<Timed>, m: nat, n: nat, skillId: string, os: string)
    requires m <= n <= |ops|
  {
    exists k {:trigger RegistersLast(ops, k, n, skillId)} ::
      m <= k < n && RegistersLast(ops, k, n, skillId) && Unfit(ops[k].op.manifest.definition, os)
  }

  ghost predicate RegisteredSince(ops: seq<Timed>, m: nat, n: nat, skillId: string)
    requires m <= n <= |ops|
  {
    exists k :: m <= k < n && Registers(ops[k], skillId)
  }

  /** Only a registration changes the registered skills. */
  lemma SkillsStep(c: Config, s: State, op: Op, now: int)
    ensures Next(c, s, op, now).skills == AfterStep(s.skills, op)
  {
    match op
    case OpClaim(tenant, device, id, key, nonce) => ClaimSkills(c, s, tenant, device, id, key, nonce, now);
    case OpCreate(tenant, actor, key, body, newId) => CreateSkills(c, s, tenant, actor, key, body, newId, now);
    case OpReport(tenant, device, id, key, token, r) => ReportSkills(s, tenant, device, id, key, token, r, now);
    case OpDecide(tenant, actor, id, approve, reason) => DecideSkills(s, tenant, actor, id, approve, reason);
    case _ =>
  }

  lemma DecideSkills(s: State, tenant: string, actor: string, id: string, approve: bool, reason: string)
    ensures Decide(s, tenant, actor, id, approve, reason).0.skills == s.skills
  {
  }

  lemma ReportSkills(
    s: State, tenant: string, device: string, id: string, key: string, token: Token, r: JobResult, now: int)
    ensures Report(s, tenant, device, id, key, token, r, now).0.skills == s.skills
  {
  }

  lemma ClaimSkills(
    c: Config, s: State, tenant: string, device: string, id: string, key: string, nonce: string, now: int)
    ensures Claim(c, s, tenant, device, id, key, nonce, now).0.skills == s.skills
  {
  }

  lemma CreateSkills(
    c: Config, s: State, tenant: string, actor: string, key: string, body: ActionBody, newId: string, now: int)
    ensures Create(c, s, tenant, actor, key, body, newId, now).0.skills == s.skills
  {
  }

  function AfterStep(skills: map<string, Manifest>, op: Op): map<string, Manifest> {
    if op.OpRegister? then skills[op.manifest.definition.skillId := op.manifest] else skills
  }

  /** The registered skills after each step. */
  ghost predicate SkillHistory(skills: seq<map<string, Manifest>>, ops: seq<Timed>) {
    && |skills| == |ops| + 1
    && forall i {:trigger ops[i]} :: 0 <= i < |ops| ==> skills[i + 1] == AfterStep(skills[i], ops[i].op)
  }

  lemma HistoryOfRun(c: Config, s: State, ops: seq<Timed>) returns (skills: seq<map<string, Manifest>>)
    ensures SkillHistory(skills, ops)
    ensures forall i :: 0 <= i <= |ops| ==> skills[i] == Run(c, s, ops[..i]).skills
  {
    skills := seq(|ops| + 1, i requires 0 <= i <= |ops| => Run(c, s, ops[..i]).skills);
    forall i {:trigger ops[i]} | 0 <= i < |ops| ensures skills[i + 1] == AfterStep(skills[i], ops[i].op) {
      RunStep(c, s, ops, i);
      SkillsStep(c, Run(c, s, ops[..i]), ops[i].op, ops[i].now);
    }
  }

  /** What is registered after step n: the last registration from step m on, or what was registered then. */
  ghost predicate Holds(
    ops: seq<Timed>, m: nat, n: nat, skillId: string, before: map<string, Manifest>, after: map<string, Manifest>,
    k: nat)
    requires m <= n <= |ops|
  {
    if m <= k < n then RegistersLast(ops, k, n, skillId) && skillId in after && after[skillId] == ops[k].op.manifest
    else
      && !RegisteredSince(ops, m, n, skillId)
      && (skillId in after <==> skillId in before) && (skillId in after ==> after[skillId] == before[skillId])
  }

  lemma HoldsStep(
    ops: seq<Timed>, m: nat, n: nat, skillId: string, before: map<string, Manifest>, after: map<string, Manifest>,
    k: nat)
    requires m <= n < |ops| && Holds(ops, m, n, skillId, before, after, k) && (k < n || k == |ops|)
    ensures
      Holds(ops, m, n + 1, skillId, before, AfterStep(after, ops[n].op), if Registers(ops[n], skillId) then n else k)
  {
  }

  lemma {:induction false} SkillAt(skills: seq<map<string, Manifest>>, ops: seq<Timed>, m: nat, n: nat, skillId: string)
      returns (k: nat)
    requires SkillHistory(skills, ops) && m <= n <= |ops|
    ensures k < n || k == |ops|
    ensures Holds(ops, m, n, skillId, skills[m], skills[n], k)
  {
    if m == n {
      k := |ops|;
    } else {
      var p := SkillAt(skills, ops, m, n - 1, skillId);
      assert skills[n] == AfterStep(skills[n - 1], ops[n - 1].op);
      HoldsStep(ops, m, n - 1, skillId, skills[m], skills[n - 1], p);
      k := if Registers(ops[n - 1], skillId) then n - 1 else p;
    }
  }

  lemma LastIsOne(ops: seq<Timed>, j: nat, k: nat, n: nat, skillId: string)
    requires j < n <= |ops| && k < n && RegistersLast(ops, j, n, skillId) && RegistersLast(ops, k, n, skillId)
    ensures j == k
  {
  }

  /** A skill that may run at step m may run at step n exactly unless its last registration in between spoils
      it. */
  lemma RunnableExactly(c: Config, s: State, ops: seq<Timed>, m: nat, n: nat, skillId: string, os: string)
    requires m <= n <= |ops| && Runnable(ActiveSkills(Run(c, s, ops[..m])), skillId, os)
    ensures Runnable(ActiveSkills(Run(c, s, ops[..n])), skillId, os) <==> !Spoiled(ops, m, n, skillId, os)
  {
    var skills := HistoryOfRun(c, s, ops);
    var k := SkillAt(skills, ops, m, n, skillId);
    if Spoiled(ops, m, n, skillId, os) {
      var j :| m <= j < n && RegistersLast(ops, j, n, skillId) && Unfit(ops[j].op.manifest.definition, os);
      LastIsOne(ops, j, k, n, skillId);
    }
  }

  /** An action is queued for the first time at some step. */
  lemma FirstQueued(c: Config, s: State, ops: seq<Timed>, n: nat, id: string) returns (q: nat)
    requires Initial(s) && n <= |ops| && WasQueued(Run(c, s, ops[..n]).audit, id)
    ensures q < n && !WasQueued(Run(c, s, ops[..q]).audit, id) && WasQueued(Run(c, s, ops[..q + 1]).audit, id)
  {
    q := 0;
    while !WasQueued(Run(c, s, ops[..q + 1]).audit, id)
      invariant q < n
      decreases n - q
      invariant !WasQueued(Run(c, s, ops[..q]).audit, id)
    {
      q := q + 1;
    }
  }

  /** The step claims the queued action. */
  predicate Claims(s: State, t: State, id: string) {
    id in s.actions && s.actions[id].status == Queued && id in t.actions && t.actions[id].status == Claimed
  }

  lemma ClaimsRegistered(c: Config, s: State, op: Op, now: int, id: string)
    requires Claims(s, Next(c, s, op, now), id)
    ensures s.actions[id].skillId in s.skills
  {
    if Subject(op) != Some(id) {
      OthersUntouched(c, s, op, now, id);
    }
  }

  /** Over every run the skill of a claimed action may run at the step that first queued the action, and is
      still registered at the claim. Whether it may still run then is not asked: it may exactly unless its last
      registration in between made it prohibited, destructive or unsupported on the device. */
  lemma ClaimedSkillExactly(c: Config, s: State, ops: seq<Timed>, n: nat, id: string) returns (q: nat)
    requires Initial(s) && n < |ops| && Claims(Run(c, s, ops[..n]), Run(c, s, ops[..n + 1]), id)
    ensures q < n
    ensures !WasQueued(Run(c, s, ops[..q]).audit, id) && WasQueued(Run(c, s, ops[..q + 1]).audit, id)
    ensures
      var row := Run(c, s, ops[..n]).actions[id];
      && Runnable(ActiveSkills(Run(c, s, ops[..q + 1])), row.skillId, row.deviceOs)
      && row.skillId in Run(c, s, ops[..n]).skills
      && (Runnable(ActiveSkills(Run(c, s, ops[..n])), row.skillId, row.deviceOs)
          <==> !Spoiled(ops, q + 1, n, row.skillId, row.deviceOs))
  {
    var row := Run(c, s, ops[..n]).actions[id];
    NobodyApprovesTheirOwn(c, s, ops[..n], id);
    q := FirstQueued(c, s, ops, n, id);
    RunStep(c, s, ops, q);
    NobodyApprovesTheirOwn(c, s, ops[..q], id);
    AttemptsBounded(c, s, ops[..q], id);
    QueuedOnlyWhenRunnable(c, Run(c, s, ops[..q]), ops[q].op, ops[q].now, id);
    NamesStay(c, s, ops, q + 1, n, id);
    RunnableExactly(c, s, ops, q + 1, n, row.skillId, row.deviceOs);
    RunStep(c, s, ops, n);
    ClaimsRegistered(c, Run(c, s, ops[..n]), ops[n].op, ops[n].now, id);
  }
}

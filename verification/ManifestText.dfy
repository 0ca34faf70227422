/** The canonical JSON text a manifest's content hash is taken of (helpdesktool/skills.py). */
module ManifestText {
  import opened Text
  import opened Policy
  import opened Json
  import opened SortedNames
  import opened Skills

  function RiskName(r: Risk): string {
    match r
    case ReadOnly => "read_only"
    case Low => "low"
    case Medium => "medium"
    case High => "high"
    case Prohibited => "prohibited"
  }

  function CommandName(c: CommandType): string {
    match c
    case ReadOnlyCommand => "read_only"
    case LowRiskChange => "low_risk_change"
    case PrivilegedChange => "privileged_change"
    case SecurityContainment => "security_containment"
    case Destructive => "destructive"
  }

  function TypeName(t: ParameterType): string {
    match t
    case StringType => "string"
    case NumberType => "number"
    case BooleanType => "boolean"
  }

  function Number(n: int): Json {
    NumeralOfInt(n);
    Numeral(IntText(n))
  }

  lemma NumeralOfInt(n: int)
    ensures IsNumeral(IntText(n))
  {
    var m: nat := if n < 0 then -n else n;
    assert forall i :: 0 <= i < |Decimal(m)| ==> NumeralChar(Decimal(m)[i]);
  }

  function StringsJson(names: seq<string>): Items {
    if names == [] then NoItem else Item(Str(names[0]), StringsJson(names[1..]))
  }

  function SpecJson(spec: ParameterSpec): Json {
    Obj(Field("required", Bool(spec.required), Field("type", Str(TypeName(spec.kind)), NoField)))
  }

  function SpecsJson(names: seq<string>, specs: map<string, ParameterSpec>): Members
    requires forall name <- names :: name in specs
  {
    if names == [] then NoField else Field(names[0], SpecJson(specs[names[0]]), SpecsJson(names[1..], specs))
  }

  function Dictionary(
    command: string, parameters: Members, admin: bool, user: bool, reversible: bool, risk: string, rollback: Json,
    sensitive: bool, id: string, os: Items, timeout: Json, version: Json): Json
  {
    Obj(Field("command_type", Str(command), Field("parameters", Obj(parameters),
        Field("requires_admin_approval", Bool(admin), Field("requires_user_approval", Bool(user),
        Field("reversible", Bool(reversible), Field("risk", Str(risk),
        Field("rollback_skill_id", rollback, Field("security_sensitive", Bool(sensitive),
        Field("skill_id", Str(id), Field("supported_os", Arr(os),
        Field("timeout_seconds", timeout, Field("version", version, NoField)))))))))))))
  }

  function Optional(s: Option<string>): Json {
    if s.Some? then Str(s.value) else Null
  }

  /** compute_manifest_hash's dictionary with its keys sorted, its operating systems sorted, and each
      parameter reduced to type and requirement. */
  function ManifestJson(m: Manifest): Json {
    var d := m.definition;
    SortedLists(m.parameters.Keys);
    Dictionary(CommandName(d.commandType), SpecsJson(Sorted(m.parameters.Keys), m.parameters), d.requiresAdminApproval,
               d.requiresUserApproval, d.reversible, RiskName(d.risk), Optional(d.rollbackSkillId), d.securitySensitive,
               d.skillId, StringsJson(Sorted(d.supportedOs)), Number(d.timeoutSeconds), Number(m.version))
  }

  function CanonicalText(m: Manifest): string {
    TextOf(ManifestJson(m))
  }

  lemma {:induction false} StringsInjective(a: seq<string>, b: seq<string>)
    requires StringsJson(a) == StringsJson(b)
    ensures a == b
  {
    if a != [] && b != [] {
      StringsInjective(a[1..], b[1..]);
      assert a == [a[0]] + a[1..] && b == [b[0]] + b[1..];
    }
  }

  lemma {:induction false} SpecsInjective(a: seq<string>, p: map<string, ParameterSpec>, b: seq<string>,
                                          q: map<string, ParameterSpec>)
    requires (forall name <- a :: name in p) && (forall name <- b :: name in q)
    requires SpecsJson(a, p) == SpecsJson(b, q)
    ensures a == b && forall i :: 0 <= i < |a| ==> p[a[i]] == q[a[i]]
  {
    if a != [] && b != [] {
      SpecsInjective(a[1..], p, b[1..], q);
      assert a == [a[0]] + a[1..] && b == [b[0]] + b[1..];
      assert SpecJson(p[a[0]]) == SpecJson(q[b[0]]);
      assert forall i :: 0 < i < |a| ==> a[i] == a[1..][i - 1];
    }
  }

  lemma SpecsSame(p: map<string, ParameterSpec>, q: map<string, ParameterSpec>)
    requires (forall name <- Sorted(p.Keys) :: name in p) && (forall name <- Sorted(q.Keys) :: name in q)
    requires SpecsJson(Sorted(p.Keys), p) == SpecsJson(Sorted(q.Keys), q)
    ensures p == q
  {
    SpecsInjective(Sorted(p.Keys), p, Sorted(q.Keys), q);
    SortedInjective(p.Keys, q.Keys);
    SortedLists(p.Keys);
    forall name | name in p ensures p[name] == q[name] {
      var i :| 0 <= i < |Sorted(p.Keys)| && Sorted(p.Keys)[i] == name;
    }
  }

  lemma RiskNameInjective(r: Risk, q: Risk)
    requires RiskName(r) == RiskName(q)
    ensures r == q
  {
    assert RiskName(r)[0] == RiskName(q)[0];
  }

  lemma CommandNameInjective(c: CommandType, d: CommandType)
    requires CommandName(c) == CommandName(d)
    ensures c == d
  {
    assert CommandName(c)[0] == CommandName(d)[0];
  }

  lemma SameDefinition(d: SkillDefinition, e: SkillDefinition)
    requires CommandName(d.commandType) == CommandName(e.commandType) && RiskName(d.risk) == RiskName(e.risk)
    requires Optional(d.rollbackSkillId) == Optional(e.rollbackSkillId)
    requires StringsJson(Sorted(d.supportedOs)) == StringsJson(Sorted(e.supportedOs))
    requires Number(d.timeoutSeconds) == Number(e.timeoutSeconds)
    requires d.requiresAdminApproval == e.requiresAdminApproval && d.requiresUserApproval == e.requiresUserApproval
    requires d.reversible == e.reversible && d.securitySensitive == e.securitySensitive && d.skillId == e.skillId
    ensures d == e
  {
    CommandNameInjective(d.commandType, e.commandType);
    RiskNameInjective(d.risk, e.risk);
    StringsInjective(Sorted(d.supportedOs), Sorted(e.supportedOs));
    SortedInjective(d.supportedOs, e.supportedOs);
    IntTextInjective(d.timeoutSeconds, e.timeoutSeconds);
  }

  /** The canonical text determines exactly the hashed fields: under an ideal SHA-256, hashes are equal
      exactly when the texts are. */
  lemma HashIsOfText(m: Manifest, n: Manifest)
    ensures HashOf(m) == HashOf(n) <==> CanonicalText(m) == CanonicalText(n)
  {
    if CanonicalText(m) == CanonicalText(n) {
      SortedLists(m.parameters.Keys);
      SortedLists(n.parameters.Keys);
      TextInjective(ManifestJson(m), ManifestJson(n));
      SpecsSame(m.parameters, n.parameters);
      IntTextInjective(m.version, n.version);
      SameDefinition(m.definition, n.definition);
    }
  }

  /** Two manifests with the same canonical text, hence the same hash, get the same policy decision and the
      same parameter verdict on every request. */
  lemma SameTextSameVerdict(m: Manifest, n: Manifest, os: string, parameters: Parameters)
    requires CanonicalText(m) == CanonicalText(n)
    ensures Evaluate(map[m.definition.skillId := m.definition], m.definition.skillId, os)
         == Evaluate(map[n.definition.skillId := n.definition], n.definition.skillId, os)
    ensures Conforms(m, parameters) == Conforms(n, parameters)
    ensures m.version == n.version
  {
    HashIsOfText(m, n);
  }
}

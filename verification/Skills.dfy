/** The versioned, hash-checked skill registry (helpdesktool/skills.py, helpdesktool/api.py). */
module Skills {
  import opened Text
  import opened Policy
  import opened Json

  datatype ParameterType = StringType | NumberType | BooleanType

  datatype ParameterSpec = ParameterSpec(kind: ParameterType, required: bool)

  type Parameters = map<string, Json>

  /** `description` stands for the metadata fields the hash leaves out. */
  datatype Manifest = Manifest(
    definition: SkillDefinition, version: nat, parameters: map<string, ParameterSpec>, description: string)

  // ---- The content hash

  /** The fields compute_manifest_hash writes out. Module ManifestText proves that its canonical text determines
      exactly these, so SHA-256 of the text, as an ideal function, is a free constructor over them. */
  datatype Canonical = Canonical(definition: SkillDefinition, version: nat, parameters: map<string, ParameterSpec>)
  datatype ContentHash = Sha256(canonical: Canonical)

  function HashOf(m: Manifest): ContentHash {
    Sha256(Canonical(m.definition, m.version, m.parameters))
  }

  // ---- Parameter validation

  predicate HasType(v: Json, kind: ParameterType) {
    match kind
    case StringType => v.Str?
    case NumberType => v.Numeral?
    case BooleanType => v.Bool?
  }

  predicate Conforms(m: Manifest, parameters: Parameters) {
    && parameters.Keys <= m.parameters.Keys
    && (forall name <- m.parameters :: m.parameters[name].required ==> name in parameters)
    && (forall name <- parameters :: HasType(parameters[name], m.parameters[name].kind))
  }

  /** Conforming, name by name: nothing undeclared, nothing required missing, everything of its declared type. */
  lemma ConformsExactly(m: Manifest, parameters: Parameters)
    ensures Conforms(m, parameters) <==> forall name ::
      && (name in m.parameters && m.parameters[name].required ==> name in parameters)
      && (name in parameters ==>
            && name in m.parameters
            && (m.parameters[name].kind == StringType ==> parameters[name].Str?)
            && (m.parameters[name].kind == NumberType ==> parameters[name].Numeral?)
            && (m.parameters[name].kind == BooleanType ==> parameters[name].Bool?))
  {
  }

  datatype ParameterError =
    | Unexpected(names: set<string>) | Missing(names: set<string>) | Mistyped(name: string, expected: ParameterType)

  function AsMap(items: seq<(string, Json)>): Parameters {
    if items == [] then map[]
    else AsMap(items[..|items| - 1])[items[|items| - 1].0 := items[|items| - 1].1]
  }

  /** A dictionary seen as its ordered item list. */
  ghost predicate IsDict(items: seq<(string, Json)>) {
    forall i, j :: 0 <= i < j < |items| ==> items[i].0 != items[j].0
  }

  lemma {:induction false} AsMapItems(items: seq<(string, Json)>)
    requires IsDict(items)
    ensures AsMap(items).Keys == set i | 0 <= i < |items| :: items[i].0
    ensures forall i :: 0 <= i < |items| ==> items[i].0 in AsMap(items) && AsMap(items)[items[i].0] == items[i].1
  {
    if items != [] {
      var n := |items| - 1;
      AsMapItems(items[..n]);
      forall i | 0 <= i < |items| ensures items[i].0 in AsMap(items) && AsMap(items)[items[i].0] == items[i].1 {
        if i < n {
          assert items[..n][i] == items[i];
        }
      }
      assert AsMap(items).Keys == AsMap(items[..n]).Keys + {items[n].0};
      forall name ensures name in AsMap(items).Keys <==> name in set i | 0 <= i < |items| :: items[i].0 {
        if i :| 0 <= i < |items| && items[i].0 == name {
          assert items[i].0 in AsMap(items);
        }
        if name in AsMap(items[..n]).Keys {
          var i :| 0 <= i < n && items[..n][i].0 == name;
          assert items[i].0 == name;
        }
      }
    }
  }

  /** Shape validation: the verdict depends on names and types alone, and an error names a real fault. */
  method ValidateParameters(m: Manifest, items: seq<(string, Json)>) returns (error: Option<ParameterError>)
    requires IsDict(items)
    ensures error.None? <==> Conforms(m, AsMap(items))
    ensures error.Some? && error.value.Mistyped? ==>
      && error.value.name in AsMap(items) && error.value.name in m.parameters
      && m.parameters[error.value.name].kind == error.value.expected
      && !HasType(AsMap(items)[error.value.name], error.value.expected)
    ensures error.Some? && error.value.Missing? ==>
      error.value.names != {} && forall name <- error.value.names ::
        name in m.parameters && m.parameters[name].required && name !in AsMap(items)
    ensures error.Some? && error.value.Unexpected? ==>
      error.value.names != {} && error.value.names == AsMap(items).Keys - m.parameters.Keys
  {
    AsMapItems(items);
    var parameters := AsMap(items);
    var unexpected := parameters.Keys - m.parameters.Keys;
    if unexpected != {} {
      assert exists name :: name in unexpected;
      return Some(Unexpected(unexpected));
    }
    var missing := set name <- m.parameters | m.parameters[name].required && name !in parameters;
    if missing != {} {
      assert exists name :: name in missing;
      return Some(Missing(missing));
    }
    assert forall name <- m.parameters :: m.parameters[name].required && name !in parameters ==> name in missing;
    assert forall name <- parameters :: name !in m.parameters ==> name in unexpected;
    for i := 0 to |items|
      invariant forall k :: 0 <= k < i ==> HasType(items[k].1, m.parameters[items[k].0].kind)
    {
      var expected := m.parameters[items[i].0].kind;
      if !HasType(items[i].1, expected) {
        return Some(Mistyped(items[i].0, expected));
      }
    }
    return None;
  }

  // ---- The registry table

  datatype Row = Row(manifest: Manifest, contentHash: ContentHash, active: bool)

  /** The body of POST /v1/skills: everything but the version. */
  datatype Registration = Registration(
    definition: SkillDefinition, parameters: map<string, ParameterSpec>, description: string)

  predicate Names(row: Row, id: string) {
    row.manifest.definition.skillId == id
  }

  function NewRow(r: Registration, version: nat): Row {
    var m := Manifest(r.definition, version, r.parameters, r.description);
    Row(m, HashOf(m), true)
  }

  /** `order_by(version desc).limit(1)`: an index holding the highest version of the id. */
  ghost predicate IsHighest(rows: seq<Row>, id: string, pick: Option<nat>) {
    match pick
    case None => forall i :: 0 <= i < |rows| ==> !Names(rows[i], id)
    case Some(k) =>
      && k < |rows| && Names(rows[k], id)
      && forall i :: 0 <= i < |rows| && Names(rows[i], id) ==> rows[i].manifest.version <= rows[k].manifest.version
  }

  function Registered(rows: seq<Row>, r: Registration, pick: Option<nat>): seq<Row>
    requires pick.Some? ==> pick.value < |rows|
  {
    match pick
    case None => rows + [NewRow(r, 1)]
    case Some(k) => rows[k := rows[k].(active := false)] + [NewRow(r, rows[k].manifest.version + 1)]
  }

  function CountOf(rows: seq<Row>, id: string): nat {
    if rows == [] then 0
    else CountOf(rows[..|rows| - 1], id) + (if Names(rows[|rows| - 1], id) then 1 else 0)
  }

  function IdOf(row: Row): string {
    row.manifest.definition.skillId
  }

  ghost predicate HashesMatch(rows: seq<Row>) {
    forall i :: 0 <= i < |rows| ==> rows[i].contentHash == HashOf(rows[i].manifest)
  }

  /** Versions of an id count 1, 2, 3, ... in row order. */
  ghost predicate VersionsCount(rows: seq<Row>) {
    forall i {:trigger IdOf(rows[i])} ::
      0 <= i < |rows| ==> rows[i].manifest.version == CountOf(rows[..i], IdOf(rows[i])) + 1
  }

  /** A row is active exactly when no later row carries its id. */
  ghost predicate ActiveIsLast(rows: seq<Row>) {
    forall i {:trigger IsLatest(rows, i)} ::
      0 <= i < |rows| ==> (rows[i].active <==> IsLatest(rows, i))
  }

  ghost predicate IsLatest(rows: seq<Row>, i: nat)
    requires i < |rows|
  {
    forall j :: i < j < |rows| ==> !Names(rows[j], IdOf(rows[i]))
  }

  ghost predicate RegistryInvariant(rows: seq<Row>) {
    HashesMatch(rows) && VersionsCount(rows) && ActiveIsLast(rows)
  }

  lemma {:induction false} CountMonotone(rows: seq<Row>, i: nat, j: nat, id: string)
    requires i <= j <= |rows|
    ensures CountOf(rows[..i], id) <= CountOf(rows[..j], id)
    ensures (exists k :: i <= k < j && Names(rows[k], id)) <==> CountOf(rows[..i], id) < CountOf(rows[..j], id)
  {
    if i < j {
      CountMonotone(rows, i, j - 1, id);
      assert rows[..j][..j - 1] == rows[..j - 1];
      assert Names(rows[j - 1], id) ==> exists k :: i <= k < j && Names(rows[k], id);
    }
  }

  lemma {:induction false} CountIgnoresFlag(rows: seq<Row>, k: nat, flag: bool, id: string)
    requires k < |rows|
    ensures CountOf(rows[k := rows[k].(active := flag)], id) == CountOf(rows, id)
  {
    var n := |rows| - 1;
    var updated := rows[k := rows[k].(active := flag)];
    if k < n {
      CountIgnoresFlag(rows[..n], k, flag, id);
      assert updated[..n] == rows[..n][k := rows[k].(active := flag)];
    } else {
      assert updated[..n] == rows[..n];
    }
  }

  /** The highest version of an id is the number of rows that carry it, and it is the row currently active. */
  lemma HighestIsLast(rows: seq<Row>, id: string, k: nat)
    requires RegistryInvariant(rows) && IsHighest(rows, id, Some(k))
    ensures rows[k].manifest.version == CountOf(rows, id)
    ensures rows[k].active
    ensures forall j :: k < j < |rows| ==> !Names(rows[j], id)
  {
    assert rows[..|rows|] == rows;
    assert IdOf(rows[k]) == id;
    forall j | k < j < |rows| ensures !Names(rows[j], id) {
      if Names(rows[j], id) {
        assert IdOf(rows[j]) == id;
        CountMonotone(rows, k, j, id);
      }
    }
    assert IsLatest(rows, k);
    CountMonotone(rows, k + 1, |rows|, id);
    assert rows[..k + 1][..k] == rows[..k];
  }

  lemma PrefixCounts(rows: seq<Row>, r: Registration, pick: Option<nat>, i: nat, id: string)
    requires pick.Some? ==> pick.value < |rows|
    requires i <= |rows|
    ensures CountOf(Registered(rows, r, pick)[..i], id) == CountOf(rows[..i], id)
  {
    var after := Registered(rows, r, pick);
    if pick.Some? && pick.value < i {
      CountIgnoresFlag(rows[..i], pick.value, false, id);
      assert after[..i] == rows[..i][pick.value := rows[pick.value].(active := false)];
    } else {
      assert after[..i] == rows[..i];
    }
  }

  lemma RegisteredCounts(rows: seq<Row>, r: Registration, pick: Option<nat>, id: string)
    requires IsHighest(rows, r.definition.skillId, pick)
    ensures CountOf(Registered(rows, r, pick), id)
         == CountOf(rows, id) + (if id == r.definition.skillId then 1 else 0)
  {
    PrefixCounts(rows, r, pick, |rows|, id);
    assert rows[..|rows|] == rows;
  }

  lemma NextVersion(rows: seq<Row>, id: string, pick: Option<nat>)
    requires RegistryInvariant(rows) && IsHighest(rows, id, pick)
    ensures CountOf(rows, id) == if pick.Some? then rows[pick.value].manifest.version else 0
  {
    if pick.Some? {
      HighestIsLast(rows, id, pick.value);
    } else {
      CountMonotone(rows, 0, |rows|, id);
      assert rows[..|rows|] == rows;
    }
  }

  lemma RegisteredVersions(rows: seq<Row>, r: Registration, pick: Option<nat>)
    requires RegistryInvariant(rows) && IsHighest(rows, r.definition.skillId, pick)
    ensures VersionsCount(Registered(rows, r, pick))
  {
    var after := Registered(rows, r, pick);
    NextVersion(rows, r.definition.skillId, pick);
    forall i | 0 <= i < |after| ensures after[i].manifest.version == CountOf(after[..i], IdOf(after[i])) + 1 {
      PrefixCounts(rows, r, pick, i, IdOf(after[i]));
      if i < |rows| {
        assert after[i].manifest == rows[i].manifest && IdOf(after[i]) == IdOf(rows[i]);
      } else {
        assert rows[..i] == rows;
      }
    }
  }

  /** One more row ends an id's latest row exactly when it has that id. */
  lemma LatestAfterOneMore(rows: seq<Row>, after: seq<Row>, i: nat)
    requires i < |rows| && |after| == |rows| + 1
    requires forall j :: 0 <= j < |rows| ==> IdOf(after[j]) == IdOf(rows[j])
    ensures IsLatest(after, i) <==> IsLatest(rows, i) && IdOf(after[|rows|]) != IdOf(rows[i])
  {
    assert IsLatest(after, i) ==> !Names(after[|rows|], IdOf(after[i]));
    assert IsLatest(after, i) ==> forall j :: i < j < |rows| ==>
        IdOf(rows[j]) == IdOf(after[j]) && !Names(after[j], IdOf(after[i]));
  }

  lemma RegisteredActive(rows: seq<Row>, r: Registration, pick: Option<nat>)
    requires RegistryInvariant(rows) && IsHighest(rows, r.definition.skillId, pick)
    ensures ActiveIsLast(Registered(rows, r, pick))
  {
    var after := Registered(rows, r, pick);
    var n := |rows|;
    if pick.Some? {
      HighestIsLast(rows, r.definition.skillId, pick.value);
    }
    forall i | 0 <= i < n ensures after[i].active <==> IsLatest(after, i) {
      LatestAfterOneMore(rows, after, i);
      if IdOf(rows[i]) == r.definition.skillId {
        assert Names(rows[i], r.definition.skillId) && pick.Some?;
        assert i != pick.value ==> i < pick.value && !IsLatest(rows, i);
      }
    }
  }

  /** A registration keeps the registry invariant and adds one to the count of its own id only. */
  lemma RegisteredKeepsInvariant(rows: seq<Row>, r: Registration, pick: Option<nat>)
    requires RegistryInvariant(rows) && IsHighest(rows, r.definition.skillId, pick)
    ensures RegistryInvariant(Registered(rows, r, pick))
  {
    RegisteredVersions(rows, r, pick);
    RegisteredActive(rows, r, pick);
  }

  // ---- Reading the registry back

  /** The active rows in table order; None when one of them fails the integrity check. */
  function LoadActive(rows: seq<Row>): Option<seq<Manifest>> {
    if rows == [] then Some([])
    else
      var last := rows[|rows| - 1];
      match LoadActive(rows[..|rows| - 1])
      case None => None
      case Some(before) =>
        if !last.active then Some(before)
        else if HashOf(last.manifest) != last.contentHash then None
        else Some(before + [last.manifest])
  }

  function Definitions(manifests: seq<Manifest>): seq<SkillDefinition> {
    seq(|manifests|, i requires 0 <= i < |manifests| => manifests[i].definition)
  }

  lemma {:induction false} LoadFinds(rows: seq<Row>, i: nat)
    requires HashesMatch(rows)
    ensures LoadActive(rows).Some?
    ensures i < |rows| && rows[i].active ==> rows[i].manifest in LoadActive(rows).value
  {
    if rows != [] {
      LoadFinds(rows[..|rows| - 1], i);
    }
  }

  lemma {:induction false} LoadComesFrom(rows: seq<Row>, k: nat) returns (i: nat)
    requires HashesMatch(rows) && LoadActive(rows).Some? && k < |LoadActive(rows).value|
    ensures i < |rows| && rows[i].active && rows[i].manifest == LoadActive(rows).value[k]
  {
    var n := |rows| - 1;
    var before := rows[..n];
    LoadFinds(before, 0);
    if k < |LoadActive(before).value| {
      i := LoadComesFrom(before, k);
    } else {
      i := n;
    }
  }

  /** Two loaded manifests never share an id: each id has one active row. */
  lemma {:induction false} LoadedDistinct(rows: seq<Row>)
    requires HashesMatch(rows) && LoadActive(rows).Some?
    requires forall i, j :: 0 <= i < j < |rows| && rows[i].active && rows[j].active ==> IdOf(rows[i]) != IdOf(rows[j])
    ensures DistinctIds(Definitions(LoadActive(rows).value))
  {
    if rows != [] {
      var n := |rows| - 1;
      var before := rows[..n];
      LoadFinds(before, 0);
      LoadedDistinct(before);
      var ds := Definitions(LoadActive(rows).value);
      var earlier := Definitions(LoadActive(before).value);
      forall a, b | 0 <= a < b < |ds| ensures ds[a].skillId != ds[b].skillId {
        assert ds[a] == earlier[a];
        if b < |earlier| {
          assert ds[b] == earlier[b];
        } else {
          var i := LoadComesFrom(before, a);
        }
      }
    }
  }

  /** Registrations in order, each reading some highest version. */
  ghost predicate RegistryRun(states: seq<seq<Row>>, rs: seq<Registration>) {
    && |states| == |rs| + 1
    && states[0] == []
    && forall i :: 0 <= i < |rs| ==> exists pick: Option<nat> ::
         IsHighest(states[i], rs[i].definition.skillId, pick) && states[i + 1] == Registered(states[i], rs[i], pick)
  }

  function Registrations(rs: seq<Registration>, id: string): nat {
    if rs == [] then 0
    else Registrations(rs[..|rs| - 1], id) + (if rs[|rs| - 1].definition.skillId == id then 1 else 0)
  }

  lemma {:induction false} RunKeepsInvariant(states: seq<seq<Row>>, rs: seq<Registration>, n: nat)
    requires RegistryRun(states, rs) && n <= |rs|
    ensures RegistryInvariant(states[n])
  {
    if n > 0 {
      RunKeepsInvariant(states, rs, n - 1);
      var pick: Option<nat> :| IsHighest(states[n - 1], rs[n - 1].definition.skillId, pick)
               && states[n] == Registered(states[n - 1], rs[n - 1], pick);
      RegisteredKeepsInvariant(states[n - 1], rs[n - 1], pick);
    }
  }

  lemma {:induction false} RunCounts(states: seq<seq<Row>>, rs: seq<Registration>, n: nat, id: string)
    requires RegistryRun(states, rs) && n <= |rs|
    ensures CountOf(states[n], id) == Registrations(rs[..n], id)
  {
    if n > 0 {
      RunCounts(states, rs, n - 1, id);
      var pick: Option<nat> :| IsHighest(states[n - 1], rs[n - 1].definition.skillId, pick)
               && states[n] == Registered(states[n - 1], rs[n - 1], pick);
      RegisteredCounts(states[n - 1], rs[n - 1], pick, id);
      assert rs[..n][..n - 1] == rs[..n - 1];
    }
  }

  /** An active row carries the number of registrations of its id as its version. */
  lemma ActiveVersion(rows: seq<Row>, i: nat)
    requires RegistryInvariant(rows) && i < |rows| && rows[i].active
    ensures rows[i].manifest.version == CountOf(rows, IdOf(rows[i]))
  {
    assert IsLatest(rows, i);
    CountMonotone(rows, i + 1, |rows|, IdOf(rows[i]));
    assert rows[..i + 1][..i] == rows[..i] && rows[..|rows|] == rows;
  }

  /** What is loaded under an id carries its number of rows as its version. */
  lemma LoadedVersion(rows: seq<Row>, m: Manifest)
    requires RegistryInvariant(rows) && LoadActive(rows).Some? && m in LoadActive(rows).value
    ensures m.version == CountOf(rows, m.definition.skillId)
  {
    var ms := LoadActive(rows).value;
    var k :| 0 <= k < |ms| && ms[k] == m;
    var i := LoadComesFrom(rows, k);
    ActiveVersion(rows, i);
  }

  /** An id with a row is loaded. */
  lemma LoadedWhenNamed(rows: seq<Row>, id: string) returns (m: Manifest)
    requires RegistryInvariant(rows) && LoadActive(rows).Some? && CountOf(rows, id) > 0
    ensures m in LoadActive(rows).value && m.definition.skillId == id
  {
    CountMonotone(rows, 0, |rows|, id);
    assert rows[..|rows|] == rows;
    var k := LastWith(rows, id, |rows|);
    assert IsLatest(rows, k);
    LoadFinds(rows, k);
    m := rows[k].manifest;
  }

  lemma OneActiveEach(rows: seq<Row>)
    requires RegistryInvariant(rows)
    ensures forall i, j :: 0 <= i < j < |rows| && rows[i].active && rows[j].active ==> IdOf(rows[i]) != IdOf(rows[j])
  {
    forall i, j | 0 <= i < j < |rows| && rows[i].active && rows[j].active ensures IdOf(rows[i]) != IdOf(rows[j]) {
      assert IsLatest(rows, i);
      assert !Names(rows[j], IdOf(rows[i]));
    }
  }

  /** After any sequence of registrations the active set loads without an integrity failure, the policy
      engine never meets a duplicate id, an id that was ever registered is loaded, and its version is
      the number of times it was registered. */
  lemma RegistryAlwaysLoads(states: seq<seq<Row>>, rs: seq<Registration>, n: nat, id: string)
    requires RegistryRun(states, rs) && n <= |rs|
    ensures LoadActive(states[n]).Some?
    ensures Engine(Definitions(LoadActive(states[n]).value)).Some?
    ensures Registrations(rs[..n], id) > 0 ==>
              exists m :: m in LoadActive(states[n]).value && m.definition.skillId == id
    ensures forall m :: m in LoadActive(states[n]).value && m.definition.skillId == id ==>
              m.version == Registrations(rs[..n], id)
  {
    var rows := states[n];
    RunKeepsInvariant(states, rs, n);
    RunCounts(states, rs, n, id);
    LoadFinds(rows, 0);
    OneActiveEach(rows);
    LoadedDistinct(rows);
    EngineRejectsExactlyDuplicates(Definitions(LoadActive(rows).value));
    forall m | m in LoadActive(rows).value && m.definition.skillId == id ensures m.version == CountOf(rows, id) {
      LoadedVersion(rows, m);
    }
    if CountOf(rows, id) > 0 {
      var m := LoadedWhenNamed(rows, id);
    }
  }

  /** The last registration of an id among the first n. */
  ghost predicate RegisteredLast(rs: seq<Registration>, k: nat, n: nat, id: string)
    requires k < n <= |rs|
  {
    rs[k].definition.skillId == id && forall j :: k < j < n ==> rs[j].definition.skillId != id
  }

  /** The row of the latest registration holds exactly what was registered. */
  ghost predicate HoldsRegistration(rows: seq<Row>, r: Registration) {
    exists i :: 0 <= i < |rows| && IsLatest(rows, i) && rows[i].manifest.definition == r.definition
                && rows[i].manifest.parameters == r.parameters && rows[i].manifest.description == r.description
  }

  lemma RegisteredHolds(rows: seq<Row>, r: Registration, pick: Option<nat>)
    requires IsHighest(rows, r.definition.skillId, pick)
    ensures HoldsRegistration(Registered(rows, r, pick), r)
  {
    var after := Registered(rows, r, pick);
    assert IsLatest(after, |rows|);
  }

  lemma OthersHold(rows: seq<Row>, r: Registration, pick: Option<nat>, earlier: Registration)
    requires IsHighest(rows, r.definition.skillId, pick) && HoldsRegistration(rows, earlier)
    requires earlier.definition.skillId != r.definition.skillId
    ensures HoldsRegistration(Registered(rows, r, pick), earlier)
  {
    var after := Registered(rows, r, pick);
    var i :| 0 <= i < |rows| && IsLatest(rows, i) && rows[i].manifest.definition == earlier.definition
             && rows[i].manifest.parameters == earlier.parameters
             && rows[i].manifest.description == earlier.description;
    LatestAfterOneMore(rows, after, i);
  }

  lemma {:induction false} RunHolds(states: seq<seq<Row>>, rs: seq<Registration>, k: nat, n: nat, id: string)
    requires RegistryRun(states, rs) && k < n <= |rs| && RegisteredLast(rs, k, n, id)
    ensures HoldsRegistration(states[n], rs[k])
  {
    if k < n - 1 {
      RunHolds(states, rs, k, n - 1, id);
    }
    HoldsAfter(states[n - 1], rs[n - 1], states[n], rs[k], k == n - 1);
  }

  lemma HoldsAfter(rows: seq<Row>, r: Registration, after: seq<Row>, kept: Registration, last: bool)
    requires exists pick: Option<nat> ::
      IsHighest(rows, r.definition.skillId, pick) && after == Registered(rows, r, pick)
    requires if last then kept == r
             else kept.definition.skillId != r.definition.skillId && HoldsRegistration(rows, kept)
    ensures HoldsRegistration(after, kept)
  {
    var pick: Option<nat> :| IsHighest(rows, r.definition.skillId, pick) && after == Registered(rows, r, pick);
    if last {
      RegisteredHolds(rows, r, pick);
    } else {
      OthersHold(rows, r, pick, kept);
    }
  }

  /** After any registrations what is loaded under an id is its last registration, definition, parameters and
      all. */
  lemma LoadsTheLast(states: seq<seq<Row>>, rs: seq<Registration>, k: nat, n: nat, id: string, m: Manifest)
    requires RegistryRun(states, rs) && k < n <= |rs| && RegisteredLast(rs, k, n, id)
    requires LoadActive(states[n]).Some? && m in LoadActive(states[n]).value && m.definition.skillId == id
    ensures m.definition == rs[k].definition && m.parameters == rs[k].parameters && m.description == rs[k].description
  {
    var rows := states[n];
    RunKeepsInvariant(states, rs, n);
    RunHolds(states, rs, k, n, id);
    var i :| 0 <= i < |rows| && IsLatest(rows, i) && rows[i].manifest.definition == rs[k].definition
             && rows[i].manifest.parameters == rs[k].parameters && rows[i].manifest.description == rs[k].description;
    var ms := LoadActive(rows).value;
    var x :| 0 <= x < |ms| && ms[x] == m;
    var j := LoadComesFrom(rows, x);
    OneActiveEach(rows);
    assert IsLatest(rows, j);
    assert Names(rows[i], IdOf(rows[j])) && Names(rows[j], IdOf(rows[i]));
  }

  lemma {:induction false} LastWith(rows: seq<Row>, id: string, n: nat) returns (k: nat)
    requires n <= |rows| && exists i :: 0 <= i < n && Names(rows[i], id)
    ensures k < n && Names(rows[k], id) && forall j :: k < j < n ==> !Names(rows[j], id)
  {
    if Names(rows[n - 1], id) {
      k := n - 1;
    } else {
      k := LastWith(rows, id, n - 1);
    }
  }

  lemma RegistrationFacts(rows: seq<Row>, r: Registration, pick: Option<nat>)
    requires RegistryInvariant(rows) && IsHighest(rows, r.definition.skillId, pick)
    ensures RegistryInvariant(Registered(rows, r, pick))
    ensures CountOf(Registered(rows, r, pick), r.definition.skillId) == CountOf(rows, r.definition.skillId) + 1
    ensures CountOf(rows, r.definition.skillId) == if pick.Some? then rows[pick.value].manifest.version else 0
    ensures pick.Some? ==> rows[pick.value].active
  {
    RegisteredKeepsInvariant(rows, r, pick);
    RegisteredCounts(rows, r, pick, r.definition.skillId);
    NextVersion(rows, r.definition.skillId, pick);
    if pick.Some? {
      HighestIsLast(rows, r.definition.skillId, pick.value);
    }
  }

  class SkillRegistry {
    var rows: seq<Row>

    constructor ()
      ensures rows == []
    {
      rows := [];
    }

    method HighestVersion(id: string) returns (pick: Option<nat>)
      ensures IsHighest(rows, id, pick)
    {
      pick := None;
      for i := 0 to |rows|
        invariant pick.Some? ==> pick.value < i
        invariant IsHighest(rows[..i], id, pick)
      {
        if Names(rows[i], id) && (pick.None? || rows[pick.value].manifest.version < rows[i].manifest.version) {
          pick := Some(i);
        }
        assert rows[..i + 1] == rows[..i] + [rows[i]];
      }
      assert rows[..|rows|] == rows;
    }

    /** POST /v1/skills */
    method CreateSkillManifest(r: Registration) returns (version: nat)
      requires RegistryInvariant(rows)
      modifies this
      ensures RegistryInvariant(rows)
      ensures exists pick: Option<nat> ::
        IsHighest(old(rows), r.definition.skillId, pick) && rows == Registered(old(rows), r, pick)
      ensures version == CountOf(old(rows), r.definition.skillId) + 1
      ensures version == CountOf(rows, r.definition.skillId)
    {
      var pick := HighestVersion(r.definition.skillId);
      RegistrationFacts(rows, r, pick);
      version := 1;
      if pick.Some? {
        version := rows[pick.value].manifest.version + 1;
        Deactivate(pick.value);
      }
      rows := rows + [NewRow(r, version)];
      assert rows == Registered(old(rows), r, pick);
    }

    method Deactivate(k: nat)
      requires k < |rows|
      modifies this
      ensures rows == old(rows)[k := old(rows)[k].(active := false)]
    {
      if rows[k].active {
        rows := rows[k := rows[k].(active := false)];
      }
    }
  }
}

/** Pinned signing keys (linux_agent/agent.py, linux_agent/config.py, helpdesktool/job_signing.py): what one
    merge, one verification, one save and one load do. Module PinRuns follows them over whole runs. */
module KeyRotation {
  import opened Text
  import opened Signing

  type Pins = map<int, PublicKey>

  // ---- Integers as JSON object keys

  predicate Space(c: char) {
    c == ' ' || 9 <= c as int <= 13 || 28 <= c as int <= 31
  }

  function TrimLeft(s: string): string {
    if s != "" && Space(s[0]) then TrimLeft(s[1..]) else s
  }

  function TrimRight(s: string): string {
    if s != "" && Space(s[|s| - 1]) then TrimRight(s[..|s| - 1]) else s
  }

  /** Decimal digits, single underscores allowed between them. */
  function Digits(s: string): Option<nat> {
    if s == "" then None
    else
      var n := |s| - 1;
      if !('0' <= s[n] <= '9') then None
      else if n == 0 then Some(s[n] as int - '0' as int)
      else match Digits(if s[n - 1] == '_' then s[..n - 1] else s[..n])
        case None => None
        case Some(high) => Some(10 * high + (s[n] as int - '0' as int))
  }

  /** Python's int(s): surrounding white space, a sign, and underscores between digits are accepted. */
  function ParseInt(s: string): Option<int> {
    var t := TrimRight(TrimLeft(s));
    if t != "" && t[0] == '-' then
      match Digits(t[1..])
      case None => None
      case Some(n) => Some(0 - n as int)
    else
      match Digits(if t != "" && t[0] == '+' then t[1..] else t)
      case None => None
      case Some(n) => Some(n)
  }

  lemma {:induction false} DigitsOfDecimal(s: string)
    requires s != "" && forall i :: 0 <= i < |s| ==> '0' <= s[i] <= '9'
    ensures Digits(s) == ParseDecimal(s)
  {
    if |s| > 1 {
      DigitsOfDecimal(s[..|s| - 1]);
    }
  }

  /** A digit string parses as itself, and negated after a sign. */
  lemma ParseSigned(digits: string, n: nat)
    requires digits != [] && (forall i :: 0 <= i < |digits| ==> '0' <= digits[i] <= '9') && Digits(digits) == Some(n)
    ensures ParseInt(digits) == Some(n as int)
    ensures ParseInt("-" + digits) == Some(0 - n as int)
  {
    ParseUnsigned(digits, n);
    ParseNegative(digits, n);
  }

  lemma ParseUnsigned(digits: string, n: nat)
    requires digits != [] && '0' <= digits[0] <= '9' && '0' <= digits[|digits| - 1] <= '9' && Digits(digits) == Some(n)
    ensures ParseInt(digits) == Some(n as int)
  {
    NothingToTrim(digits);
  }

  lemma ParseNegative(digits: string, n: nat)
    requires digits != [] && '0' <= digits[|digits| - 1] <= '9' && Digits(digits) == Some(n)
    ensures ParseInt("-" + digits) == Some(0 - n as int)
  {
    var signed := "-" + digits;
    assert signed[|signed| - 1] == digits[|digits| - 1];
    NothingToTrim(signed);
    assert signed[0] == '-' && signed[1..] == digits;
  }

  lemma NothingToTrim(s: string)
    requires s != "" && !Space(s[0]) && !Space(s[|s| - 1])
    ensures TrimRight(TrimLeft(s)) == s
  {
  }

  lemma ParseInvertsIntText(n: int)
    ensures ParseInt(IntText(n)) == Some(n)
  {
    var m: nat := if n < 0 then -n else n;
    ParseInvertsDecimal(m);
    DigitsOfDecimal(Decimal(m));
    ParseSigned(Decimal(m), m);
  }

  // ---- Merging

  /** Two sets of pins, the first kept. */
  function Merged(pins: Pins, offered: Pins): Pins {
    offered + pins
  }

  predicate Extends(small: Pins, big: Pins) {
    forall v <- small :: v in big && big[v] == small[v]
  }

  /** A version text that is no number raises ValueError. */
  predicate Raises(items: seq<(string, PublicKey)>) {
    exists i :: 0 <= i < |items| && ParseInt(items[i].0).None?
  }

  /** The pins after merging a reply's items in order, as far as the first that raises: a version not pinned
      yet is pinned to the key offered, a pinned one keeps its key. */
  function MergeItems(pins: Pins, items: seq<(string, PublicKey)>): Pins {
    if items == [] then pins
    else
      var n := |items| - 1;
      var before := MergeItems(pins, items[..n]);
      var v := ParseInt(items[n].0);
      if Raises(items[..n]) || v.None? || v.value in before then before else before[v.value := items[n].1]
  }

  /** Whatever is offered, a pinned version keeps its key; what is new was offered. */
  lemma {:induction false} MergeOnlyAdds(pins: Pins, items: seq<(string, PublicKey)>)
    ensures Extends(pins, MergeItems(pins, items))
    ensures forall v <- MergeItems(pins, items) :: v in pins ||
              exists i :: 0 <= i < |items| && ParseInt(items[i].0) == Some(v)
                  && items[i].1 == MergeItems(pins, items)[v]
  {
    if items != [] {
      var n := |items| - 1;
      MergeOnlyAdds(pins, items[..n]);
      forall v | v in MergeItems(pins, items) && v !in pins
        ensures exists i ::
          0 <= i < |items| && ParseInt(items[i].0) == Some(v) && items[i].1 == MergeItems(pins, items)[v]
      {
        if v in MergeItems(pins, items[..n]) {
          var i :| 0 <= i < n && ParseInt(items[..n][i].0) == Some(v)
              && items[..n][i].1 == MergeItems(pins, items[..n])[v];
          assert items[i] == items[..n][i];
        } else {
          assert ParseInt(items[n].0) == Some(v);
        }
      }
    }
  }

  lemma MergeSnoc(pins: Pins, items: seq<(string, PublicKey)>, n: nat)
    requires n < |items| && !Raises(items)
    ensures !Raises(items[..n]) && MergeItems(pins, items[..n + 1])
         == var before, v := MergeItems(pins, items[..n]), ParseInt(items[n].0).value;
            if v in before then before else before[v := items[n].1]
  {
    assert items[..n + 1][..n] == items[..n] && items[..n + 1][n] == items[n];
  }

  lemma {:induction false} NeverOffered(pins: Pins, items: seq<(string, PublicKey)>, n: nat, v: int)
    requires n <= |items| && !Raises(items) && v !in pins && forall k :: 0 <= k < n ==> ParseInt(items[k].0) != Some(v)
    ensures v !in MergeItems(pins, items[..n])
  {
    if n > 0 {
      NeverOffered(pins, items, n - 1, v);
      MergeSnoc(pins, items, n - 1);
    }
  }

  /** Of several keys offered for an unpinned version, the first is pinned. */
  lemma {:induction false} FirstOfferWins(pins: Pins, items: seq<(string, PublicKey)>, n: nat, i: nat, v: int)
    requires !Raises(items) && i < n <= |items| && ParseInt(items[i].0) == Some(v) && v !in pins
    requires forall k :: 0 <= k < i ==> ParseInt(items[k].0) != Some(v)
    ensures v in MergeItems(pins, items[..n]) && MergeItems(pins, items[..n])[v] == items[i].1
  {
    MergeSnoc(pins, items, n - 1);
    if i < n - 1 {
      FirstOfferWins(pins, items, n - 1, i, v);
    } else {
      NeverOffered(pins, items, i, v);
    }
  }

  // ---- Verification with genuine pins

  predicate Genuine(seed: string, pins: Pins) {
    forall v <- pins :: pins[v] == PublicKeyPem(seed, v)
  }

  /** With genuine pins an envelope is accepted exactly when its version is pinned, it carries the control
      plane's signature over these very twelve fields, it is addressed here, it has not expired, and its
      skill version is supported. */
  lemma AcceptedExactlyWhenSigned(seed: string, pins: Pins, fields: Fields, signature: Signature,
                                  device: string, tenant: string, supported: map<string, set<int>>, now: int)
    requires Genuine(seed, pins)
    ensures VerifyEnvelope(fields, signature, pins, device, tenant, supported, now).None? <==>
      && fields.keyVersion in pins
      && signature == SignEnvelope(fields, seed, fields.keyVersion)
      && fields.deviceId == device && fields.tenantId == tenant
      && now < fields.expiresAt
      && fields.skillId in supported && fields.skillVersion in supported[fields.skillId]
  {
  }

  /** Otherwise the first check that fails names the error: signature or version, device, tenant, expiry, skill. */
  lemma RefusedExactly(seed: string, pins: Pins, fields: Fields, signature: Signature,
                       device: string, tenant: string, supported: map<string, set<int>>, now: int)
    requires Genuine(seed, pins)
    ensures
      var error := VerifyEnvelope(fields, signature, pins, device, tenant, supported, now);
      var signed := fields.keyVersion in pins && signature == SignEnvelope(fields, seed, fields.keyVersion);
      && (error == Some(InvalidSignature) <==> !signed)
      && (error == Some(WrongDevice) <==> signed && fields.deviceId != device)
      && (error == Some(WrongTenant) <==> signed && fields.deviceId == device && fields.tenantId != tenant)
      && (error == Some(Expired) <==>
            signed && fields.deviceId == device && fields.tenantId == tenant && fields.expiresAt <= now)
  {
  }

  /** The keys a refresh offers: exactly those of the window, never below version 1. */
  lemma OfferedExactly(seed: string, current: int, window: int, v: int)
    ensures v in ActivePublicKeys(seed, current, window) <==> 1 <= v && current - window <= v <= current
    ensures v in ActivePublicKeys(seed, current, window) ==>
              ActivePublicKeys(seed, current, window)[v] == PublicOf(DerivedKey(seed, v))
  {
    assert Max(1, current - window) <= v <= current <==> 1 <= v && current - window <= v <= current;
  }

  /** A signature made for one envelope never passes for another that differs in any signed field. */
  lemma SignatureBindsFields(seed: string, pins: Pins, signed: Fields, version: int, fields: Fields,
                             device: string, tenant: string, supported: map<string, set<int>>, now: int)
    requires Genuine(seed, pins)
    requires VerifyEnvelope(fields, SignEnvelope(signed, seed, version), pins, device, tenant, supported, now).None?
    ensures fields == signed && fields.keyVersion == version
  {
    AcceptedExactlyWhenSigned(seed, pins, fields, SignEnvelope(signed, seed, version), device, tenant, supported, now);
  }

  // ---- The configuration file

  /** The JSON file: an ordered object from version texts to keys, and the fields of the older format. */
  datatype ConfigFile = ConfigFile(
    signingKeys: seq<(string, PublicKey)>, legacyKey: Option<PublicKey>, legacyVersion: Option<string>)

  /** None when a version text is not a number. */
  function LoadKeys(items: seq<(string, PublicKey)>): Option<Pins> {
    if items == [] then Some(map[])
    else
      var last := items[|items| - 1];
      match (LoadKeys(items[..|items| - 1]), ParseInt(last.0))
      case (Some(before), Some(v)) => Some(before[v := last.1])
      case _ => None
  }

  function Loaded(file: ConfigFile): Option<Pins> {
    match LoadKeys(file.signingKeys)
    case None => None
    case Some(keys) =>
      if file.legacyKey.None? || file.legacyVersion.None? then Some(keys)
      else match ParseInt(file.legacyVersion.value)
        case None => None
        case Some(v) => Some(Merged(keys, map[v := file.legacyKey.value]))
  }

  /** A file `save` may write: the pins in some order, no legacy fields. */
  ghost predicate Saves(file: ConfigFile, pins: Pins) {
    && file.legacyKey.None? && file.legacyVersion.None?
    && exists order: seq<int> :: Lists(order, pins.Keys) && file.signingKeys == Items(order, pins)
  }

  function Versions(order: seq<int>): set<int> {
    set v | v in order
  }

  ghost predicate Lists(order: seq<int>, versions: set<int>) {
    versions == Versions(order)
  }

  function Items(order: seq<int>, pins: Pins): seq<(string, PublicKey)> {
    seq(|order|, i requires 0 <= i < |order| =>
      (IntText(order[i]), if order[i] in pins then pins[order[i]] else ForeignKey("")))
  }

  lemma {:induction false} LoadInvertsItems(order: seq<int>, pins: Pins)
    requires Versions(order) <= pins.Keys
    ensures LoadKeys(Items(order, pins)).Some?
    ensures LoadKeys(Items(order, pins)).value.Keys == Versions(order)
    ensures forall v <- LoadKeys(Items(order, pins)).value :: LoadKeys(Items(order, pins)).value[v] == pins[v]
  {
    if order != [] {
      var n := |order| - 1;
      assert order == order[..n] + [order[n]];
      assert Versions(order) == Versions(order[..n]) + {order[n]};
      LoadInvertsItems(order[..n], pins);
      ParseInvertsIntText(order[n]);
      assert Items(order, pins)[..n] == Items(order[..n], pins);
    }
  }

  /** A restart through save and load changes no pin. */
  lemma LoadInvertsSave(file: ConfigFile, pins: Pins)
    requires Saves(file, pins)
    ensures Loaded(file) == Some(pins)
  {
    var order: seq<int> :| Lists(order, pins.Keys) && file.signingKeys == Items(order, pins);
    LoadInvertsItems(order, pins);
    assert LoadKeys(file.signingKeys).value == pins;
  }

  /** Migration keeps the key the older format had pinned, unless the newer map already holds that version. */
  lemma MigrationKeepsLegacyPin(file: ConfigFile, v: int)
    requires Loaded(file).Some? && file.legacyKey.Some? && file.legacyVersion == Some(IntText(v))
    ensures v in Loaded(file).value
    ensures LoadKeys(file.signingKeys).Some? && LoadKeys(file.signingKeys).value.Keys <= Loaded(file).value.Keys
    ensures Loaded(file).value[v]
        == (if v in LoadKeys(file.signingKeys).value then LoadKeys(file.signingKeys).value[v] else file.legacyKey.value)
  {
    ParseInvertsIntText(v);
  }

  method ListVersions(pins: Pins) returns (order: seq<int>)
    ensures Lists(order, pins.Keys)
  {
    order := [];
    var rest := pins;
    while rest.Items != {}
      invariant rest.Keys <= pins.Keys && Versions(order) == pins.Keys - rest.Keys
      decreases |rest|
    {
      var item :| item in rest.Items;
      assert Versions(order + [item.0]) == Versions(order) + {item.0};
      order := order + [item.0];
      rest := rest - {item.0};
    }
    assert forall v :: v in rest ==> (v, rest[v]) in rest.Items;
  }

  /** Nothing is merged from the item that raises on. */
  lemma {:induction false} RaisingStops(pins: Pins, items: seq<(string, PublicKey)>, i: nat)
    requires i < |items| && ParseInt(items[i].0).None?
    ensures Raises(items) && MergeItems(pins, items) == MergeItems(pins, items[..i])
  {
    var n := |items| - 1;
    if i < n {
      var before := items[..n];
      assert before[i] == items[i] && before[..i] == items[..i];
      RaisingStops(pins, before, i);
    }
  }
}

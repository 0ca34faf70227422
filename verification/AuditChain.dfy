/** The hash-chained audit log, in memory and per tenant in SQL (helpdesktool/audit.py,
    helpdesktool/persistence.py). SHA-256 is the parameter `sha`, from a record's canonical text to a digest's;
    only the statements that say so need it to be ideal. */
module AuditChain {
  import opened Text
  import opened Json
  import opened SortedNames
  import opened Skills
  import opened ManifestText
  import opened EnvelopeText

  /** What a caller appends, and the time of the append as its ISO 8601 text. */
  datatype Record = Record(
    tenant: string, correlation: string, kind: string, actor: string, details: Parameters, occurredAt: string)

  /** A SHA-256 digest in hexadecimal. */
  datatype Digest = Digest(hex: string)

  datatype Row = Row(sequence: int, item: Record, previousHash: Digest, eventHash: Digest)

  // ---- The hashed text

  function Dictionary(
    actor: string, correlation: string, details: Members, kind: string, occurredAt: string, previous: string,
    sequence: int,
    tenant: string): Json
  {
    Obj(Field("actor_id", Str(actor), Field("correlation_id", Str(correlation), Field("details", Obj(details),
        Field("event_type", Str(kind), Field("occurred_at", Str(occurredAt), Field("previous_hash", Str(previous),
        Field("sequence", Number(sequence), Field("tenant_id", Str(tenant), NoField)))))))))
  }

  function RecordJson(sequence: int, r: Record, previous: Digest): Json {
    SortedLists(r.details.Keys);
    Dictionary(r.actor, r.correlation, ParametersJson(Sorted(r.details.Keys), r.details), r.kind, r.occurredAt,
               previous.hex,
               sequence, r.tenant)
  }

  /** The hashed text: sequence, record and previous hash as JSON with sorted keys. */
  function RecordText(sequence: int, r: Record, previous: Digest): string {
    TextOf(RecordJson(sequence, r, previous))
  }

  lemma DictionaryInjective(
    a: string, b: string, c: Members, d: string, e: string, f: string, g: int, h: string,
    i: string, j: string, k: Members, l: string, m: string, n: string, o: int, p: string)
    requires Dictionary(a, b, c, d, e, f, g, h) == Dictionary(i, j, k, l, m, n, o, p)
    ensures a == i && b == j && c == k && d == l && e == m && f == n && g == o && h == p
  {
    IntTextInjective(g, o);
  }

  /** The text determines everything that is hashed. */
  lemma RecordTextInjective(m: int, r: Record, previous: Digest, n: int, q: Record, other: Digest)
    requires RecordText(m, r, previous) == RecordText(n, q, other)
    ensures m == n && r == q && previous == other
  {
    SortedLists(r.details.Keys);
    SortedLists(q.details.Keys);
    TextInjective(RecordJson(m, r, previous), RecordJson(n, q, other));
    DictionaryInjective(
      r.actor, r.correlation, ParametersJson(Sorted(r.details.Keys), r.details), r.kind, r.occurredAt, previous.hex, m,
      r.tenant,
      q.actor, q.correlation, ParametersJson(Sorted(q.details.Keys), q.details), q.kind, q.occurredAt, other.hex, n,
      q.tenant);
    ParametersSame(r.details, q.details);
  }

  // ---- The chain

  const ZEROS := Digest("0000000000000000000000000000000000000000000000000000000000000000")

  /** The digest of a record in its place in the chain. */
  type Hash = (int, Record, Digest) -> Digest

  /** Different contents have different digests, and none is 64 zeros. */
  ghost predicate Binding(hash: Hash) {
    && (forall m, r, p, n, q, o :: hash(m, r, p) == hash(n, q, o) ==> m == n && r == q && p == o)
    && forall m, r, p :: hash(m, r, p) != ZEROS
  }

  function TextHash(sha: string -> Digest): Hash {
    (sequence, r, previous) => sha(RecordText(sequence, r, previous))
  }

  /** SHA-256 is as good as ideal. */
  ghost predicate Ideal(sha: string -> Digest) {
    (forall x, y :: sha(x) == sha(y) ==> x == y) && forall x :: sha(x) != ZEROS
  }

  /** The canonical text passes on what SHA-256 has to offer. */
  lemma TextHashBinds(sha: string -> Digest)
    requires Ideal(sha)
    ensures Binding(TextHash(sha))
  {
    var hash := TextHash(sha);
    forall m, r, p, n, q, o | hash(m, r, p) == hash(n, q, o) ensures m == n && r == q && p == o {
      assert sha(RecordText(m, r, p)) == sha(RecordText(n, q, o));
      RecordTextInjective(m, r, p, n, q, o);
    }
    forall m, r, p ensures hash(m, r, p) != ZEROS {
      assert hash(m, r, p) == sha(RecordText(m, r, p));
    }
  }

  function PayloadHash(hash: Hash, row: Row): Digest {
    hash(row.sequence, row.item, row.previousHash)
  }

  /** The hash the next event must name as its predecessor. */
  function Head(rows: seq<Row>): Digest {
    if rows == [] then ZEROS else rows[|rows| - 1].eventHash
  }

  function Chained(hash: Hash, sequence: int, item: Record, previous: Digest): Row {
    Row.Row(sequence, item, previous, hash(sequence, item, previous))
  }

  function Appended(hash: Hash, rows: seq<Row>, item: Record): seq<Row> {
    rows + [Chained(hash, |rows| + 1, item, Head(rows))]
  }

  ghost predicate Verified(hash: Hash, rows: seq<Row>) {
    forall i :: 0 <= i < |rows| ==>
      rows[i].previousHash == Head(rows[..i]) && rows[i].eventHash == PayloadHash(hash, rows[i])
  }

  ghost predicate Numbered(rows: seq<Row>) {
    forall i :: 0 <= i < |rows| ==> rows[i].sequence == i + 1
  }

  /** The log that results from appending the items in order. */
  function Built(hash: Hash, items: seq<Record>): seq<Row> {
    if items == [] then [] else Appended(hash, Built(hash, items[..|items| - 1]), items[|items| - 1])
  }

  lemma AppendedVerifies(hash: Hash, rows: seq<Row>, item: Record)
    ensures Verified(hash, Appended(hash, rows, item)) <==> Verified(hash, rows)
  {
    var after := Appended(hash, rows, item);
    assert forall i :: 0 <= i <= |rows| ==> after[..i] == rows[..i];
    assert rows[..|rows|] == rows;
  }

  /** Every log built by append passes verification, numbers its events 1, 2, 3, ..., and records exactly the
      items appended. */
  lemma {:induction false} BuiltVerifies(hash: Hash, items: seq<Record>)
    ensures Verified(hash, Built(hash, items)) && Numbered(Built(hash, items))
    ensures |Built(hash, items)| == |items| && forall i :: 0 <= i < |items| ==> Built(hash, items)[i].item == items[i]
  {
    if items != [] {
      BuiltVerifies(hash, items[..|items| - 1]);
      AppendedVerifies(hash, Built(hash, items[..|items| - 1]), items[|items| - 1]);
    }
  }

  lemma BuiltNumbered(hash: Hash, items: seq<Record>)
    ensures Numbered(Built(hash, items))
  {
    BuiltVerifies(hash, items);
  }

  lemma SameDigestSameRow(hash: Hash, p: Row, q: Row)
    requires Binding(hash) && p.eventHash == PayloadHash(hash, p) && q.eventHash == PayloadHash(hash, q)
    requires p.eventHash == q.eventHash
    ensures p == q
  {
  }

  lemma HeadIsNotZeros(hash: Hash, rows: seq<Row>)
    requires Binding(hash) && Verified(hash, rows) && rows != []
    ensures Head(rows) != ZEROS
  {
  }

  lemma SameHeadSameLast(hash: Hash, a: seq<Row>, b: seq<Row>)
    requires Binding(hash) && Verified(hash, a) && Verified(hash, b) && Head(a) == Head(b) && a != [] && b != []
    ensures a[|a| - 1] == b[|b| - 1] && Head(a[..|a| - 1]) == Head(b[..|b| - 1])
  {
    SameDigestSameRow(hash, a[|a| - 1], b[|b| - 1]);
  }

  lemma {:induction false} BoundHistory(hash: Hash, a: seq<Row>, b: seq<Row>)
    requires Binding(hash) && Verified(hash, a) && Verified(hash, b) && Head(a) == Head(b)
    ensures a == b
  {
    if a == [] && b == [] {
    } else if a == [] {
      HeadIsNotZeros(hash, b);
    } else if b == [] {
      HeadIsNotZeros(hash, a);
    } else {
      var m, n := |a| - 1, |b| - 1;
      SameHeadSameLast(hash, a, b);
      VerifiedPrefix(hash, a, m);
      VerifiedPrefix(hash, b, n);
      BoundHistory(hash, a[..m], b[..n]);
      assert a == a[..m] + [a[m]] && b == b[..n] + [b[n]];
    }
  }

  /** A verified log binds its whole history: two accepted logs with the same last hash are the same log,
      event by event, whatever their lengths. */
  lemma HeadBindsHistory(sha: string -> Digest, a: seq<Row>, b: seq<Row>)
    requires Ideal(sha) && Verified(TextHash(sha), a) && Verified(TextHash(sha), b) && Head(a) == Head(b)
    ensures a == b
  {
    TextHashBinds(sha);
    BoundHistory(TextHash(sha), a, b);
  }

  /** What verification cannot see: any prefix of an accepted log is accepted, so a cut tail goes unnoticed. */
  lemma VerifiedPrefix(hash: Hash, rows: seq<Row>, n: nat)
    requires Verified(hash, rows) && n <= |rows|
    ensures Verified(hash, rows[..n])
  {
    assert forall i :: 0 <= i < n ==> rows[..n][..i] == rows[..i];
  }

  /** What it does see, exactly: a changed row in the middle is accepted only if every later hash changed too. */
  lemma ChangeMovesHead(sha: string -> Digest, a: seq<Row>, b: seq<Row>, i: nat)
    requires Ideal(sha) && Verified(TextHash(sha), a) && Verified(TextHash(sha), b) && |a| == |b| && i < |a|
        && a[i] != b[i]
    ensures forall k :: i < k <= |a| ==> Head(a[..k]) != Head(b[..k])
  {
    forall k | i < k <= |a| ensures Head(a[..k]) != Head(b[..k]) {
      VerifiedPrefix(TextHash(sha), a, k);
      VerifiedPrefix(TextHash(sha), b, k);
      assert a[..k][i] == a[i] && b[..k][i] == b[i];
      if Head(a[..k]) == Head(b[..k]) {
        HeadBindsHistory(sha, a[..k], b[..k]);
      }
    }
  }

  class InMemoryAuditLog {
    /** SHA-256 over the canonical text. */
    const hash: Hash
    var events: seq<Row>

    constructor (sha: string -> Digest)
      ensures events == [] && hash == TextHash(sha)
    {
      hash, events := TextHash(sha), [];
    }

    method Append(item: Record) returns (row: Row)
      modifies this
      ensures events == Appended(hash, old(events), item) && row == events[|events| - 1]
      ensures old(Verified(hash, events)) ==> Verified(hash, events)
    {
      AppendedVerifies(hash, events, item);
      var sequence := |events| + 1;
      var previous := if events != [] then events[|events| - 1].eventHash else ZEROS;
      row := Row.Row(sequence, item, previous, hash(sequence, item, previous));
      events := events + [row];
    }

    method VerifyChain() returns (ok: bool)
      ensures ok <==> Verified(hash, events)
    {
      var previous := ZEROS;
      for i := 0 to |events|
        invariant previous == Head(events[..i])
        invariant forall k :: 0 <= k < i ==>
          events[k].previousHash == Head(events[..k]) && events[k].eventHash == PayloadHash(hash, events[k])
      {
        if events[i].previousHash != previous {
          return false;
        }
        if PayloadHash(hash, events[i]) != events[i].eventHash {
          return false;
        }
        previous := events[i].eventHash;
      }
      return true;
    }
  }

  // ---- One table, many tenants

  function Of(rows: seq<Row>, tenant: string): seq<Row> {
    if rows == [] then []
    else
      var last := rows[|rows| - 1];
      Of(rows[..|rows| - 1], tenant) + (if last.item.tenant == tenant then [last] else [])
  }

  function ItemsOf(items: seq<Record>, tenant: string): seq<Record> {
    if items == [] then []
    else
      var last := items[|items| - 1];
      ItemsOf(items[..|items| - 1], tenant) + (if last.tenant == tenant then [last] else [])
  }

  /** The tenant's row with the highest sequence. */
  ghost predicate IsNewest(rows: seq<Row>, tenant: string, pick: Option<Row>) {
    match pick
    case None => forall row <- rows :: row.item.tenant != tenant
    case Some(newest) =>
      && newest in rows && newest.item.tenant == tenant
      && forall row <- rows :: row.item.tenant == tenant ==> row.sequence <= newest.sequence
  }

  function Inserted(hash: Hash, rows: seq<Row>, item: Record, pick: Option<Row>): seq<Row> {
    var sequence := if pick.None? then 1 else pick.value.sequence + 1;
    var previous := if pick.None? then ZEROS else pick.value.eventHash;
    rows + [Chained(hash, sequence, item, previous)]
  }

  lemma {:induction false} OfMembers(rows: seq<Row>, tenant: string, row: Row)
    ensures row in Of(rows, tenant) <==> row in rows && row.item.tenant == tenant
  {
    if rows != [] {
      var n := |rows| - 1;
      OfMembers(rows[..n], tenant, row);
      assert rows == rows[..n] + [rows[n]];
    }
  }

  lemma OfSnoc(rows: seq<Row>, row: Row, tenant: string)
    ensures Of(rows + [row], tenant) == Of(rows, tenant) + (if row.item.tenant == tenant then [row] else [])
  {
    assert (rows + [row])[..|rows|] == rows;
  }

  /** In a numbered chain the highest sequence is the last row. */
  lemma NewestIsLast(rows: seq<Row>, tenant: string, pick: Option<Row>)
    requires Numbered(Of(rows, tenant)) && IsNewest(rows, tenant, pick)
    ensures pick.None? <==> Of(rows, tenant) == []
    ensures pick.Some? ==> pick.value == Of(rows, tenant)[|Of(rows, tenant)| - 1]
  {
    var own := Of(rows, tenant);
    if own != [] {
      OfMembers(rows, tenant, own[|own| - 1]);
    }
    if pick.Some? {
      OfMembers(rows, tenant, pick.value);
      var i :| 0 <= i < |own| && own[i] == pick.value;
    }
  }

  /** One insert extends exactly one tenant's chain, by an in-memory append. */
  lemma InsertedChains(hash: Hash, rows: seq<Row>, item: Record, pick: Option<Row>, tenant: string)
    requires IsNewest(rows, item.tenant, pick) && Numbered(Of(rows, item.tenant))
    ensures Of(Inserted(hash, rows, item, pick), tenant) ==
            if item.tenant == tenant then Appended(hash, Of(rows, tenant), item) else Of(rows, tenant)
  {
    NewestIsLast(rows, item.tenant, pick);
    var sequence := if pick.None? then 1 else pick.value.sequence + 1;
    var previous := if pick.None? then ZEROS else pick.value.eventHash;
    var row := Chained(hash, sequence, item, previous);
    OfSnoc(rows, row, tenant);
    assert Inserted(hash, rows, item, pick) == rows + [row];
    if item.tenant == tenant {
      assert sequence == |Of(rows, tenant)| + 1 && previous == Head(Of(rows, tenant));
    }
  }

  /** One append by some tenant. */
  ghost predicate InsertedBy(hash: Hash, before: seq<Row>, item: Record, after: seq<Row>) {
    exists pick: Option<Row> :: IsNewest(before, item.tenant, pick) && after == Inserted(hash, before, item, pick)
  }

  ghost predicate InsertRun(hash: Hash, states: seq<seq<Row>>, items: seq<Record>) {
    && |states| == |items| + 1 && states[0] == []
    && forall i {:trigger items[i]} :: 0 <= i < |items| ==> InsertedBy(hash, states[i], items[i], states[i + 1])
  }

  lemma BuiltSnoc(hash: Hash, items: seq<Record>, item: Record)
    ensures Built(hash, items + [item]) == Appended(hash, Built(hash, items), item)
  {
    assert (items + [item])[..|items|] == items;
  }

  lemma ChainStep(hash: Hash, rows: seq<Row>, item: Record, after: seq<Row>, done: seq<Record>, tenant: string)
    requires InsertedBy(hash, rows, item, after)
    requires Of(rows, tenant) == Built(hash, ItemsOf(done, tenant))
    requires Of(rows, item.tenant) == Built(hash, ItemsOf(done, item.tenant))
    ensures Of(after, tenant) == Built(hash, ItemsOf(done + [item], tenant))
  {
    var pick: Option<Row> :| IsNewest(rows, item.tenant, pick) && after == Inserted(hash, rows, item, pick);
    BuiltNumbered(hash, ItemsOf(done, item.tenant));
    InsertedChains(hash, rows, item, pick, tenant);
    assert (done + [item])[..|done|] == done;
    if item.tenant == tenant {
      BuiltSnoc(hash, ItemsOf(done, tenant), item);
    } else {
      assert ItemsOf(done, tenant) + [] == ItemsOf(done, tenant);
    }
  }

  /** Every tenant's rows are what its own items build. */
  ghost predicate AllBuilt(hash: Hash, rows: seq<Row>, items: seq<Record>) {
    forall tenant :: Of(rows, tenant) == Built(hash, ItemsOf(items, tenant))
  }

  lemma AllChainsStep(hash: Hash, rows: seq<Row>, item: Record, after: seq<Row>, done: seq<Record>)
    requires InsertedBy(hash, rows, item, after) && AllBuilt(hash, rows, done)
    ensures AllBuilt(hash, after, done + [item])
  {
    forall tenant ensures Of(after, tenant) == Built(hash, ItemsOf(done + [item], tenant)) {
      ChainStep(hash, rows, item, after, done, tenant);
    }
  }

  lemma {:induction false} ChainsAreBuilt(hash: Hash, states: seq<seq<Row>>, items: seq<Record>, n: nat)
    requires InsertRun(hash, states, items) && n <= |items|
    ensures AllBuilt(hash, states[n], items[..n])
  {
    if n > 0 {
      ChainsAreBuilt(hash, states, items, n - 1);
      AllChainsStep(hash, states[n - 1], items[n - 1], states[n], items[..n - 1]);
      assert items[..n - 1] + [items[n - 1]] == items[..n];
    }
  }

  /** For any interleaving of appends by many tenants, each tenant's rows are the log its own events alone
      would have built: unaffected by the others, numbered without gaps, and verified. */
  lemma TenantChainsAreIndependent(hash: Hash, states: seq<seq<Row>>, items: seq<Record>, n: nat, tenant: string)
    requires InsertRun(hash, states, items) && n <= |items|
    ensures Of(states[n], tenant) == Built(hash, ItemsOf(items[..n], tenant))
    ensures Verified(hash, Of(states[n], tenant)) && Numbered(Of(states[n], tenant))
  {
    ChainsAreBuilt(hash, states, items, n);
    BuiltVerifies(hash, ItemsOf(items[..n], tenant));
  }

  class SqlAuditLog {
    /** SHA-256 over the canonical text. */
    const hash: Hash
    var rows: seq<Row>

    constructor (sha: string -> Digest)
      ensures rows == [] && hash == TextHash(sha)
    {
      hash, rows := TextHash(sha), [];
    }

    method Newest(tenant: string) returns (pick: Option<Row>)
      ensures IsNewest(rows, tenant, pick)
    {
      pick := None;
      for i := 0 to |rows|
        invariant IsNewest(rows[..i], tenant, pick)
      {
        assert rows[..i + 1] == rows[..i] + [rows[i]];
        if rows[i].item.tenant == tenant && (pick.None? || pick.value.sequence < rows[i].sequence) {
          pick := Some(rows[i]);
        }
      }
      assert rows[..|rows|] == rows;
    }

    method Append(item: Record)
      requires Numbered(Of(rows, item.tenant))
      modifies this
      ensures Of(rows, item.tenant) == Appended(hash, old(Of(rows, item.tenant)), item)
      ensures forall other :: other != item.tenant ==> Of(rows, other) == old(Of(rows, other))
    {
      var newest := Newest(item.tenant);
      var sequence, previous := 1, ZEROS;
      if newest.Some? {
        sequence, previous := newest.value.sequence + 1, newest.value.eventHash;
      }
      ghost var before := rows;
      InsertedChains(hash, before, item, newest, item.tenant);
      forall other | other != item.tenant ensures Of(Inserted(hash, before, item, newest), other) == Of(before, other) {
        InsertedChains(hash, before, item, newest, other);
      }
      rows := rows + [Chained(hash, sequence, item, previous)];
    }
  }
}

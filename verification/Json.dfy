/** json.dumps with the tight separators, and why its text determines the value (agent_common/signing.py,
    helpdesktool/skills.py). Objects hold their fields in the order written. */
module Json {

  predicate NumeralChar(c: char) {
    '0' <= c <= '9' || c in {'-', '+', '.', 'e', 'E'}
  }

  predicate IsNumeral(s: string) {
    s != "" && (s[0] == '-' || '0' <= s[0] <= '9') && forall i :: 0 <= i < |s| ==> NumeralChar(s[i])
  }

  /** The text of a finite number. */
  type NumeralText = s: string | IsNumeral(s) witness "0"

  datatype Json =
    | Null | Bool(b: bool) | Numeral(digits: NumeralText) | Str(s: string) | Arr(items: Items) | Obj(fields: Members)

  datatype Items = NoItem | Item(head: Json, rest: Items)

  datatype Members = NoField | Field(name: string, value: Json, more: Members)

  // ---- Strings

  function HexDigit(n: nat): char
    requires n < 16
  {
    if n < 10 then ('0' as int + n) as char else ('a' as int + n - 10) as char
  }

  /** One UTF-16 code unit as \uXXXX. */
  function Unit(n: nat): (s: string)
    requires n < 0x10000
    ensures |s| == 6
  {
    ['\\', 'u', HexDigit(n / 4096), HexDigit(n / 256 % 16), HexDigit(n / 16 % 16), HexDigit(n % 16)]
  }

  /** The two-character escapes. */
  function Short(c: char): char {
    if c == '\n' then 'n' else if c == '\r' then 'r' else if c == '\t' then 't'
    else if c as int == 8 then 'b' else if c as int == 12 then 'f' else c
  }

  predicate HasShort(c: char) {
    c in {'"', '\\', '\n', '\r', '\t'} || c as int == 8 || c as int == 12
  }

  /** ensure_ascii: anything but printable ASCII becomes one or two code units. */
  function EscapeChar(c: char): string {
    if HasShort(c) then ['\\', Short(c)]
    else if 32 <= c as int < 127 then [c]
    else if c as int < 0x10000 then Unit(c as int)
    else
      var n := c as int - 0x10000;
      Unit(0xD800 + n / 1024) + Unit(0xDC00 + n % 1024)
  }

  function Escape(s: string): string {
    if s == "" then "" else EscapeChar(s[0]) + Escape(s[1..])
  }

  function Quote(s: string): string {
    "\"" + (Escape(s) + "\"")
  }

  // ---- Values

  function TextOf(j: Json): string {
    match j
    case Null => "null"
    case Bool(b) => if b then "true" else "false"
    case Numeral(digits) => digits
    case Str(s) => Quote(s)
    case Arr(items) => "[" + (ItemsText(items) + "]")
    case Obj(fields) => "{" + (FieldsText(fields) + "}")
  }

  function ItemsText(items: Items): string {
    match items
    case NoItem => ""
    case Item(head, rest) => TextOf(head) + (if rest.NoItem? then "" else "," + ItemsText(rest))
  }

  function FieldsText(fields: Members): string {
    match fields
    case NoField => ""
    case Field(name, value, more) =>
        Quote(name) + (":" + (TextOf(value) + (if more.NoField? then "" else "," + FieldsText(more))))
  }

  // ---- Strings can be read back

  lemma HexInjective(m: nat, n: nat)
    requires m < 16 && n < 16 && HexDigit(m) == HexDigit(n)
    ensures m == n
  {
  }

  lemma HexSum(n: nat)
    requires n < 0x10000
    ensures n == n / 4096 * 4096 + n / 256 % 16 * 256 + n / 16 % 16 * 16 + n % 16
  {
    var a, b := n / 16, n / 256;
    assert n == a * 16 + n % 16;
    assert a / 16 == b && a == b * 16 + a % 16;
    assert b / 16 == n / 4096 && b == b / 16 * 16 + b % 16;
  }

  lemma UnitPrefix(m: nat, n: nat, x: string, y: string)
    requires m < 0x10000 && n < 0x10000 && Unit(m) + x == Unit(n) + y
    ensures m == n && x == y
  {
    var u, v := Unit(m) + x, Unit(n) + y;
    assert u[2] == Unit(m)[2] && u[3] == Unit(m)[3] && u[4] == Unit(m)[4] && u[5] == Unit(m)[5];
    assert v[2] == Unit(n)[2] && v[3] == Unit(n)[3] && v[4] == Unit(n)[4] && v[5] == Unit(n)[5];
    HexInjective(m / 4096, n / 4096);
    HexInjective(m / 256 % 16, n / 256 % 16);
    HexInjective(m / 16 % 16, n / 16 % 16);
    HexInjective(m % 16, n % 16);
    HexSum(m);
    HexSum(n);
    assert u[6..] == x && v[6..] == y;
  }

  /** The first code unit of an escaped character, if it is written as code units. */
  function FirstUnit(c: char): nat {
    if c as int < 0x10000 then c as int else 0xD800 + (c as int - 0x10000) / 1024
  }

  function LaterUnits(c: char): string {
    if c as int < 0x10000 then "" else Unit(0xDC00 + (c as int - 0x10000) % 1024)
  }

  predicate AsUnits(c: char) {
    !HasShort(c) && !(32 <= c as int < 127)
  }

  lemma UnitsSplit(c: char, x: string)
    requires AsUnits(c)
    ensures EscapeChar(c) + x == Unit(FirstUnit(c)) + (LaterUnits(c) + x)
  {
  }

  lemma PairPrefix(m: nat, n: nat, x: string, y: string)
    requires m < 0x100000 && n < 0x100000 && m / 1024 == n / 1024
    requires Unit(0xDC00 + m % 1024) + x == Unit(0xDC00 + n % 1024) + y
    ensures m == n && x == y
  {
    UnitPrefix(0xDC00 + m % 1024, 0xDC00 + n % 1024, x, y);
    assert m == m / 1024 * 1024 + m % 1024 && n == n / 1024 * 1024 + n % 1024;
  }

  lemma UnitsPrefix(c: char, d: char, x: string, y: string)
    requires AsUnits(c) && AsUnits(d) && EscapeChar(c) + x == EscapeChar(d) + y
    ensures c == d && x == y
  {
    UnitsSplit(c, x);
    UnitsSplit(d, y);
    UnitPrefix(FirstUnit(c), FirstUnit(d), LaterUnits(c) + x, LaterUnits(d) + y);
    NoSurrogate(c);
    NoSurrogate(d);
    if c as int >= 0x10000 {
      PairPrefix(c as int - 0x10000, d as int - 0x10000, x, y);
    } else {
      assert LaterUnits(c) + x == x && LaterUnits(d) + y == y;
    }
  }

  /** A character is no surrogate, so a first unit tells whether a second one follows. */
  lemma NoSurrogate(c: char)
    ensures 0xD800 <= FirstUnit(c) < 0xDC00 <==> c as int >= 0x10000
  {
    var n := c as int;
    assert n < 0xD800 || 0xE000 <= n < 0x110000;
  }

  lemma Begins(a: string, x: string)
    ensures a == "" ==> a + x == x
    ensures forall i :: 0 <= i < |a| ==> (a + x)[i] == a[i]
    ensures forall i :: 0 <= i < |x| ==> (a + x)[|a| + i] == x[i]
    ensures (a + x)[|a|..] == x
  {
  }

  lemma EscapeStart(c: char)
    ensures |EscapeChar(c)| > 0 && EscapeChar(c)[0] != '"'
    ensures EscapeChar(c)[0] == '\\' <==> HasShort(c) || AsUnits(c)
    ensures EscapeChar(c)[0] == '\\' ==> |EscapeChar(c)| > 1 && (EscapeChar(c)[1] == 'u' <==> AsUnits(c))
  {
  }

  /** No escaped character is the beginning of another. */
  lemma EscapeCharPrefix(c: char, d: char, x: string, y: string)
    requires EscapeChar(c) + x == EscapeChar(d) + y
    ensures c == d && x == y
  {
    EscapeStart(c);
    EscapeStart(d);
    Begins(EscapeChar(c), x);
    Begins(EscapeChar(d), y);
    var u := EscapeChar(c) + x;
    assert u[0] == EscapeChar(c)[0] == EscapeChar(d)[0];
    assert u[0] == '\\' ==> u[1] == EscapeChar(c)[1] == EscapeChar(d)[1];
    if AsUnits(c) && AsUnits(d) {
      UnitsPrefix(c, d, x, y);
    }
  }

  /** Escaped text before its closing quote. */
  lemma EscapeSplit(s: string, x: string)
    requires s != ""
    ensures Escape(s) + x == EscapeChar(s[0]) + (Escape(s[1..]) + x)
    ensures (Escape(s) + x)[0] != '"'
  {
    EscapeStart(s[0]);
    Begins(EscapeChar(s[0]), Escape(s[1..]) + x);
  }

  lemma {:induction false} EscapePrefix(s: string, t: string, x: string, y: string)
    requires x != "" && x[0] == '"' && y != "" && y[0] == '"' && Escape(s) + x == Escape(t) + y
    ensures s == t && x == y
  {
    if s != "" {
      EscapeSplit(s, x);
    }
    if t != "" {
      EscapeSplit(t, y);
    }
    Begins("", x);
    Begins("", y);
    if s != "" && t != "" {
      EscapeCharPrefix(s[0], t[0], Escape(s[1..]) + x, Escape(t[1..]) + y);
      EscapePrefix(s[1..], t[1..], x, y);
      assert s == [s[0]] + s[1..] && t == [t[0]] + t[1..];
    }
  }

  lemma QuotePrefix(s: string, t: string, x: string, y: string)
    requires Quote(s) + x == Quote(t) + y
    ensures s == t && x == y
  {
    assert Quote(s) + x == "\"" + (Escape(s) + ("\"" + x));
    assert Quote(t) + y == "\"" + (Escape(t) + ("\"" + y));
    assert ("\"" + (Escape(s) + ("\"" + x)))[1..] == Escape(s) + ("\"" + x);
    assert ("\"" + (Escape(t) + ("\"" + y)))[1..] == Escape(t) + ("\"" + y);
    EscapePrefix(s, t, "\"" + x, "\"" + y);
    assert ("\"" + x)[1..] == x && ("\"" + y)[1..] == y;
  }

  // ---- Values can be read back

  /** What may follow a value: nothing, or a character no number contains. */
  predicate Stops(x: string) {
    x == "" || !NumeralChar(x[0])
  }

  lemma {:induction false} NumeralPrefix(a: string, b: string, x: string, y: string)
    requires (forall i :: 0 <= i < |a| ==> NumeralChar(a[i])) && (forall i :: 0 <= i < |b| ==> NumeralChar(b[i]))
    requires Stops(x) && Stops(y) && a + x == b + y
    ensures a == b && x == y
  {
    Begins(a, x);
    Begins(b, y);
    if a != "" && b != "" {
      assert (a + x)[1..] == a[1..] + x && (b + y)[1..] == b[1..] + y;
      NumeralPrefix(a[1..], b[1..], x, y);
      assert a == [a[0]] + a[1..] && b == [b[0]] + b[1..];
    }
  }

  /** The first character tells what kind of value follows. */
  lemma KindOfText(j: Json)
    ensures TextOf(j) != ""
    ensures
      var c := TextOf(j)[0];
      && (c == 'n' <==> j.Null?) && (c == 't' <==> j == Bool(true)) && (c == 'f' <==> j == Bool(false))
      && (c == '"' <==> j.Str?) && (c == '[' <==> j.Arr?) && (c == '{' <==> j.Obj?)
      && (j.Numeral? <==> c == '-' || '0' <= c <= '9')
  {
  }

  lemma ArrText(items: Items, x: string)
    ensures (TextOf(Arr(items)) + x)[1..] == ItemsText(items) + ("]" + x)
  {
  }

  lemma ObjText(fields: Members, x: string)
    ensures (TextOf(Obj(fields)) + x)[1..] == FieldsText(fields) + ("}" + x)
  {
  }

  /** Equal texts begin with the same kind of value. */
  lemma SameKind(j: Json, k: Json, x: string, y: string)
    requires TextOf(j) + x == TextOf(k) + y
    ensures j.Null? <==> k.Null?
    ensures j.Bool? || k.Bool? ==> j == k
    ensures (j.Numeral? <==> k.Numeral?) && (j.Str? <==> k.Str?) && (j.Arr? <==> k.Arr?) && (j.Obj? <==> k.Obj?)
  {
    KindOfText(j);
    KindOfText(k);
    Begins(TextOf(j), x);
    Begins(TextOf(k), y);
    assert TextOf(j)[0] == TextOf(k)[0];
  }

  /** No value's text is the beginning of another's, so the text determines the value and what follows. */
  lemma {:induction false} TextPrefix(j: Json, k: Json, x: string, y: string)
    requires Stops(x) && Stops(y) && TextOf(j) + x == TextOf(k) + y
    ensures j == k && x == y
  {
    SameKind(j, k, x, y);
    match j
    case Null => SameTail(TextOf(j), x, y);
    case Bool(b) => SameTail(TextOf(j), x, y);
    case Numeral(digits) => NumeralPrefix(digits, k.digits, x, y);
    case Str(s) => QuotePrefix(s, k.s, x, y);
    case Arr(items) =>
      ArrText(items, x);
      ArrText(k.items, y);
      ItemsPrefix(items, k.items, "]" + x, "]" + y);
      SameTail("]", x, y);
    case Obj(fields) =>
      ObjText(fields, x);
      ObjText(k.fields, y);
      FieldsPrefix(fields, k.fields, "}" + x, "}" + y);
      SameTail("}", x, y);
  }

  lemma SameTail(a: string, x: string, y: string)
    requires a + x == a + y
    ensures x == y
  {
    Begins(a, x);
    Begins(a, y);
  }

  function Tail(rest: Items, x: string): string {
    if rest.NoItem? then x else "," + (ItemsText(rest) + x)
  }

  lemma ItemsSplit(head: Json, rest: Items, x: string)
    ensures ItemsText(Item(head, rest)) + x == TextOf(head) + Tail(rest, x)
  {
  }

  lemma ItemsStart(a: Items, x: string)
    requires x != "" && x[0] == ']'
    ensures a.NoItem? ==> ItemsText(a) + x == x
    ensures ItemsText(a) + x != "" && (a.NoItem? <==> (ItemsText(a) + x)[0] == ']')
  {
    if a.Item? {
      ItemsSplit(a.head, a.rest, x);
      KindOfText(a.head);
      Begins(TextOf(a.head), Tail(a.rest, x));
    } else {
      Begins("", x);
    }
  }

  lemma TailStart(rest: Items, x: string)
    requires x != "" && x[0] == ']'
    ensures Tail(rest, x) != "" && Tail(rest, x)[0] == if rest.NoItem? then ']' else ','
    ensures rest.Item? ==> Tail(rest, x)[1..] == ItemsText(rest) + x
  {
  }

  lemma {:induction false} ItemsPrefix(a: Items, b: Items, x: string, y: string)
    requires x != "" && x[0] == ']' && y != "" && y[0] == ']' && ItemsText(a) + x == ItemsText(b) + y
    ensures a == b && x == y
  {
    ItemsStart(a, x);
    ItemsStart(b, y);
    if a.Item? {
      ItemsSplit(a.head, a.rest, x);
      ItemsSplit(b.head, b.rest, y);
      TailStart(a.rest, x);
      TailStart(b.rest, y);
      TextPrefix(a.head, b.head, Tail(a.rest, x), Tail(b.rest, y));
      if a.rest.Item? {
        ItemsPrefix(a.rest, b.rest, x, y);
      }
    }
  }

  function FieldsTail(more: Members, x: string): string {
    if more.NoField? then x else "," + (FieldsText(more) + x)
  }

  lemma FieldsSplit(name: string, value: Json, more: Members, x: string)
    ensures FieldsText(Field(name, value, more)) + x == Quote(name) + (":" + (TextOf(value) + FieldsTail(more, x)))
  {
  }

  lemma FieldsStart(a: Members, x: string)
    requires x != "" && x[0] == '}'
    ensures a.NoField? ==> FieldsText(a) + x == x
    ensures FieldsText(a) + x != "" && (FieldsText(a) + x)[0] == if a.NoField? then '}' else '"'
  {
    if a.Field? {
      FieldsSplit(a.name, a.value, a.more, x);
    } else {
      Begins("", x);
    }
  }

  lemma FieldsTailStart(more: Members, x: string)
    requires x != "" && x[0] == '}'
    ensures FieldsTail(more, x) != "" && FieldsTail(more, x)[0] == if more.NoField? then '}' else ','
    ensures more.Field? ==> FieldsTail(more, x)[1..] == FieldsText(more) + x
  {
  }

  lemma {:induction false} FieldsPrefix(a: Members, b: Members, x: string, y: string)
    requires x != "" && x[0] == '}' && y != "" && y[0] == '}' && FieldsText(a) + x == FieldsText(b) + y
    ensures a == b && x == y
  {
    FieldsStart(a, x);
    FieldsStart(b, y);
    if a.Field? {
      var p, q := TextOf(a.value) + FieldsTail(a.more, x), TextOf(b.value) + FieldsTail(b.more, y);
      FieldsSplit(a.name, a.value, a.more, x);
      FieldsSplit(b.name, b.value, b.more, y);
      QuotePrefix(a.name, b.name, ":" + p, ":" + q);
      SameTail(":", p, q);
      FieldsTailStart(a.more, x);
      FieldsTailStart(b.more, y);
      TextPrefix(a.value, b.value, FieldsTail(a.more, x), FieldsTail(b.more, y));
      if a.more.Field? {
        FieldsPrefix(a.more, b.more, x, y);
      }
    }
  }

  /** Different values have different texts. */
  lemma TextInjective(j: Json, k: Json)
    requires TextOf(j) == TextOf(k)
    ensures j == k
  {
    assert TextOf(j) + "" == TextOf(j) && TextOf(k) + "" == TextOf(k);
    TextPrefix(j, k, "", "");
  }
}

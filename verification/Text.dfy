/** Decimal numerals and the colon- and dash-separated identifiers the platform builds with them. */
module Text {

  datatype Option<+T> = None | Some(value: T)

  function Digit(d: nat): char
    requires d < 10
  {
    ('0' as int + d) as char
  }

  /** Python's `str(n)` for a non-negative integer. */
  function Decimal(n: nat): (s: string)
    ensures s != [] && forall i :: 0 <= i < |s| ==> '0' <= s[i] <= '9'
  {
    if n < 10 then [Digit(n)] else Decimal(n / 10) + [Digit(n % 10)]
  }

  /** Python's `int(s)` on a string of decimal digits; anything else is refused. */
  function ParseDecimal(s: string): Option<nat>
  {
    if s == [] then None
    else
      var last := s[|s| - 1];
      if !('0' <= last <= '9') then None
      else if |s| == 1 then Some(last as int - '0' as int)
      else match ParseDecimal(s[..|s| - 1])
        case None => None
        case Some(high) => Some(10 * high + (last as int - '0' as int))
  }

  lemma {:induction false} ParseInvertsDecimal(n: nat)
    ensures ParseDecimal(Decimal(n)) == Some(n)
  {
    if n >= 10 {
      ParseInvertsDecimal(n / 10);
      assert Decimal(n)[..|Decimal(n)| - 1] == Decimal(n / 10);
    }
  }

  /** Python's `str(n)` for any integer. */
  function IntText(n: int): string {
    if n < 0 then "-" + Decimal(-n) else Decimal(n)
  }

  lemma DecimalInjective(m: nat, n: nat)
    requires Decimal(m) == Decimal(n)
    ensures m == n
  {
    ParseInvertsDecimal(m);
    ParseInvertsDecimal(n);
  }

  lemma IntTextInjective(m: int, n: int)
    requires IntText(m) == IntText(n)
    ensures m == n
  {
    assert (IntText(m)[0] == '-') == (m < 0) && (IntText(n)[0] == '-') == (n < 0);
    if m < 0 {
      assert IntText(m)[1..] == Decimal(-m) && IntText(n)[1..] == Decimal(-n);
      DecimalInjective(-m, -n);
    } else {
      DecimalInjective(m, n);
    }
  }

  /** A separator that occurs in neither head splits a text in one way only. */
  lemma SplitUnique(c: char, a: string, x: string, b: string, y: string)
    requires c !in a && c !in b
    requires a + [c] + x == b + [c] + y
    ensures a == b && x == y
  {
    var whole := a + [c] + x;
    assert whole[|a|] == c && whole[|b|] == c;
    assert |a| == |b|;
    assert whole[..|a|] == a && whole[..|b|] == b;
    assert whole[|a| + 1..] == x && whole[|b| + 1..] == y;
  }

  /** The message under the claim-token MAC: `action:attempt:key`. */
  function TokenMessage(action: string, attempt: nat, key: string): string {
    action + ":" + (Decimal(attempt) + ":" + key)
  }

  lemma TokenMessageInjective(a: string, m: nat, k: string, b: string, n: nat, l: string)
    requires ':' !in a && ':' !in b
    requires TokenMessage(a, m, k) == TokenMessage(b, n, l)
    ensures a == b && m == n && k == l
  {
    SplitUnique(':', a, Decimal(m) + ":" + k, b, Decimal(n) + ":" + l);
    SplitUnique(':', Decimal(m), k, Decimal(n), l);
    DecimalInjective(m, n);
  }

  /** For one action the message names its attempt, whatever its id looks like. */
  lemma TokenMessageAttempt(a: string, m: nat, k: string, n: nat, l: string)
    requires TokenMessage(a, m, k) == TokenMessage(a, n, l)
    ensures m == n
  {
    var x, y := Decimal(m) + ":" + k, Decimal(n) + ":" + l;
    assert (a + ":" + x)[|a| + 1..] == x && (a + ":" + y)[|a| + 1..] == y;
    assert TokenMessage(a, m, k) == a + ":" + x && TokenMessage(a, n, l) == a + ":" + y;
    SplitUnique(':', Decimal(m), k, Decimal(n), l);
    DecimalInjective(m, n);
  }

  /** `job_id`: one per claim attempt. */
  function JobId(action: string, attempt: nat): string {
    action + ":" + Decimal(attempt)
  }

  lemma JobIdInjective(a: string, m: nat, b: string, n: nat)
    requires ':' !in a && ':' !in b
    requires JobId(a, m) == JobId(b, n)
    ensures a == b && m == n
  {
    SplitUnique(':', a, Decimal(m), b, Decimal(n));
    DecimalInjective(m, n);
  }

  /** The agent's idempotency key for claiming: fixed per action, not per attempt. */
  function ClaimKey(action: string): string {
    "claim-" + action
  }

  /** The agent's idempotency key for reporting one attempt. */
  function ResultKey(action: string, attempt: nat): string {
    "result-" + action + "-" + Decimal(attempt)
  }

  function Reverse(s: string): (r: string)
    ensures |r| == |s| && forall i :: 0 <= i < |s| ==> r[i] == s[|s| - 1 - i]
  {
    if s == [] then [] else Reverse(s[1..]) + [s[0]]
  }

  /** Action ids contain dashes, so a result key splits at its last dash, not its first. */
  lemma ResultKeyInjective(a: string, m: nat, b: string, n: nat)
    requires ResultKey(a, m) == ResultKey(b, n)
    ensures a == b && m == n
  {
    var whole := Reverse(ResultKey(a, m));
    ReverseSplit("result-" + a, Decimal(m));
    ReverseSplit("result-" + b, Decimal(n));
    SplitUnique('-', Reverse(Decimal(m)), Reverse("result-" + a), Reverse(Decimal(n)), Reverse("result-" + b));
    ReverseInjective(Decimal(m), Decimal(n));
    ReverseInjective("result-" + a, "result-" + b);
    assert ("result-" + a)[7..] == a && ("result-" + b)[7..] == b;
    DecimalInjective(m, n);
  }

  lemma ReverseSplit(head: string, tail: string)
    ensures Reverse(head + "-" + tail) == Reverse(tail) + "-" + Reverse(head)
  {
  }

  lemma ReverseInjective(s: string, t: string)
    requires Reverse(s) == Reverse(t)
    ensures s == t
  {
    assert |s| == |t|;
    forall i | 0 <= i < |s| ensures s[i] == t[i] {
      assert Reverse(s)[|s| - 1 - i] == s[i];
      assert Reverse(t)[|s| - 1 - i] == t[i];
    }
  }
}

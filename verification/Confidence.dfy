/** The evidence-based confidence score (helpdesktool/confidence.py), in exact arithmetic. */
module Confidence {
  import opened Rounding

  datatype Thresholds = Thresholds(medium: real, high: real, veryHigh: real) {
    /** What the constructor accepts. */
    predicate Accepted() {
      0.0 < medium < high < veryHigh <= 1.0
    }
  }

  const DEFAULT_THRESHOLDS := Thresholds(0.40, 0.70, 0.90)

  datatype Evidence = Evidence(
    present: int, total: int, supporting: int, contradicting: int, missing: int,
    source: real, telemetry: real, baseline: int)
  {
    /** What the constructor accepts. */
    predicate Accepted() {
      && 0.0 <= source <= 1.0 && 0.0 <= telemetry <= 1.0
      && 0 <= present <= total
      && 0 <= supporting && 0 <= contradicting && 0 <= missing && 0 <= baseline
    }
  }

  datatype Band = Low | Medium | High | VeryHigh

  function BandFor(score: real, t: Thresholds): Band {
    if score >= t.veryHigh then VeryHigh
    else if score >= t.high then High
    else if score >= t.medium then Medium
    else Low
  }

  function Diminishing(count: int): real {
    if count > 0 then count as real / (count + 2) as real else 0.0
  }

  function Base(e: Evidence): real {
    if e.total > 0 then e.present as real / e.total as real else 0.5
  }

  function Sum(e: Evidence): real {
    Base(e) + 0.35 * Diminishing(e.supporting) + 0.1 * Diminishing(e.baseline)
    - 0.5 * Diminishing(e.contradicting) - 0.1 * Diminishing(e.missing)
  }

  function Clamp(x: real): real {
    if x < 0.0 then 0.0 else if x > 1.0 then 1.0 else x
  }

  /** round(x, 4) */
  function Round4(x: real): real {
    RoundHalfEven(x * 10000.0) as real / 10000.0
  }

  function Capped(contradicting: int, score: real): real {
    if contradicting > 0 && score > 0.69 then 0.69 else score
  }

  function Scaled(raw: real, reliability: real): real {
    Round4(raw * reliability)
  }

  function Reliability(e: Evidence): real {
    e.source * e.telemetry
  }

  function Score(e: Evidence): real {
    Capped(e.contradicting, Scaled(Clamp(Sum(e)), Reliability(e)))
  }

  /** The bands partition the scores at the thresholds, each threshold in the band it opens. */
  lemma BandsExactly(score: real, t: Thresholds)
    requires t.Accepted()
    ensures BandFor(score, t) == Low <==> score < t.medium
    ensures BandFor(score, t) == Medium <==> t.medium <= score < t.high
    ensures BandFor(score, t) == High <==> t.high <= score < t.veryHigh
    ensures BandFor(score, t) == VeryHigh <==> t.veryHigh <= score
  {
  }

  // ---- Arithmetic steps

  lemma Ratio(a: real, b: real, c: real, d: real)
    requires b > 0.0 && d > 0.0 && a * d <= c * b
    ensures a / b <= c / d
  {
    assert a * d / (b * d) == a / b;
    assert c * b / (b * d) == c / d;
  }

  lemma DiminishingMonotone(m: int, n: int)
    requires m <= n
    ensures 0.0 <= Diminishing(m) <= Diminishing(n) < 1.0
  {
    if m > 0 {
      var x, y := m as real, n as real;
      assert x * (y + 2.0) == x * y + 2.0 * x && y * (x + 2.0) == x * y + 2.0 * y;
      Ratio(x, x + 2.0, y, y + 2.0);
    }
  }

  lemma BaseMonotone(e: Evidence, f: Evidence)
    requires e.Accepted() && f.Accepted() && e.total == f.total && e.present <= f.present
    ensures Base(e) <= Base(f)
  {
    if e.total > 0 {
      var n := e.total as real;
      assert e.present as real * n <= f.present as real * n;
      Ratio(e.present as real, n, f.present as real, n);
    }
  }

  lemma ProductMonotone(a: real, b: real, c: real, d: real)
    requires 0.0 <= a <= c && 0.0 <= b <= d
    ensures 0.0 <= a * b <= c * d
  {
    assert a * b <= c * b;
    assert c * b <= c * d;
  }

  lemma Round4Monotone(x: real, y: real)
    requires x <= y
    ensures Round4(x) <= Round4(y)
  {
    RoundMonotone(x * 10000.0, y * 10000.0);
  }

  /** Rounding leaves a multiple of 0.0001 alone, so a bound that is one survives it. */
  lemma Round4Fixes(n: int)
    ensures Round4(n as real / 10000.0) == n as real / 10000.0
  {
    RoundFixesIntegers(n);
  }

  lemma Round4AtMost(x: real, n: int)
    requires x <= n as real / 10000.0
    ensures Round4(x) <= n as real / 10000.0
  {
    Round4Monotone(x, n as real / 10000.0);
    Round4Fixes(n);
  }

  lemma Round4AtLeastZero(x: real)
    requires 0.0 <= x
    ensures 0.0 <= Round4(x)
  {
    Round4Monotone(0.0, x);
    Round4Fixes(0);
  }

  lemma ProductAtMost(x: real, r: real)
    requires 0.0 <= x && 0.0 <= r <= 1.0
    ensures 0.0 <= x * r <= x
  {
  }

  // ---- The score

  lemma ScaledMonotone(x: real, r: real, y: real, q: real)
    requires 0.0 <= x <= y && 0.0 <= r <= q
    ensures Scaled(x, r) <= Scaled(y, q)
  {
    ProductMonotone(x, r, y, q);
    Round4Monotone(x * r, y * q);
  }

  lemma ScaledBounds(x: real, r: real, n: nat)
    requires 0.0 <= x <= n as real / 10000.0 && 0.0 <= r <= 1.0
    ensures 0.0 <= Scaled(x, r) <= n as real / 10000.0
  {
    ProductAtMost(x, r);
    Round4AtMost(x * r, n);
    Round4AtLeastZero(x * r);
  }

  lemma ReliabilityMonotone(e: Evidence, f: Evidence)
    requires e.Accepted() && f.Accepted() && e.source <= f.source && e.telemetry <= f.telemetry
    ensures 0.0 <= Reliability(e) <= Reliability(f) <= 1.0
  {
    ProductMonotone(e.source, e.telemetry, f.source, f.telemetry);
    ProductMonotone(f.source, f.telemetry, 1.0, 1.0);
  }

  lemma ScoreBounds(e: Evidence, n: nat)
    requires e.Accepted() && Clamp(Sum(e)) <= n as real / 10000.0
    ensures 0.0 <= Score(e) <= n as real / 10000.0
  {
    ReliabilityMonotone(e, e);
    ScaledBounds(Clamp(Sum(e)), Reliability(e), n);
  }

  /** Every accepted evidence scores within [0, 1]. */
  lemma ScoreIsUnit(e: Evidence)
    requires e.Accepted()
    ensures 0.0 <= Score(e) <= 1.0
  {
    ScoreBounds(e, 10000);
  }

  /** Uncontradicted evidence scores its clamped and scaled sum, to the nearest multiple of 0.0001. */
  lemma ScoreIsNearest(e: Evidence)
    requires e.Accepted() && e.contradicting == 0
    ensures Clamp(Sum(e)) * Reliability(e) - 0.00005 <= Score(e) <= Clamp(Sum(e)) * Reliability(e) + 0.00005
  {
    RoundIsNearest(Clamp(Sum(e)) * Reliability(e) * 10000.0);
  }

  /** Signals of one kind: none counts nothing, then 1/3, 1/2, 3/5, ... */
  lemma DiminishingExactly(n: int)
    ensures n <= 0 ==> Diminishing(n) == 0.0
    ensures n > 0 ==> Diminishing(n) * (n + 2) as real == n as real
  {
  }

  /** The weights, each on its own: the share of required signals present, or a half without any; 0.35 for
      support, 0.1 for baseline matches, minus 0.5 for contradiction and 0.1 for what is missing. */
  lemma SumExactly(e: Evidence)
    requires e.Accepted()
    ensures
      var none := e.(supporting := 0, contradicting := 0, missing := 0, baseline := 0);
      && (e.total == 0 ==> Sum(none) == 0.5)
      && (e.total > 0 ==> Sum(none) * e.total as real == e.present as real)
      && Sum(e) == Sum(none) + 0.35 * Diminishing(e.supporting) + 0.1 * Diminishing(e.baseline)
                   - 0.5 * Diminishing(e.contradicting) - 0.1 * Diminishing(e.missing)
  {
  }

  /** Rounding moves a product by less than 0.00005, and the cap only ever lowers the result. */
  lemma CappedNear(contradicting: int, raw: real, reliability: real)
    requires contradicting > 0
    ensures
      var score, exact := Capped(contradicting, Scaled(raw, reliability)), raw * reliability;
      && score <= 0.69
      && (exact <= 0.68995 ==> exact - 0.00005 <= score <= exact + 0.00005)
      && (exact >= 0.69005 ==> score == 0.69)
  {
    RoundIsNearest(raw * reliability * 10000.0);
  }

  /** Contradicted evidence scores the same, but never more than 0.69. */
  lemma ContradictedScoresExactly(e: Evidence)
    requires e.Accepted() && e.contradicting > 0
    ensures
      var exact := Clamp(Sum(e)) * Reliability(e);
      && Score(e) <= 0.69
      && (exact <= 0.68995 ==> exact - 0.00005 <= Score(e) <= exact + 0.00005)
      && (exact >= 0.69005 ==> Score(e) == 0.69)
  {
    CappedNear(e.contradicting, Clamp(Sum(e)), Reliability(e));
  }

  /** At least as good on every count: what supports grows, what undermines shrinks, requirements as declared. */
  predicate NoWorse(e: Evidence, f: Evidence) {
    && e.total == f.total && e.present <= f.present
    && e.supporting <= f.supporting && e.baseline <= f.baseline
    && e.contradicting >= f.contradicting && e.missing >= f.missing
    && e.source <= f.source && e.telemetry <= f.telemetry
  }

  lemma SumMonotone(e: Evidence, f: Evidence)
    requires e.Accepted() && f.Accepted() && NoWorse(e, f)
    ensures Sum(e) <= Sum(f)
  {
    BaseMonotone(e, f);
    DiminishingMonotone(e.supporting, f.supporting);
    DiminishingMonotone(e.baseline, f.baseline);
    DiminishingMonotone(f.contradicting, e.contradicting);
    DiminishingMonotone(f.missing, e.missing);
  }

  /** Better evidence never scores lower, through clamp, product, rounding and cap. */
  lemma ScoreMonotone(e: Evidence, f: Evidence)
    requires e.Accepted() && f.Accepted() && NoWorse(e, f)
    ensures Score(e) <= Score(f)
    ensures forall t: Thresholds | t.Accepted() :: Score(e) >= t.high ==> BandFor(Score(f), t) in {High, VeryHigh}
  {
    SumMonotone(e, f);
    ReliabilityMonotone(e, f);
    ScaledMonotone(Clamp(Sum(e)), Reliability(e), Clamp(Sum(f)), Reliability(f));
  }

  const CONTRADICTED := Evidence(1, 1, 0, 1, 0, 1.0, 1.0, 0)

  lemma ContradictedScore()
    ensures CONTRADICTED.Accepted() && Score(CONTRADICTED) == 0.69
  {
    assert Sum(CONTRADICTED) == 1.0 - 0.5 * (1.0 / 3.0);
    assert Sum(CONTRADICTED) >= 0.8;
    Round4Monotone(0.8, Clamp(Sum(CONTRADICTED)));
    Round4Fixes(8000);
  }

  /** Contradicted evidence stays below HIGH, whatever else supports it, exactly when the tenant's HIGH
      threshold lies above the cap of 0.69, as the default one does. */
  lemma ContradictedNeverHigh(t: Thresholds)
    requires t.Accepted()
    ensures (forall e: Evidence | e.Accepted() && e.contradicting > 0 :: BandFor(Score(e), t) in {Low, Medium})
        <==> t.high > 0.69
    ensures DEFAULT_THRESHOLDS.Accepted() && DEFAULT_THRESHOLDS.high > 0.69
  {
    ContradictedScore();
    if t.high <= 0.69 {
      assert CONTRADICTED.contradicting > 0 && BandFor(Score(CONTRADICTED), t) !in {Low, Medium};
    }
  }

  /** With no declared requirements and no baseline match, supporting signals alone never reach VERY_HIGH. */
  lemma SupportAloneIsBounded(e: Evidence)
    requires e.Accepted() && e.total == 0 && e.baseline == 0
    ensures Score(e) <= 0.85
    ensures BandFor(Score(e), DEFAULT_THRESHOLDS) != VeryHigh
  {
    DiminishingMonotone(0, e.supporting);
    DiminishingMonotone(0, e.contradicting);
    DiminishingMonotone(0, e.missing);
    ScoreBounds(e, 8500);
  }

  /** With none of the required signals present, nothing else lifts the score to HIGH. */
  lemma MissingRequirementsDominate(e: Evidence)
    requires e.Accepted() && e.total > 0 && e.present == 0
    ensures Score(e) <= 0.45
    ensures BandFor(Score(e), DEFAULT_THRESHOLDS) in {Low, Medium}
  {
    DiminishingMonotone(0, e.supporting);
    DiminishingMonotone(0, e.baseline);
    DiminishingMonotone(0, e.contradicting);
    DiminishingMonotone(0, e.missing);
    assert Base(e) == 0.0;
    ScoreBounds(e, 4500);
  }
}

/** Python's round() in exact arithmetic: to the nearest multiple, ties to even. */
module Rounding {

  /** Ties go to the even neighbour. */
  function RoundHalfEven(x: real): int {
    var low := x.Floor;
    var rest := x - low as real;
    if rest < 0.5 then low
    else if rest > 0.5 then low + 1
    else if low % 2 == 0 then low else low + 1
  }

  lemma RoundMonotone(x: real, y: real)
    requires x <= y
    ensures RoundHalfEven(x) <= RoundHalfEven(y)
  {
  }

  lemma RoundIsNearest(x: real)
    ensures RoundHalfEven(x) as real - 0.5 <= x <= RoundHalfEven(x) as real + 0.5
  {
  }

  lemma RoundFixesIntegers(n: int)
    ensures RoundHalfEven(n as real) == n
  {
  }
}

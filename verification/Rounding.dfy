/** Round to nearest, ties to even: the rounding of cvtps_epi32 and of torch.round. */
module Rounding {

  function RoundHalfEven(x: real): (n: int)
    ensures -0.5 <= n as real - x <= 0.5
    ensures n as real - x == 0.5 || n as real - x == -0.5 ==> n % 2 == 0
  {
    var f := x.Floor;
    var r := x - f as real;
    if r < 0.5 || (r == 0.5 && f % 2 == 0) then f else f + 1
  }

  /** Any integer closer than a half is the rounded value. */
  lemma {:induction false} NearestIsUnique(x: real, n: int)
    requires -0.5 < n as real - x < 0.5
    ensures RoundHalfEven(x) == n
  {
  }

  lemma {:induction false} RoundMonotone(x: real, y: real)
    requires x <= y
    ensures RoundHalfEven(x) <= RoundHalfEven(y)
  {
    var m, n := RoundHalfEven(x), RoundHalfEven(y);
    assert m as real <= n as real + 1.0;
  }

  /** Rounding never leaves an interval with integer ends. */
  lemma {:induction false} RoundWithin(x: real, lo: int, hi: int)
    requires lo as real <= x <= hi as real
    ensures lo <= RoundHalfEven(x) <= hi
  {
    NearestIsUnique(lo as real, lo);
    NearestIsUnique(hi as real, hi);
    RoundMonotone(lo as real, x);
    RoundMonotone(x, hi as real);
  }
}

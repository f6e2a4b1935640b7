/** Symmetric INT8 quantisation with one scale per block of values. */
module Quantization {
  import opened Matrices
  import opened Reals
  import opened Rounding

  const LANE_MAX := 127

  function Abs(x: real): real {
    if x < 0.0 then -x else x
  }

  function MaxReal(a: real, b: real): real {
    if a >= b then a else b
  }

  /** Largest magnitude among a[lo..hi], 0 for an empty range. */
  function AbsMax(a: seq<real>, lo: nat, hi: nat): (m: real)
    requires lo <= hi <= |a|
    ensures m >= 0.0
    decreases hi - lo
  {
    if lo == hi then 0.0 else MaxReal(AbsMax(a, lo, hi - 1), Abs(a[hi - 1]))
  }

  /** AbsMax bounds every magnitude of its range and is one of them, unless all are 0. */
  lemma {:induction false} AbsMaxIsMaximum(a: seq<real>, lo: nat, hi: nat)
    requires lo <= hi <= |a|
    ensures forall x :: lo <= x < hi ==> Abs(a[x]) <= AbsMax(a, lo, hi)
    ensures AbsMax(a, lo, hi) > 0.0 ==> exists x :: lo <= x < hi && Abs(a[x]) == AbsMax(a, lo, hi)
    decreases hi
  {
    if lo < hi {
      AbsMaxIsMaximum(a, lo, hi - 1);
      assert AbsMax(a, lo, hi) == AbsMax(a, lo, hi - 1) || AbsMax(a, lo, hi) == Abs(a[hi - 1]);
    }
  }

  lemma {:induction false} AbsMaxSplit(a: seq<real>, lo: nat, mid: nat, hi: nat)
    requires lo <= mid <= hi <= |a|
    ensures AbsMax(a, lo, hi) == MaxReal(AbsMax(a, lo, mid), AbsMax(a, mid, hi))
    decreases hi
  {
    if mid < hi {
      AbsMaxSplit(a, lo, mid, hi - 1);
    }
  }

  /** The dequantisation scale of a block: absmax / 127, or 1 for an all-zero block. */
  function ScaleFor(absmax: real): (s: real)
    requires absmax >= 0.0
    ensures s > 0.0
  {
    if absmax > 0.0 then absmax / 127.0 else 1.0
  }

  function Clamp(n: int): int {
    if n < -LANE_MAX then -LANE_MAX else if n > LANE_MAX then LANE_MAX else n
  }

  /** One lane: multiply by the reciprocal of the scale, round, clamp, narrow. */
  function Quantize(x: real, scale: real): (n: int)
    requires scale > 0.0
    ensures -LANE_MAX <= n <= LANE_MAX
  {
    Clamp(RoundHalfEven(Scaled(x, 1.0 / scale)))
  }

  function Dequantize(n: int, scale: real): real {
    Scaled(scale, n as real)
  }

  /** A quantised lane is within absmax / 254 of the value it stands for and never
      exceeds the block's magnitude; this includes all-zero blocks. */
  lemma {:induction false} QuantizeError(x: real, absmax: real)
    requires Abs(x) <= absmax
    ensures var y := Dequantize(Quantize(x, ScaleFor(absmax)), ScaleFor(absmax));
            Abs(y - x) <= absmax / 254.0 && Abs(y) <= absmax
  {
    var s := ScaleFor(absmax);
    var z := Scaled(x, 1.0 / s);
    if absmax > 0.0 {
      ReciprocalBounds(x, absmax, s);
      RoundWithin(z, -LANE_MAX, LANE_MAX);
      var n := RoundHalfEven(z);
      assert Quantize(x, s) == n;
      ScaleBack(s, n, z, x);
    } else {
      NearestIsUnique(0.0, 0);
    }
  }

  lemma {:induction false} ReciprocalBounds(x: real, absmax: real, s: real)
    requires absmax > 0.0 && s == absmax / 127.0 && Abs(x) <= absmax
    ensures Scaled(s, Scaled(x, 1.0 / s)) == x
    ensures -127.0 <= Scaled(x, 1.0 / s) <= 127.0
  {
    var f := 1.0 / s;
    assert absmax == 127.0 * s && f * s == 1.0;
    assert f * absmax == 127.0 * (f * s);
    ScaledMonotone(f, x, absmax);
    ScaledMonotone(f, -absmax, x);
    assert Scaled(s, Scaled(x, f)) == x * (f * s);
  }

  lemma {:induction false} ScaleBack(s: real, n: int, z: real, x: real)
    requires s > 0.0 && Scaled(s, z) == x && -0.5 <= n as real - z <= 0.5 && -LANE_MAX <= n <= LANE_MAX
    ensures Abs(Dequantize(n, s) - x) <= s / 2.0
    ensures Abs(Dequantize(n, s)) <= s * 127.0
  {
    var r := n as real;
    ScaledDifference(s, r, z);
    ScaledMonotone(s, r - z, 0.5);
    ScaledMonotone(s, -0.5, r - z);
    ScaledMonotone(s, r, 127.0);
    ScaledMonotone(s, -127.0, r);
  }

  // ---- inner products of quantised rows ----------------------------------------------

  /** Row i of lanes stands for row i of x to within a / 254, and neither exceeds a. */
  ghost predicate Approximates(lanes: IntMatrix, i: int, scale: real, x: Matrix, a: real, n: nat) {
    forall d :: 0 <= d < n ==>
      && Abs(Dequantize(lanes(i, d), scale) - x(i, d)) <= a / 254.0
      && Abs(Dequantize(lanes(i, d), scale)) <= a && Abs(x(i, d)) <= a
  }

  ghost function DequantizedDot(x: IntMatrix, i: int, sx: real, y: IntMatrix, j: int, sy: real, n: nat): real {
    if n == 0 then 0.0
    else DequantizedDot(x, i, sx, y, j, sy, n - 1) + Scaled(Dequantize(x(i, n - 1), sx), Dequantize(y(j, n - 1), sy))
  }

  /** Both scales factor out of the integer inner product. */
  lemma {:induction false} ScalesFactorOut(x: IntMatrix, i: int, sx: real, y: IntMatrix, j: int, sy: real, n: nat)
    ensures Scaled(Scaled(sx, sy), IntDot(x, i, y, j, n) as real) == DequantizedDot(x, i, sx, y, j, sy, n)
  {
    if n > 0 {
      ScalesFactorOut(x, i, sx, y, j, sy, n - 1);
      var f, s, p := Scaled(sx, sy), IntDot(x, i, y, j, n - 1) as real, Product(x(i, n - 1), y(j, n - 1)) as real;
      ScaledSum(f, s, p);
      FactorProduct(x(i, n - 1), sx, y(j, n - 1), sy);
    }
  }

  lemma {:induction false} FactorProduct(a: int, sa: real, b: int, sb: real)
    ensures Scaled(Scaled(sa, sb), Product(a, b) as real) == Scaled(Dequantize(a, sa), Dequantize(b, sb))
  {
    var x, y := a as real, b as real;
    assert Product(a, b) as real == x * y;
    assert (sa * sb) * (x * y) == (sa * x) * (sb * y);
  }

  /** Rounding error of one product of lanes with magnitudes a and b. */
  function LaneError(a: real, b: real): real {
    Scaled(a, b) / 127.0
  }

  lemma {:induction false} ProductError(p: real, p': real, q: real, q': real, a: real, b: real)
    requires Abs(p' - p) <= a / 254.0 && Abs(p) <= a && Abs(q' - q) <= b / 254.0 && Abs(q') <= b
    ensures Abs(Scaled(p', q') - Scaled(p, q)) <= LaneError(a, b)
  {
    hide Scaled;
    AbsScaled(p' - p, q', a / 254.0, b);
    AbsScaled(p, q' - q, a, b / 254.0);
    ProductDifference(p, p', q, q');
    TwoHalves(a, b);
  }

  lemma {:induction false} ProductDifference(p: real, p': real, q: real, q': real)
    ensures Scaled(p', q') - Scaled(p, q) == Scaled(p' - p, q') + Scaled(p, q' - q)
  {
  }

  lemma {:induction false} TwoHalves(a: real, b: real)
    ensures Scaled(a / 254.0, b) + Scaled(a, b / 254.0) == LaneError(a, b)
  {
  }

  lemma {:induction false} AbsScaled(x: real, y: real, a: real, b: real)
    requires Abs(x) <= a && Abs(y) <= b
    ensures Abs(Scaled(x, y)) <= Scaled(a, b)
  {
    assert Abs(Scaled(x, y)) == Scaled(Abs(x), Abs(y));
    ScaledMonotone(Abs(x), Abs(y), b);
    ScaledMonotone(b, Abs(x), a);
  }

  /** The inner product of the dequantised rows is within n a b / 127 of the true one. */
  lemma {:induction false} DotError(x: IntMatrix, i: int, sx: real, y: IntMatrix, j: int, sy: real, xs: Matrix,
                                    ys: Matrix, a: real, b: real, n: nat)
    requires Approximates(x, i, sx, xs, a, n) && Approximates(y, j, sy, ys, b, n)
    ensures Abs(DequantizedDot(x, i, sx, y, j, sy, n) - Dot(xs, i, ys, j, n)) <= Scaled(n as real, LaneError(a, b))
  {
    hide Scaled, LaneError, Dequantize;
    if n > 0 {
      DotError(x, i, sx, y, j, sy, xs, ys, a, b, n - 1);
      ProductError(xs(i, n - 1), Dequantize(x(i, n - 1), sx), ys(j, n - 1), Dequantize(y(j, n - 1), sy), a, b);
      OneMore(n, LaneError(a, b));
    } else {
      NoTerms(LaneError(a, b));
    }
  }

  lemma {:induction false} OneMore(n: nat, u: real)
    requires n > 0
    ensures Scaled(n as real, u) == Scaled((n - 1) as real, u) + u
  {
  }

  lemma {:induction false} NoTerms(u: real)
    ensures Scaled(0.0, u) == 0.0
  {
  }
}

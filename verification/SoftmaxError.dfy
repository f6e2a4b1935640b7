/** How far softmax attention moves when its scores move. */
module SoftmaxError {
  import opened Quantization
  import opened Reals
  import opened Softmax

  lemma {:induction false} ExpMonotone(e: Exponential, a: real, b: real)
    requires a <= b
    ensures e(a) <= e(b)
  {
    ExpOfSum(e, a - b, b);
    ScaledMonotone(e(b), e(a - b), 1.0);
    assert (a - b) + b == a;
  }

  /** The two rows mask the same keys and differ by at most eps elsewhere. */
  ghost predicate Close(s: seq<Score>, t: seq<Score>, eps: real) {
    && |s| == |t|
    && forall k :: 0 <= k < |s| ==> CloseScores(s[k], t[k], eps)
  }

  ghost predicate CloseScores(a: Score, b: Score, eps: real) {
    (a.NegInf? && b.NegInf?) || (a.Fin? && b.Fin? && Abs(a.v - b.v) <= eps)
  }

  lemma {:induction false} WeightMoves(e: Exponential, a: Score, b: Score, eps: real)
    requires CloseScores(a, b, eps)
    ensures 0.0 <= Weight(e, a, 0.0) <= Scaled(e(eps), Weight(e, b, 0.0))
  {
    if a.Fin? {
      ExpMonotone(e, a.v - 0.0, (b.v - 0.0) + eps);
      ExpOfSum(e, b.v - 0.0, eps);
    }
  }

  lemma {:induction false} SumMoves(e: Exponential, s: seq<Score>, t: seq<Score>, eps: real, n: nat)
    requires Close(s, t, eps) && n <= |s|
    ensures 0.0 <= WeightSum(e, s, 0.0, n) <= Scaled(e(eps), WeightSum(e, t, 0.0, n))
  {
    hide Scaled, Weight;
    if n > 0 {
      SumMoves(e, s, t, eps, n - 1);
      WeightMoves(e, s[n - 1], t[n - 1], eps);
      ScaledSum(e(eps), WeightSum(e, t, 0.0, n - 1), Weight(e, t[n - 1], 0.0));
    } else {
      assert Scaled(e(eps), 0.0) == 0.0 by { ScaledZero(e(eps)); }
    }
  }

  lemma {:induction false} ScaledZero(f: real)
    ensures Scaled(f, 0.0) == 0.0
  {
  }

  /** Two non-negative numbers within a factor of g of each other. */
  lemma {:induction false} FactorApart(x: real, y: real, g: real)
    requires g >= 1.0 && 0.0 <= x && 0.0 <= y && y <= Scaled(g, x) && x <= Scaled(g, y)
    ensures Abs(y - x) <= Scaled(g - 1.0, x)
  {
    if x > y {
      ScaledMonotone(g - 1.0, y, x);
    }
  }

  /** Products of numbers within a factor f of each other are within f * f. */
  lemma {:induction false} ProductsFactor(a: real, b: real, c: real, d: real, f: real)
    requires 0.0 <= a <= Scaled(f, c) && 0.0 <= b <= Scaled(f, d) && f >= 0.0 && c >= 0.0 && d >= 0.0
    ensures Scaled(a, b) <= Scaled(Scaled(f, f), Scaled(c, d))
  {
    ScaledMonotone(a, b, Scaled(f, d));
    ScaledMonotone(Scaled(f, d), a, Scaled(f, c));
    assert (f * d) * (f * c) == (f * f) * (c * d);
  }

  /** One term of the cross difference of the two weighted sums. */
  lemma {:induction false} CrossTerm(w: real, w': real, total: real, total': real, f: real, v: real, bound: real)
    requires f >= 1.0 && 0.0 <= w <= Scaled(f, w') && 0.0 <= w' <= Scaled(f, w)
    requires 0.0 <= total <= Scaled(f, total') && 0.0 <= total' <= Scaled(f, total)
    requires Abs(v) <= bound
    ensures Abs(Scaled(Scaled(w', v), total) - Scaled(Scaled(w, v), total'))
            <= Scaled(w, Scaled(Scaled(Scaled(f, f) - 1.0, bound), total'))
  {
    var x, y, g := Scaled(w, total'), Scaled(w', total), Scaled(f, f);
    ProductsFactor(w', total, w, total', f);
    ProductsFactor(w, total', w', total, f);
    assert g >= 1.0 by { ScaledMonotone(f, 1.0, f); }
    assert x >= 0.0 by { ScaledMonotone(w, 0.0, total'); }
    assert y >= 0.0 by { ScaledMonotone(w', 0.0, total); }
    FactorApart(x, y, g);
    AbsScaled(y - x, v, Scaled(g - 1.0, x), bound);
    Rearrange(w, w', total, total', v);
    Regroup(g - 1.0, w, total', bound);
    hide Scaled;
  }

  lemma {:induction false} Rearrange(w: real, w': real, total: real, total': real, v: real)
    ensures Scaled(Scaled(w', v), total) - Scaled(Scaled(w, v), total') ==
        Scaled(Scaled(w', total) - Scaled(w, total'), v)
  {
    assert (w' * v) * total == (w' * total) * v && (w * v) * total' == (w * total') * v;
  }

  lemma {:induction false} Regroup(g: real, w: real, total: real, bound: real)
    ensures Scaled(Scaled(g, Scaled(w, total)), bound) == Scaled(w, Scaled(Scaled(g, bound), total))
  {
    assert (g * (w * total)) * bound == w * ((g * bound) * total);
  }

  lemma {:induction false} CrossSum(e: Exponential, s: seq<Score>, t: seq<Score>, v: seq<real>, eps: real,
                                    bound: real, n: nat, total: real, total': real)
    requires Close(s, t, eps) && |v| == |s| && n <= |s| && eps >= 0.0
    requires forall k :: 0 <= k < |v| ==> Abs(v[k]) <= bound
    requires 0.0 <= total <= Scaled(e(eps), total') && 0.0 <= total' <= Scaled(e(eps), total)
    ensures Abs(Scaled(WeightedSum(e, t, v, 0.0, n), total) - Scaled(WeightedSum(e, s, v, 0.0, n), total'))
            <= Scaled(WeightSum(e, s, 0.0, n), Scaled(Scaled(Scaled(e(eps), e(eps)) - 1.0, bound), total'))
  {
    hide Scaled, Weight;
    var u := Scaled(Scaled(Scaled(e(eps), e(eps)) - 1.0, bound), total');
    if n > 0 {
      CrossSum(e, s, t, v, eps, bound, n - 1, total, total');
      var w, w' := Weight(e, s[n - 1], 0.0), Weight(e, t[n - 1], 0.0);
      WeightMoves(e, s[n - 1], t[n - 1], eps);
      WeightMoves(e, t[n - 1], s[n - 1], eps);
      ExpMonotone(e, 0.0, eps);
      CrossTerm(w, w', total, total', e(eps), v[n - 1], bound);
      SumScaled(WeightedSum(e, t, v, 0.0, n - 1), Scaled(w', v[n - 1]), total);
      SumScaled(WeightedSum(e, s, v, 0.0, n - 1), Scaled(w, v[n - 1]), total');
      SumScaled(WeightSum(e, s, 0.0, n - 1), w, u);
    } else {
      ZeroScaled(total);
      ZeroScaled(total');
      ZeroScaled(u);
    }
  }

  lemma {:induction false} SumScaled(x: real, y: real, f: real)
    ensures Scaled(x + y, f) == Scaled(x, f) + Scaled(y, f)
  {
  }

  lemma {:induction false} ZeroScaled(f: real)
    ensures Scaled(0.0, f) == 0.0
  {
  }

  lemma {:induction false} CloseIsSymmetric(s: seq<Score>, t: seq<Score>, eps: real)
    requires Close(s, t, eps)
    ensures Close(t, s, eps)
  {
    forall k | 0 <= k < |s|
      ensures CloseScores(t[k], s[k], eps)
    {
      assert CloseScores(s[k], t[k], eps);
    }
  }

  /** Moving every allowed score by at most eps moves attention by at most
      (exp(2 eps) - 1) times the largest value. */
  lemma {:induction false} AttendMoves(e: Exponential, s: seq<Score>, t: seq<Score>, v: seq<real>, eps: real,
                                       bound: real)
    requires Close(s, t, eps) && |v| == |s| && eps >= 0.0 && AnyAllowed(s) && AnyAllowed(t)
    requires forall k :: 0 <= k < |v| ==> Abs(v[k]) <= bound
    ensures Abs(Attend(e, t, v) - Attend(e, s, v)) <= Scaled(e(eps + eps) - 1.0, bound)
  {
    var n := |s|;
    var total, total' := WeightSum(e, s, 0.0, n), WeightSum(e, t, 0.0, n);
    CloseIsSymmetric(s, t, eps);
    SumMoves(e, s, t, eps, n);
    SumMoves(e, t, s, eps, n);
    WeightSumPositive(e, s, 0.0, n);
    WeightSumPositive(e, t, 0.0, n);
    CrossSum(e, s, t, v, eps, bound, n, total, total');
    ExpOfSum(e, eps, eps);
    assert Scaled(e(eps), e(eps)) == e(eps + eps);
    QuotientsApart(WeightedSum(e, t, v, 0.0, n), total', WeightedSum(e, s, v, 0.0, n), total,
        Scaled(e(eps + eps) - 1.0, bound));
  }

  lemma {:induction false} QuotientsApart(a': real, w': real, a: real, w: real, u: real)
    requires w > 0.0 && w' > 0.0 && Abs(Scaled(a', w) - Scaled(a, w')) <= Scaled(w, Scaled(u, w'))
    ensures Abs(a' / w' - a / w) <= u
  {
    var x, y, p := a' / w', a / w, w * w';
    assert a' == x * w' && a == y * w;
    assert a' * w - a * w' == (x - y) * p by {
      assert (x * w') * w == x * p && (y * w) * w' == y * p;
    }
    assert w * (u * w') == u * p;
    Cancel(x - y, u, p);
    Cancel(y - x, u, p);
  }

  lemma {:induction false} Cancel(x: real, u: real, p: real)
    requires p > 0.0 && x * p <= u * p
    ensures x <= u
  {
    if x > u {
      PositiveProduct(x - u, p);
    }
  }

  lemma {:induction false} PositiveProduct(a: real, b: real)
    requires a > 0.0 && b > 0.0
    ensures a * b > 0.0
  {
  }
}

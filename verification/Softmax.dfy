/** Softmax attention over one query row, and the streaming ("online") form that
    the kernels compute tile by tile.

    Numbers are exact reals. The exponential is a parameter constrained by
    IsExponential; a masked score is NegInf and carries no weight. */
module Softmax {
  import opened Reals

  /** Guards the functional equation below, so that the solver only uses it where
      a proof names the two arguments. */
  predicate Split(a: real, b: real) { true }

  ghost predicate IsExponential(e: real -> real) {
    && e(0.0) == 1.0
    && (forall x :: e(x) > 0.0)
    && (forall a, b {:trigger Split(a, b)} :: Split(a, b) ==> e(a + b) == e(a) * e(b))
    && (forall x :: x <= 0.0 ==> e(x) <= 1.0)
  }

  type Exponential = e: real -> real | IsExponential(e) witness (x: real) => 1.0

  lemma {:induction false} ExpOfSum(e: Exponential, a: real, b: real)
    ensures e(a + b) == e(a) * e(b)
  {
    assert Split(a, b);
  }

  datatype Score = NegInf | Fin(v: real)

  function Max(a: Score, b: Score): Score {
    if a.NegInf? then b
    else if b.NegInf? then a
    else if a.v >= b.v then a else b
  }

  predicate AtMost(a: Score, b: Score) {
    a.NegInf? || (b.Fin? && a.v <= b.v)
  }

  /** exp(s - m). Only ever applied with a finite m: exp(-inf - -inf) would be NaN. */
  function Weight(e: Exponential, s: Score, m: real): real {
    match s
    case NegInf => 0.0
    case Fin(x) => e(x - m)
  }

  // ---- what one vector step computes on a tile of scores -------------------

  function MaxOf(t: seq<Score>, n: nat): (m: Score)
    requires n <= |t|
  {
    if n == 0 then NegInf else Max(MaxOf(t, n - 1), t[n - 1])
  }

  function Weights(e: Exponential, t: seq<Score>, m: real): (p: seq<real>)
    ensures |p| == |t|
  {
    seq(|t|, j requires 0 <= j < |t| => Weight(e, t[j], m))
  }

  function Total(p: seq<real>, n: nat): real
    requires n <= |p|
  {
    if n == 0 then 0.0 else Total(p, n - 1) + p[n - 1]
  }

  /** The new running maximum, the rescale factor and the unnormalised weights of
      one row against one tile, as every kernel computes them. */
  datatype RowStep = RowStep(m: real, alpha: real, p: seq<real>, l: real)

  function StepRow(e: Exponential, t: seq<Score>, m: Score, l: real): RowStep
    requires Max(m, MaxOf(t, |t|)).Fin?
  {
    var mNew := Max(m, MaxOf(t, |t|)).v;
    var alpha := Weight(e, m, mNew);
    var p := Weights(e, t, mNew);
    RowStep(mNew, alpha, p, Scaled(alpha, l) + Total(p, |p|))
  }

  // ---- reference: softmax over a whole row ----------------------------------

  ghost function WeightSum(e: Exponential, s: seq<Score>, m: real, n: nat): real
    requires n <= |s|
  {
    if n == 0 then 0.0 else WeightSum(e, s, m, n - 1) + Weight(e, s[n - 1], m)
  }

  ghost function WeightedSum(e: Exponential, s: seq<Score>, v: seq<real>, m: real, n: nat): real
    requires n <= |s| == |v|
  {
    if n == 0 then 0.0 else WeightedSum(e, s, v, m, n - 1) + Scaled(Weight(e, s[n - 1], m), v[n - 1])
  }

  ghost predicate AnyAllowed(s: seq<Score>) {
    exists k :: 0 <= k < |s| && s[k].Fin?
  }

  /** Direct softmax attention: sum of exp(s_k) v_k over sum of exp(s_k), over the
      allowed keys. No running maximum, no tiles. */
  ghost function Attend(e: Exponential, s: seq<Score>, v: seq<real>): real
    requires |s| == |v| && AnyAllowed(s)
  {
    WeightSumPositive(e, s, 0.0, |s|);
    WeightedSum(e, s, v, 0.0, |s|) / WeightSum(e, s, 0.0, |s|)
  }

  // ---- lemmas -----------------------------------------------------------------

  lemma {:induction false} WeightSumNonNegative(e: Exponential, s: seq<Score>, m: real, n: nat)
    requires n <= |s|
    ensures WeightSum(e, s, m, n) >= 0.0
  {
    if n > 0 { WeightSumNonNegative(e, s, m, n - 1); }
  }

  lemma {:induction false} WeightSumAtLeast(e: Exponential, s: seq<Score>, m: real, n: nat, k: nat)
    requires k < n <= |s|
    ensures WeightSum(e, s, m, n) >= Weight(e, s[k], m)
  {
    if k == n - 1 {
      WeightSumNonNegative(e, s, m, n - 1);
    } else {
      WeightSumAtLeast(e, s, m, n - 1, k);
    }
  }

  lemma {:induction false} WeightSumPositive(e: Exponential, s: seq<Score>, m: real, n: nat)
    requires n <= |s| && exists k :: 0 <= k < n && s[k].Fin?
    ensures WeightSum(e, s, m, n) > 0.0
  {
    var k :| 0 <= k < n && s[k].Fin?;
    WeightSumAtLeast(e, s, m, n, k);
  }

  /** MaxOf is an upper bound, and is attained unless every score is masked. */
  lemma {:induction false} MaxOfIsMaximum(t: seq<Score>, n: nat)
    requires n <= |t|
    ensures forall k :: 0 <= k < n ==> AtMost(t[k], MaxOf(t, n))
    ensures MaxOf(t, n).Fin? <==> exists k :: 0 <= k < n && t[k].Fin?
    ensures MaxOf(t, n).Fin? ==> exists k :: 0 <= k < n && t[k] == MaxOf(t, n)
  {
    if n > 0 {
      MaxOfIsMaximum(t, n - 1);
      assert t[n - 1] == MaxOf(t, n) || MaxOf(t, n) == MaxOf(t, n - 1);
    }
  }

  /** Shifting the maximum rescales every weight by the same factor. */
  lemma {:induction false} WeightRescale(e: Exponential, s: Score, m: real, m': real)
    ensures Weight(e, s, m') == Weight(e, s, m) * e(m - m')
  {
    if s.Fin? {
      ExpOfSum(e, s.v - m, m - m');
      assert (s.v - m) + (m - m') == s.v - m';
    }
  }

  lemma {:induction false} SumsRescale(e: Exponential, s: seq<Score>, v: seq<real>, m: real, m': real, n: nat)
    requires n <= |s| == |v|
    ensures WeightSum(e, s, m', n) == WeightSum(e, s, m, n) * e(m - m')
    ensures WeightedSum(e, s, v, m', n) == WeightedSum(e, s, v, m, n) * e(m - m')
  {
    if n > 0 {
      SumsRescale(e, s, v, m, m', n - 1);
      WeightRescale(e, s[n - 1], m, m');
      var f, w := e(m - m'), Weight(e, s[n - 1], m);
      assert (w * f) * v[n - 1] == (w * v[n - 1]) * f;
    }
  }

  ghost predicate Masked(s: seq<Score>, lo: nat, hi: nat)
    requires hi <= |s|
  {
    forall k :: lo <= k < hi ==> s[k].NegInf?
  }

  /** Masked keys contribute nothing, so a suffix of them may be skipped. */
  lemma {:induction false} SkipMasked(e: Exponential, s: seq<Score>, v: seq<real>, m: real, n: nat, n': nat)
    requires n <= n' <= |s| == |v| && Masked(s, n, n')
    ensures MaxOf(s, n') == MaxOf(s, n)
    ensures WeightSum(e, s, m, n') == WeightSum(e, s, m, n)
    ensures WeightedSum(e, s, v, m, n') == WeightedSum(e, s, v, m, n)
  {
    if n < n' { SkipMasked(e, s, v, m, n, n' - 1); }
  }

  /** Sum of products, as the second matrix product accumulates it. */
  function ProductSum(p: seq<real>, u: seq<real>, n: nat): real
    requires n <= |p| && n <= |u|
  {
    if n == 0 then 0.0 else ProductSum(p, u, n - 1) + Scaled(p[n - 1], u[n - 1])
  }

  /** t is a run of elements that follows the first n of the row. */
  ghost predicate IsTile<T>(t: seq<T>, s: seq<T>, n: nat) {
    n + |t| <= |s| && t == s[n..n + |t|]
  }

  lemma {:induction false} MaxOfExtend(s: seq<Score>, n: nat, t: seq<Score>, c: nat)
    requires IsTile(t, s, n) && c <= |t|
    ensures MaxOf(s, n + c) == Max(MaxOf(s, n), MaxOf(t, c))
  {
    if c > 0 { MaxOfExtend(s, n, t, c - 1); }
  }

  lemma {:induction false} WeightSumExtend(e: Exponential, s: seq<Score>, m: real, n: nat, t: seq<Score>, c: nat)
    requires IsTile(t, s, n) && c <= |t|
    ensures WeightSum(e, s, m, n + c) == WeightSum(e, s, m, n) + Total(Weights(e, t, m), c)
  {
    if c > 0 { WeightSumExtend(e, s, m, n, t, c - 1); }
  }

  lemma {:induction false} WeightedSumExtend(e: Exponential, s: seq<Score>, v: seq<real>, m: real, n: nat,
                                             t: seq<Score>, u: seq<real>, c: nat)
    requires IsTile(t, s, n) && IsTile(u, v, n) && c <= |t| == |u| && |s| == |v|
    ensures WeightedSum(e, s, v, m, n + c) == WeightedSum(e, s, v, m, n) + ProductSum(Weights(e, t, m), u, c)
  {
    if c > 0 {
      WeightedSumExtend(e, s, v, m, n, t, u, c - 1);
      assert t[c - 1] == s[n + c - 1] && u[c - 1] == v[n + c - 1];
      var w := Weight(e, t[c - 1], m);
      assert Weights(e, t, m)[c - 1] == w;
    }
  }

  // ---- the streaming invariant ---------------------------------------------------

  ghost function RunningSum(e: Exponential, s: seq<Score>, n: nat, m: Score): real
    requires n <= |s|
  {
    if m.Fin? then WeightSum(e, s, m.v, n) else 0.0
  }

  /** The running statistics after the first n keys of the row. */
  ghost predicate Streamed(e: Exponential, s: seq<Score>, n: nat, m: Score, l: real)
    requires n <= |s|
  {
    && m == MaxOf(s, n)
    && l == RunningSum(e, s, n, m)
  }

  /** What the accumulator of one output column stands for after n keys. */
  ghost function Accumulated(e: Exponential, s: seq<Score>, v: seq<real>, n: nat, m: Score): real
    requires n <= |s| == |v|
  {
    if m.Fin? then WeightedSum(e, s, v, m.v, n) else 0.0
  }

  lemma {:induction false} MaskedSums(e: Exponential, s: seq<Score>, v: seq<real>, m: real, n: nat)
    requires n <= |s| == |v| && MaxOf(s, n).NegInf?
    ensures WeightSum(e, s, m, n) == 0.0 && WeightedSum(e, s, v, m, n) == 0.0
  {
    MaxOfIsMaximum(s, n);
    SkipMasked(e, s, v, m, 0, n);
  }

  lemma {:induction false} StreamSum(e: Exponential, s: seq<Score>, n: nat, t: seq<Score>, m: Score, l: real)
    requires IsTile(t, s, n) && Streamed(e, s, n, m, l)
    requires Max(m, MaxOf(t, |t|)).Fin?
    ensures var r := StepRow(e, t, m, l);
            r.l == WeightSum(e, s, r.m, n + |t|)
  {
    var r := StepRow(e, t, m, l);
    MaxOfExtend(s, n, t, |t|);
    OldSumRescaled(e, s, n, m, r.m);
    WeightSumExtend(e, s, r.m, n, t, |t|);
  }

  /** One tile keeps the running maximum and the running sum. */
  lemma {:induction false} StreamStatistics(e: Exponential, s: seq<Score>, n: nat, t: seq<Score>, m: Score, l: real)
    requires IsTile(t, s, n) && Streamed(e, s, n, m, l)
    requires Max(m, MaxOf(t, |t|)).Fin?
    ensures var r := StepRow(e, t, m, l);
            Streamed(e, s, n + |t|, Fin(r.m), r.l)
  {
    MaxOfExtend(s, n, t, |t|);
    StreamSum(e, s, n, t, m, l);
  }

  /** Rescaling never enlarges: the running maximum only grows. */
  lemma {:induction false} WeightAtMostOne(e: Exponential, s: Score, m: real)
    requires AtMost(s, Fin(m))
    ensures 0.0 <= Weight(e, s, m) <= 1.0
  {
    if s.Fin? { assert s.v - m <= 0.0; }
  }

  /** Every unnormalised weight of a step lies in [0, 1], and so does its rescale factor. */
  lemma {:induction false} StepWeightsInUnit(e: Exponential, t: seq<Score>, m: Score, l: real)
    requires Max(m, MaxOf(t, |t|)).Fin?
    ensures var r := StepRow(e, t, m, l);
            && AtMost(m, Fin(r.m)) && 0.0 <= r.alpha <= 1.0
            && forall j :: 0 <= j < |t| ==> 0.0 <= r.p[j] <= 1.0
  {
    var r := StepRow(e, t, m, l);
    MaxOfIsMaximum(t, |t|);
    WeightAtMostOne(e, m, r.m);
    forall j | 0 <= j < |t|
      ensures 0.0 <= r.p[j] <= 1.0
    {
      assert AtMost(t[j], MaxOf(t, |t|));
      WeightAtMostOne(e, t[j], r.m);
      assert r.p[j] == Weight(e, t[j], r.m);
    }
  }

  lemma {:induction false} OldSumRescaled(e: Exponential, s: seq<Score>, n: nat, m: Score, m': real)
    requires n <= |s| && m == MaxOf(s, n) && AtMost(m, Fin(m'))
    ensures WeightSum(e, s, m', n) == Scaled(Weight(e, m, m'), RunningSum(e, s, n, m))
  {
    var v := seq(|s|, _ => 0.0);
    if m.Fin? {
      SumsRescale(e, s, v, m.v, m', n);
    } else {
      MaskedSums(e, s, v, m', n);
    }
  }

  lemma {:induction false} OldAccumulatorRescaled(e: Exponential, s: seq<Score>, v: seq<real>, n: nat, m: Score,
                                                  m': real)
    requires n <= |s| == |v| && m == MaxOf(s, n) && AtMost(m, Fin(m'))
    ensures WeightedSum(e, s, v, m', n) == Scaled(Weight(e, m, m'), Accumulated(e, s, v, n, m))
  {
    if m.Fin? {
      SumsRescale(e, s, v, m.v, m', n);
    } else {
      MaskedSums(e, s, v, m', n);
    }
  }

  /** Rescaling the old accumulator by alpha leaves exactly the new tile's products
      to be added. */
  lemma {:induction false} StreamAccumulator(e: Exponential, s: seq<Score>, v: seq<real>, n: nat, t: seq<Score>,
                                             u: seq<real>, m: Score, m': real)
    requires IsTile(t, s, n) && IsTile(u, v, n) && |t| == |u| && |s| == |v|
    requires m == MaxOf(s, n) && Fin(m') == Max(m, MaxOf(t, |t|))
    ensures Accumulated(e, s, v, n + |t|, Fin(m'))
            == Scaled(Weight(e, m, m'), Accumulated(e, s, v, n, m)) + ProductSum(Weights(e, t, m'), u, |t|)
  {
    WeightedSumExtend(e, s, v, m', n, t, u, |t|);
    OldAccumulatorRescaled(e, s, v, n, m, m');
  }

  /** The final sum of weights is at least one: the maximal key weighs exp(0). */
  lemma {:induction false} StreamSumAtLeastOne(e: Exponential, s: seq<Score>, n: nat, m: Score, l: real)
    requires n <= |s| && Streamed(e, s, n, m, l)
    requires exists k :: 0 <= k < n && s[k].Fin?
    ensures m.Fin? && l >= 1.0
  {
    MaxOfIsMaximum(s, n);
    var k :| 0 <= k < n && s[k] == m;
    WeightSumAtLeast(e, s, m.v, n, k);
    assert s[k].v - m.v == 0.0;
  }

  /** After the whole row, the normalised accumulator is softmax attention. */
  lemma {:induction false} StreamEnd(e: Exponential, s: seq<Score>, v: seq<real>, m: Score, l: real)
    requires |s| == |v| && AnyAllowed(s) && Streamed(e, s, |s|, m, l)
    ensures m.Fin? && l >= 1.0
    ensures Accumulated(e, s, v, |s|, m) / l == Attend(e, s, v)
  {
    StreamSumAtLeastOne(e, s, |s|, m, l);
    WeightSumPositive(e, s, 0.0, |s|);
    SumsRescale(e, s, v, 0.0, m.v, |s|);
    CancelFactor(WeightedSum(e, s, v, 0.0, |s|), WeightSum(e, s, 0.0, |s|), e(0.0 - m.v));
  }

  lemma {:induction false} CancelFactor(a: real, b: real, f: real)
    requires b > 0.0 && f > 0.0
    ensures b * f != 0.0 && (a * f) / (b * f) == a / b
  {
    var q := a / b;
    assert a == q * b;
    assert a * f == q * (b * f);
  }
}

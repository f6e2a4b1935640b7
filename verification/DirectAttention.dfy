/** Softmax attention written out over the flat tensors, sharing nothing with the kernels: which
    keys a query sees, its scores as sums of products, and the weighted average they give. */
module DirectAttention {
  import opened Attention
  import opened Matrices
  import opened Reals
  import opened Softmax

  function Elem(a: seq<real>, x: int): real {
    if 0 <= x < |a| then a[x] else 0.0
  }

  /** Offset of element (b, h, s, d) of a contiguous (batch, heads, keys, dim) tensor. */
  function Index(heads: nat, keys: nat, dim: nat, b: nat, h: nat, s: nat, d: nat): int {
    ((b * heads + h) * keys + s) * dim + d
  }

  /** A causal query at position s sees keys 0 .. s, itself included; otherwise all keys. */
  function Visible(causal: bool, s: nat, keys: nat): nat {
    if causal then s + 1 else keys
  }

  /** sum over d < n of q[qRow + d] * k[kRow + d]. */
  ghost function InnerProduct(q: seq<real>, qRow: int, k: seq<real>, kRow: int, n: nat): real {
    if n == 0 then 0.0 else InnerProduct(q, qRow, k, kRow, n - 1) + Elem(q, qRow + n - 1) * Elem(k, kRow + n - 1)
  }

  ghost function ExpSum(e: Exponential, x: int -> real, n: nat): real {
    if n == 0 then 0.0 else ExpSum(e, x, n - 1) + e(x(n - 1))
  }

  ghost function ExpWeighted(e: Exponential, x: int -> real, u: int -> real, n: nat): real {
    if n == 0 then 0.0 else ExpWeighted(e, x, u, n - 1) + e(x(n - 1)) * u(n - 1)
  }

  /** The average of u(0) .. u(n - 1) weighted by exp(x(0)) .. exp(x(n - 1)). */
  ghost function SoftmaxAverage(e: Exponential, x: int -> real, u: int -> real, n: nat): real
    requires 0 < n
  {
    ExpSumPositive(e, x, n);
    ExpWeighted(e, x, u, n) / ExpSum(e, x, n)
  }

  ghost function Scores(q: seq<real>, k: seq<real>, heads: nat, keys: nat, dim: nat, scale: real, b: nat, h: nat,
                        s: nat): int -> real {
    (j: int) => if 0 <= j then
        InnerProduct(q, Index(heads, keys, dim, b, h, s, 0), k, Index(heads, keys, dim, b, h, j, 0), dim) * scale
      else 0.0
  }

  ghost function Values(v: seq<real>, heads: nat, keys: nat, dim: nat, b: nat, h: nat, d: nat): int -> real {
    (j: int) => if 0 <= j then Elem(v, Index(heads, keys, dim, b, h, j, d)) else 0.0
  }

  /** Element (b, h, s, d) of softmax(q k^T * scale) v. */
  ghost function AttentionElement(e: Exponential, q: seq<real>, k: seq<real>, v: seq<real>, heads: nat, keys: nat,
                                  dim: nat, scale: real, causal: bool, b: nat, h: nat, s: nat, d: nat): real
    requires s < keys
  {
    SoftmaxAverage(e, Scores(q, k, heads, keys, dim, scale, b, h, s), Values(v, heads, keys, dim, b, h, d),
                   Visible(causal, s, keys))
  }

  /** The promise of an exact kernel about element (b, h, s, d) of its output. */
  ghost predicate OutputAttends(e: Exponential, q: seq<real>, k: seq<real>, v: seq<real>, heads: nat, keys: nat,
                                dim: nat, scale: real, causal: bool, out: seq<real>, b: nat, h: nat, s: nat, d: nat)
    requires s < keys
  {
    && 0 <= Index(heads, keys, dim, b, h, s, d) < |out|
    && out[Index(heads, keys, dim, b, h, s, d)]
       == AttentionElement(e, q, k, v, heads, keys, dim, scale, causal, b, h, s, d)
  }

  lemma {:induction false} ExpPositive(e: Exponential, a: real)
    ensures e(a) > 0.0
  {
  }

  lemma {:induction false} ExpSumPositive(e: Exponential, x: int -> real, n: nat)
    requires 0 < n
    ensures ExpSum(e, x, n) > 0.0
  {
    ExpPositive(e, x(n - 1));
    if n == 1 {
      assert ExpSum(e, x, 0) == 0.0;
    } else {
      ExpSumPositive(e, x, n - 1);
    }
  }

  // ---- the reference of the kernels is this average ------------------------------------------------

  /** Scores with no key masked. */
  ghost function Unmasked(raw: int -> real, n: nat): (s: seq<Score>)
    ensures |s| == n
    ensures forall j :: 0 <= j < n ==> s[j] == Fin(raw(j))
  {
    seq(n, j requires 0 <= j < n => Fin(raw(j)))
  }

  /** Masked attention is attention over exactly the visible keys: the first pos + 1 when causal, all
      of them otherwise. */
  lemma {:induction false} AttendSeesVisible(e: Exponential, raw: int -> real, causal: bool, pos: nat, keys: nat,
                                             c: seq<real>)
    requires pos < keys == |c|
    ensures var n := Visible(causal, pos, keys);
            && AnyAllowed(ScoreRow(raw, causal, pos, keys)) && AnyAllowed(Unmasked(raw, n)) && n <= keys
            && Attend(e, ScoreRow(raw, causal, pos, keys), c) == Attend(e, Unmasked(raw, n), c[..n])
  {
    var n := Visible(causal, pos, keys);
    var s, s' := ScoreRow(raw, causal, pos, keys), Unmasked(raw, n);
    KeyZeroAllowed(raw, causal, pos, keys);
    assert s'[0].Fin?;
    forall j | 0 <= j < keys
      ensures s[j] == if j < n then Fin(raw(j)) else NegInf
    {
    }
    SkipMasked(e, s, c, 0.0, n, keys);
    assert s[..n] == s';
    SumsOfPrefix(e, s, c, s', c[..n], n);
  }

  lemma {:induction false} SumsOfPrefix(e: Exponential, s: seq<Score>, c: seq<real>, s': seq<Score>, c': seq<real>,
                                        n: nat)
    requires n <= |s'| <= |s| == |c| && |s'| == |c'|
    requires forall j :: 0 <= j < n ==> s[j] == s'[j] && c[j] == c'[j]
    ensures WeightSum(e, s, 0.0, n) == WeightSum(e, s', 0.0, n)
    ensures WeightedSum(e, s, c, 0.0, n) == WeightedSum(e, s', c', 0.0, n)
  {
    if 0 < n {
      SumsOfPrefix(e, s, c, s', c', n - 1);
    }
  }

  /** Attention over unmasked scores is the softmax average. */
  lemma {:induction false} AttendIsAverage(e: Exponential, raw: int -> real, x: int -> real, u: int -> real, n: nat,
                                           c: seq<real>)
    requires 0 < n == |c| && forall j :: 0 <= j < n ==> raw(j) == x(j) && c[j] == u(j)
    ensures AnyAllowed(Unmasked(raw, n)) && Attend(e, Unmasked(raw, n), c) == SoftmaxAverage(e, x, u, n)
  {
    assert Unmasked(raw, n)[0].Fin?;
    SumsAreAverages(e, Unmasked(raw, n), c, x, u, n);
  }

  lemma {:induction false} SumsAreAverages(e: Exponential, s: seq<Score>, c: seq<real>, x: int -> real,
                                           u: int -> real, n: nat)
    requires n <= |s| == |c| && forall j :: 0 <= j < n ==> s[j] == Fin(x(j)) && c[j] == u(j)
    ensures WeightSum(e, s, 0.0, n) == ExpSum(e, x, n)
    ensures WeightedSum(e, s, c, 0.0, n) == ExpWeighted(e, x, u, n)
  {
    if 0 < n {
      SumsAreAverages(e, s, c, x, u, n - 1);
      assert x(n - 1) - 0.0 == x(n - 1);
    }
  }

  /** Masked attention with any raw scores, as an average over the visible keys. */
  lemma {:induction false} MaskedIsAverage(e: Exponential, raw: int -> real, causal: bool, pos: nat, keys: nat,
                                           c: seq<real>, x: int -> real, u: int -> real)
    requires pos < keys == |c| && forall j :: 0 <= j < keys ==> raw(j) == x(j) && c[j] == u(j)
    ensures AnyAllowed(ScoreRow(raw, causal, pos, keys))
    ensures Attend(e, ScoreRow(raw, causal, pos, keys), c) == SoftmaxAverage(e, x, u, Visible(causal, pos, keys))
  {
    AttendSeesVisible(e, raw, causal, pos, keys, c);
    AttendIsAverage(e, raw, x, u, Visible(causal, pos, keys), c[..Visible(causal, pos, keys)]);
  }

  // ---- offsets ---------------------------------------------------------------------------------------

  lemma {:induction false} RowOffset(heads: nat, keys: nat, dim: nat, b: nat, h: nat, s: nat, d: nat)
    ensures Index(heads, keys, dim, b, h, s, d) == At(At(b * heads + h, keys, s), dim, d)
    ensures Index(heads, keys, dim, b, h, s, d) == Index(heads, keys, dim, b, h, s, 0) + d
    ensures At(b * heads + h, keys, s) == At(b * heads + h, keys, 0) + s
    ensures 0 <= Index(heads, keys, dim, b, h, s, d)
  {
    Multiply(0, b, heads);
    Multiply(0, b * heads + h, keys);
    Multiply(0, (b * heads + h) * keys + s, dim);
  }

  lemma {:induction false} DotIsInnerProduct(q: seq<real>, i: int, k: seq<real>, j: int, dim: nat, n: nat)
    requires n <= dim
    ensures Dot(View(q, dim), i, View(k, dim), j, n) == InnerProduct(q, At(i, dim, 0), k, At(j, dim, 0), n)
  {
    if 0 < n {
      DotIsInnerProduct(q, i, k, j, dim, n - 1);
    }
  }

  /** The kernels' reference, element by element of the tensors. */
  lemma {:induction false} AttentionAtIsElement(e: Exponential, q: seq<real>, k: seq<real>, v: seq<real>, heads: nat,
                                                keys: nat, dim: nat, scale: real, causal: bool, b: nat, h: nat,
                                                s: nat, d: nat)
    requires s < keys && 0 <= At(b * heads + h, keys, s)
    ensures AttentionAt(e, q, At(b * heads + h, keys, s), k, v, b * heads + h, keys, dim, s, scale, causal, d)
         == AttentionElement(e, q, k, v, heads, keys, dim, scale, causal, b, h, s, d)
  {
    var slab, row := b * heads + h, At(b * heads + h, keys, s);
    var raw := RawScores(View(q, dim), row, View(k, dim), At(slab, keys, 0), dim, scale);
    var x := Scores(q, k, heads, keys, dim, scale, b, h, s);
    var u := Values(v, heads, keys, dim, b, h, d);
    forall j | 0 <= j < keys
      ensures raw(j) == x(j)
    {
      ScoreIsWritten(q, k, heads, keys, dim, scale, b, h, s, j);
    }
    forall j | 0 <= j < keys
      ensures Column(View(v, dim), At(slab, keys, 0), d, keys)[j] == u(j)
    {
      RowOffset(heads, keys, dim, b, h, j, d);
    }
    hide RawScores, Scores, Values, ScoreRow, Attend, SoftmaxAverage, Column;
    MaskedIsAverage(e, raw, causal, s, keys, Column(View(v, dim), At(slab, keys, 0), d, keys), x, u);
  }

  lemma {:induction false} ScoreIsWritten(q: seq<real>, k: seq<real>, heads: nat, keys: nat, dim: nat, scale: real,
                                          b: nat, h: nat, s: nat, j: nat)
    ensures RawScores(View(q, dim), At(b * heads + h, keys, s), View(k, dim), At(b * heads + h, keys, 0), dim, scale)(j)
         == Scores(q, k, heads, keys, dim, scale, b, h, s)(j)
  {
    RowOffset(heads, keys, dim, b, h, s, 0);
    RowOffset(heads, keys, dim, b, h, j, 0);
    DotIsInnerProduct(q, At(b * heads + h, keys, s), k, At(b * heads + h, keys, 0) + j, dim, dim);
    hide Dot, View, InnerProduct, At, Index;
  }
}

/** flash_attn_int8 as a whole: the distance of its output from exact softmax
    attention over the unquantised inputs. */
module AmxInt8EndToEnd {
  import opened AmxInt8
  import opened AmxInt8Quant
  import opened Attention
  import opened DirectAttention
  import opened FlashTile
  import opened Matrices
  import opened Quantization
  import opened Reals
  import opened Softmax
  import opened SoftmaxError

  /** How far one score of query row `row` can move: |scale| * dim * max|q| * max|k| / 127. */
  ghost function ScoreShift(q: seq<real>, row: nat, k: seq<real>, slab: nat, keys: nat, dim: nat, scale: real): real {
    Scaled(Abs(scale), Scaled(dim as real, LaneError(RowMax(q, dim, row), BlockMax(k, At(slab, keys, 0), keys, dim))))
  }

  /** Bound on the distance of the kernel's output from exact softmax attention. */
  ghost function EndToEndBound(e: Exponential, q: seq<real>, row: nat, k: seq<real>, v: seq<real>, slab: nat,
      keys: nat, dim: nat, scale: real): real {
    var values := BlockMax(v, At(slab, keys, 0), keys, dim);
    var shift := ScoreShift(q, row, k, slab, keys, dim, scale);
    ValueError(keys, values) + Scaled(e(shift + shift) - 1.0, values)
  }

  lemma {:induction false} RowMaxInBlock(a: seq<real>, r0: nat, rows: nat, dim: nat, r: nat)
    requires (r0 + rows) * dim <= |a| && r0 <= r < r0 + rows
    ensures 0 <= At(r, dim, 0) && At(r, dim, 0) + dim <= |a|
    ensures RowMax(a, dim, r) <= BlockMax(a, r0, rows, dim)
  {
    hide AbsMax;
    Multiply(0, r, dim);
    Multiply(r + 1, r0 + rows, dim);
    BlockMaxMonotone(a, r0, rows, dim, r, 1);
  }

  lemma {:induction false} LaneErrorMonotone(a: real, b: real, b': real)
    requires a >= 0.0 && b <= b'
    ensures LaneError(a, b) <= LaneError(a, b')
  {
    ScaledMonotone(a, b, b');
  }

  /** Every dequantised score is within ScoreShift of the exact one. */
  lemma {:induction false} ScoreMoves(q: seq<real>, row: nat, k: seq<real>, slab: nat, keys: nat, dim: nat,
                                      scale: real, j: nat)
    requires 0 <= At(row, dim, 0) && At(row, dim, 0) + dim <= |q| && j < keys && 0 <= At(slab, keys, 0) &&
        (At(slab, keys, 0) + keys) * dim <= |k|
    ensures var kr := At(slab, keys, 0) + j;
            Abs(Scaled(Dot(View(q, dim), row, View(k, dim), kr, dim), scale)
                - DequantizedScore(q, row, k, kr, dim, scale))
            <= ScoreShift(q, row, k, slab, keys, dim, scale)
  {
    hide RowMax, BlockMax, RowScale, QuantView, View, At, Dot, IntDot;
    var kr := At(slab, keys, 0) + j;
    var qm, km, block := RowMax(q, dim, row), RowMax(k, dim, kr), BlockMax(k, At(slab, keys, 0), keys, dim);
    RowMaxInBlock(k, At(slab, keys, 0), keys, dim, kr);
    ScoreError(q, row, k, kr, dim);
    LaneErrorMonotone(qm, km, block);
    ScaledMonotone(dim as real, LaneError(qm, km), LaneError(qm, block));
    var exact, s := Dot(View(q, dim), row, View(k, dim), kr, dim),
        IntDot(QuantView(q, dim), row, QuantView(k, dim), kr, dim) as real;
    ScoreScales(s, RowScale(q, dim, row), RowScale(k, dim, kr), scale);
    ScoreScales(s, RowScale(q, dim, row), RowScale(k, dim, kr), 1.0);
    ScoreDifference(exact, DequantizedScore(q, row, k, kr, dim, 1.0), scale, Scaled(dim as real, LaneError(qm, block)),
                    Scaled(Scaled(RowScale(q, dim, row), RowScale(k, dim, kr)), s),
                        DequantizedScore(q, row, k, kr, dim, scale));
  }

  lemma {:induction false} ScoreDifference(exact: real, unit: real, scale: real, u: real, raw: real, score: real)
    requires unit == Scaled(1.0, raw) && score == Scaled(scale, raw) && Abs(unit - exact) <= u
    ensures Abs(Scaled(exact, scale) - score) <= Scaled(Abs(scale), u)
  {
    assert unit == raw;
    AbsScaled(scale, exact - raw, Abs(scale), u);
    ScaledDifference(scale, exact, raw);
    assert Scaled(exact, scale) == Scaled(scale, exact);
  }

  lemma {:induction false} RowsClose(q: seq<real>, row: nat, k: seq<real>, slab: nat, keys: nat, dim: nat, pos: nat,
                                     scale: real, causal: bool)
    requires 0 <= At(row, dim, 0) && At(row, dim, 0) + dim <= |q| && 0 <= At(slab, keys, 0) &&
        (At(slab, keys, 0) + keys) * dim <= |k|
    ensures Close(QueryRow(q, row, k, slab, keys, dim, pos, scale, causal),
        DequantizedRow(q, row, k, slab, keys, dim, pos, scale, causal),
                  ScoreShift(q, row, k, slab, keys, dim, scale))
  {
    hide ScoreShift, DequantizedScore, View, Dot, Scaled, At;
    var s, t := QueryRow(q, row, k, slab, keys, dim, pos, scale, causal),
        DequantizedRow(q, row, k, slab, keys, dim, pos, scale, causal);
    forall j | 0 <= j < keys
      ensures CloseScores(s[j], t[j], ScoreShift(q, row, k, slab, keys, dim, scale))
    {
      ScoreMoves(q, row, k, slab, keys, dim, scale, j);
      assert RawScores(View(q, dim), row, View(k, dim), At(slab, keys, 0), dim, scale)(j)
          == Scaled(Dot(View(q, dim), row, View(k, dim), At(slab, keys, 0) + j, dim), scale);
      assert DequantizedScores(q, row, k, At(slab, keys, 0), dim, scale)(j) ==
          DequantizedScore(q, row, k, At(slab, keys, 0) + j, dim, scale);
    }
  }

  lemma {:induction false} ShiftNonNegative(q: seq<real>, row: nat, k: seq<real>, slab: nat, keys: nat, dim: nat,
                                            scale: real)
    ensures ScoreShift(q, row, k, slab, keys, dim, scale) >= 0.0
  {
    var a, b := RowMax(q, dim, row), BlockMax(k, At(slab, keys, 0), keys, dim);
    ScaledMonotone(a, 0.0, b);
    ScaledMonotone(dim as real, 0.0, LaneError(a, b));
    ScaledMonotone(Abs(scale), 0.0, Scaled(dim as real, LaneError(a, b)));
  }

  lemma {:induction false} ColumnBounded(v: seq<real>, slab: nat, keys: nat, dim: nat, d: nat)
    requires 0 <= At(slab, keys, 0) && (At(slab, keys, 0) + keys) * dim <= |v| && d < dim
    ensures forall j :: 0 <= j < keys ==>
        Abs(Column(View(v, dim), At(slab, keys, 0), d, keys)[j]) <= BlockMax(v, At(slab, keys, 0), keys, dim)
  {
    hide BlockMax, At, View;
    forall j | 0 <= j < keys
      ensures Abs(Column(View(v, dim), At(slab, keys, 0), d, keys)[j]) <= BlockMax(v, At(slab, keys, 0), keys, dim)
    {
      BlockBounds(v, At(slab, keys, 0), keys, dim, At(slab, keys, 0) + j, d);
    }
  }

  /** Quantising the scores moves attention by at most max|V| (exp(2 shift) - 1). */
  lemma {:induction false} DequantizedAttentionError(e: Exponential, q: seq<real>, row: nat, k: seq<real>,
                                                     v: seq<real>, slab: nat, slabs: nat, keys: nat, dim: nat,
                                                     pos: nat, scale: real, causal: bool, d: nat)
    requires 0 < keys && keys % 32 == 0 && slab < slabs && d < dim && |k| == |v| == (slabs * keys) * dim
    requires 0 <= At(row, dim, 0) && At(row, dim, 0) + dim <= |q|
    ensures var shift := ScoreShift(q, row, k, slab, keys, dim, scale);
            Abs(DequantizedAttention(e, q, row, k, v, slab, keys, dim, pos, scale, causal, d)
                - AttentionAt(e, q, row, k, v, slab, keys, dim, pos, scale, causal, d))
            <= Scaled(e(shift + shift) - 1.0, BlockMax(v, At(slab, keys, 0), keys, dim))
  {
    hide ScoreShift, BlockMax, At, View, Close, Scaled, Attend;
    SlabBlock(k, slab, slabs, keys, dim, 0);
    SlabBlock(v, slab, slabs, keys, dim, 0);
    RowsClose(q, row, k, slab, keys, dim, pos, scale, causal);
    ShiftNonNegative(q, row, k, slab, keys, dim, scale);
    ColumnBounded(v, slab, keys, dim, d);
    RawAllowed(DequantizedScores(q, row, k, At(slab, keys, 0), dim, scale), causal, pos, keys);
    RawAllowed(RawScores(View(q, dim), row, View(k, dim), At(slab, keys, 0), dim, scale), causal, pos, keys);
    AttendMoves(e, QueryRow(q, row, k, slab, keys, dim, pos, scale, causal),
        DequantizedRow(q, row, k, slab, keys, dim, pos, scale, causal),
                Column(View(v, dim), At(slab, keys, 0), d, keys), ScoreShift(q, row, k, slab, keys, dim, scale),
                    BlockMax(v, At(slab, keys, 0), keys, dim));
  }

  // ---- flash_attn_int8 ----------------------------------------------------------------------------

  /** x is within keys * max|V| / 127 of attention over the dequantised scores, and
      within EndToEndBound of exact attention. */
  ghost predicate IsNear(e: Exponential, q: seq<real>, row: nat, k: seq<real>, v: seq<real>, slab: nat, keys: nat,
                         dim: nat, pos: nat, scale: real, causal: bool, d: nat, x: real)
    requires 0 < keys
  {
    && Abs(x - DequantizedAttention(e, q, row, k, v, slab, keys, dim, pos, scale, causal, d)) <=
        ValueError(keys, BlockMax(v, At(slab, keys, 0), keys, dim))
    && Abs(x - AttentionAt(e, q, row, k, v, slab, keys, dim, pos, scale, causal, d)) <=
        EndToEndBound(e, q, row, k, v, slab, keys, dim, scale)
  }

  ghost function NearGoal(e: Exponential, q: seq<real>, k: seq<real>, v: seq<real>, keys: nat, dim: nat, scale: real,
                          causal: bool): Goal
    requires 0 < keys
  {
    (r: int, d: int, x: real) => 0 <= r && 0 <= d &&
        IsNear(e, q, r, k, v, r / keys, keys, dim, r % keys, scale, causal, d, x)
  }

  lemma {:induction false} TileMeetsGoal(e: Exponential, q: seq<real>, k: seq<real>, v: seq<real>, batch: nat,
                                         heads: nat, keys: nat, dim: nat, scale: real, causal: bool, it: Iteration,
                                         out: seq<real>)
    requires InRange(it, batch, heads, keys) && 0 <= FirstRow(it, heads, keys) && keys % 32 == 0
    requires |q| == |k| == |v| == |out| == ((batch * heads) * keys) * dim
    requires TileNear(e, q, FirstRow(it, heads, keys), k, v, Slab(it, heads), keys, dim, it.qt * M_Q, scale, causal,
                      out, BlockMax(v, At(Slab(it, heads), keys, 0), keys, dim))
    ensures IterationDone(NearGoal(e, q, k, v, keys, dim, scale, causal), heads, keys, dim, it, out)
  {
    hide AttentionAt, DequantizedAttention, ValueError, ScoreShift, BlockMax, Slab;
    IterationInBounds(it, batch, heads, keys);
    var row, slab := FirstRow(it, heads, keys), Slab(it, heads);
    forall r, d | row <= r < row + M_Q && 0 <= d < dim && 0 <= At(r, dim, d) < |out|
      ensures NearGoal(e, q, k, v, keys, dim, scale, causal)(r, d, out[At(r, dim, d)])
    {
      var pos := it.qt * M_Q + (r - row);
      RowPosition(slab, keys, pos);
      RowFits(r, (batch * heads) * keys, dim, |q|);
      DequantizedAttentionError(e, q, r, k, v, slab, batch * heads, keys, dim, pos, scale, causal, d);
    }
  }

  lemma {:induction false} RowFits(r: int, rows: nat, dim: nat, length: int)
    requires 0 <= r < rows && rows * dim <= length
    ensures 0 <= At(r, dim, 0) && At(r, dim, 0) + dim <= length
  {
    Multiply(0, r, dim);
    Multiply(r + 1, rows, dim);
  }

  /** Output element (b, h, s, d) is near attention for that query and column. */
  ghost predicate ElementNear(e: Exponential, q: seq<real>, k: seq<real>, v: seq<real>, heads: nat, keys: nat,
                              dim: nat, scale: real, causal: bool, out: seq<real>, b: nat, h: nat, s: nat, d: nat)
    requires s < keys
  {
    var row := At(b * heads + h, keys, s);
    && 0 <= row && 0 <= At(row, dim, d) < |out|
    && IsNear(e, q, row, k, v, b * heads + h, keys, dim, s, scale, causal, d, out[At(row, dim, d)])
  }

  lemma {:induction false} GoalIsNear(e: Exponential, q: seq<real>, k: seq<real>, v: seq<real>, heads: nat,
                                      keys: nat, dim: nat, scale: real, causal: bool, out: seq<real>, b: nat, h: nat,
                                      s: nat, d: nat)
    requires s < keys && ElementMeets(NearGoal(e, q, k, v, keys, dim, scale, causal), heads, keys, dim, out, b, h, s, d)
    ensures ElementNear(e, q, k, v, heads, keys, dim, scale, causal, out, b, h, s, d)
  {
    hide IsNear;
    RowPosition(b * heads + h, keys, s);
  }

  // ---- the promise, with every bound written out --------------------------------------------------

  /** No element of row (b, h, s) is larger than m in magnitude. */
  ghost predicate RowWithin(a: seq<real>, heads: nat, keys: nat, dim: nat, b: nat, h: nat, s: nat, m: real) {
    forall d: nat :: d < dim ==> -m <= Elem(a, Index(heads, keys, dim, b, h, s, d)) <= m
  }

  ghost predicate SlabWithin(a: seq<real>, heads: nat, keys: nat, dim: nat, b: nat, h: nat, m: real) {
    forall s: nat :: s < keys ==> RowWithin(a, heads, keys, dim, b, h, s, m)
  }

  /** The scores the kernel works with: those of the quantised query and key rows. */
  ghost function QuantisedScores(q: seq<real>, k: seq<real>, heads: nat, keys: nat, dim: nat, scale: real, b: nat,
                                 h: nat, s: nat): int -> real {
    DequantizedScores(q, (b * heads + h) * keys + s, k, (b * heads + h) * keys, dim, scale)
  }

  /** keys * vm / 127. */
  function RoundingShare(keys: nat, vm: real): real {
    Scaled(keys as real, vm) / 127.0
  }

  /** |scale| * dim * qm * km / 127. */
  function ShiftOf(scale: real, dim: nat, qm: real, km: real): real {
    Scaled(if scale >= 0.0 then scale else -scale, Scaled(dim as real, Scaled(qm, km) / 127.0))
  }

  /** Element (b, h, s, d): whatever bounds qm, km and vm hold for its query row, its keys and its
      values, the output is within keys * vm / 127 of softmax over the quantised scores of the visible
      keys, and within (exp(2 shift) - 1) * vm more of true attention. */
  ghost predicate OutputNear(e: Exponential, q: seq<real>, k: seq<real>, v: seq<real>, heads: nat, keys: nat,
                             dim: nat, scale: real, causal: bool, out: seq<real>, b: nat, h: nat, s: nat, d: nat)
    requires s < keys
  {
    && 0 <= Index(heads, keys, dim, b, h, s, d) < |out|
    && forall qm, km, vm ::
         RowWithin(q, heads, keys, dim, b, h, s, qm) && SlabWithin(k, heads, keys, dim, b, h, km)
         && SlabWithin(v, heads, keys, dim, b, h, vm)
         ==> WithinBounds(e, q, k, v, heads, keys, dim, scale, causal, b, h, s, d,
                          out[Index(heads, keys, dim, b, h, s, d)], qm, km, vm)
  }

  ghost predicate WithinBounds(e: Exponential, q: seq<real>, k: seq<real>, v: seq<real>, heads: nat, keys: nat,
                               dim: nat, scale: real, causal: bool, b: nat, h: nat, s: nat, d: nat, x: real,
                               qm: real, km: real, vm: real)
    requires s < keys
  {
    var shift := ShiftOf(scale, dim, qm, km);
    && Abs(x - SoftmaxAverage(e, QuantisedScores(q, k, heads, keys, dim, scale, b, h, s),
                              Values(v, heads, keys, dim, b, h, d), Visible(causal, s, keys)))
       <= RoundingShare(keys, vm)
    && Abs(x - AttentionElement(e, q, k, v, heads, keys, dim, scale, causal, b, h, s, d))
       <= RoundingShare(keys, vm) + Scaled(e(shift + shift) - 1.0, vm)
  }

  lemma {:induction false} RowMaxLeast(a: seq<real>, heads: nat, keys: nat, dim: nat, b: nat, h: nat, s: nat, m: real)
    requires 0 < dim && Index(heads, keys, dim, b, h, s, 0) + dim <= |a| && RowWithin(a, heads, keys, dim, b, h, s, m)
    ensures 0.0 <= RowMax(a, dim, (b * heads + h) * keys + s) <= m
  {
    var lo := Index(heads, keys, dim, b, h, s, 0);
    RowOffset(heads, keys, dim, b, h, s, 0);
    AbsMaxIsMaximum(a, lo, lo + dim);
    forall x | lo <= x < lo + dim
      ensures Abs(a[x]) <= m
    {
      var d: nat := x - lo;
      RowOffset(heads, keys, dim, b, h, s, d);
      assert Elem(a, Index(heads, keys, dim, b, h, s, d)) == a[x];
    }
    assert Abs(a[lo]) <= m;
  }

  /** Every offset between a slab's ends is that of one of its elements. */
  lemma {:induction false} SlabElementWithin(a: seq<real>, heads: nat, keys: nat, dim: nat, b: nat, h: nat, m: real,
                                             x: nat)
    requires 0 < dim && SlabWithin(a, heads, keys, dim, b, h, m)
    requires At((b * heads + h) * keys, dim, 0) <= x < At((b * heads + h) * keys + keys, dim, 0) && x < |a|
    ensures Abs(a[x]) <= m
  {
    var y := x - At((b * heads + h) * keys, dim, 0);
    AtSurjective(y, keys, dim);
    var s: nat, d: nat := y / dim, y % dim;
    RowOffset(heads, keys, dim, b, h, s, d);
    assert Index(heads, keys, dim, b, h, s, d) == x;
    hide Index, At;
    assert RowWithin(a, heads, keys, dim, b, h, s, m);
    assert Elem(a, Index(heads, keys, dim, b, h, s, d)) == a[x];
  }

  lemma {:induction false} SlabMaxLeast(a: seq<real>, heads: nat, keys: nat, dim: nat, b: nat, h: nat, m: real)
    requires 0 < dim && 0 < keys && SlabWithin(a, heads, keys, dim, b, h, m)
    requires ((b * heads + h) * keys + keys) * dim <= |a|
    ensures 0.0 <= BlockMax(a, (b * heads + h) * keys, keys, dim) <= m
  {
    var r0 := (b * heads + h) * keys;
    RowOffset(heads, keys, dim, b, h, 0, 0);
    Multiply(r0 + 1, r0 + keys, dim);
    var lo, hi := At(r0, dim, 0), At(r0 + keys, dim, 0);
    AbsMaxIsMaximum(a, lo, hi);
    forall x: nat | lo <= x < hi
      ensures Abs(a[x]) <= m
    {
      SlabElementWithin(a, heads, keys, dim, b, h, m, x);
    }
    hide SlabWithin, Index;
    assert Abs(a[lo]) <= m;
  }

  /** The bounds grow with the magnitudes. */
  lemma {:induction false} SharesGrow(e: Exponential, scale: real, keys: nat, dim: nat, q: real, k: real, v: real,
                                      qm: real, km: real, vm: real)
    requires 0.0 <= q <= qm && 0.0 <= k <= km && 0.0 <= v <= vm
    ensures ValueError(keys, v) <= RoundingShare(keys, vm)
    ensures var shift, shift' := Scaled(Abs(scale), Scaled(dim as real, LaneError(q, k))), ShiftOf(scale, dim, qm, km);
            Scaled(e(shift + shift) - 1.0, v) <= Scaled(e(shift' + shift') - 1.0, vm)
  {
    ShareGrows(keys, v, vm);
    ShiftGrows(scale, dim, q, k, qm, km);
    var shift, shift' := Scaled(Abs(scale), Scaled(dim as real, LaneError(q, k))), ShiftOf(scale, dim, qm, km);
    hide Scaled, LaneError, ShiftOf;
    ExpMonotone(e, shift + shift, shift' + shift');
    ExpMonotone(e, 0.0, shift + shift);
    ProductGrows(e(shift + shift) - 1.0, v, e(shift' + shift') - 1.0, vm);
  }

  lemma {:induction false} ShareGrows(keys: nat, v: real, vm: real)
    requires v <= vm
    ensures ValueError(keys, v) <= RoundingShare(keys, vm)
  {
    ScaledMonotone(keys as real, v, vm);
    assert ValueError(keys, v) == Scaled(keys as real, v) / 127.0;
  }

  lemma {:induction false} ShiftGrows(scale: real, dim: nat, q: real, k: real, qm: real, km: real)
    requires 0.0 <= q <= qm && 0.0 <= k <= km
    ensures 0.0 <= Scaled(Abs(scale), Scaled(dim as real, LaneError(q, k))) <= ShiftOf(scale, dim, qm, km)
  {
    hide Scaled;
    ProductGrows(q, k, qm, km);
    ProductGrows(dim as real, LaneError(q, k), dim as real, Scaled(qm, km) / 127.0);
    ProductGrows(Abs(scale), Scaled(dim as real, LaneError(q, k)),
                 Abs(scale), Scaled(dim as real, Scaled(qm, km) / 127.0));
  }

  lemma {:induction false} ProductGrows(a: real, b: real, a': real, b': real)
    requires 0.0 <= a <= a' && 0.0 <= b <= b'
    ensures 0.0 <= Scaled(a, b) <= Scaled(a', b')
  {
    ScaledMonotone(a, 0.0, b);
    ScaledMonotone(a, b, b');
    ScaledMonotone(b', a, a');
  }

  lemma {:induction false} DequantizedIsAverage(e: Exponential, q: seq<real>, k: seq<real>, v: seq<real>, heads: nat,
                                                keys: nat, dim: nat, scale: real, causal: bool, b: nat, h: nat,
                                                s: nat, d: nat)
    requires s < keys && 0 <= At(b * heads + h, keys, s)
    ensures DequantizedAttention(e, q, At(b * heads + h, keys, s), k, v, b * heads + h, keys, dim, s, scale, causal, d)
         == SoftmaxAverage(e, QuantisedScores(q, k, heads, keys, dim, scale, b, h, s),
                           Values(v, heads, keys, dim, b, h, d), Visible(causal, s, keys))
  {
    var slab := b * heads + h;
    var x := QuantisedScores(q, k, heads, keys, dim, scale, b, h, s);
    var u := Values(v, heads, keys, dim, b, h, d);
    forall j | 0 <= j < keys
      ensures Column(View(v, dim), At(slab, keys, 0), d, keys)[j] == u(j)
    {
      RowOffset(heads, keys, dim, b, h, j, d);
    }
    assert DequantizedScores(q, At(slab, keys, s), k, At(slab, keys, 0), dim, scale) == x;
    hide DequantizedScores, Values, ScoreRow, Attend, SoftmaxAverage, Column;
    MaskedIsAverage(e, x, causal, s, keys, Column(View(v, dim), At(slab, keys, 0), d, keys), x, u);
  }

  lemma {:induction false} SlabInBounds(batch: nat, heads: nat, keys: nat, dim: nat, b: nat, h: nat, s: nat)
    requires b < batch && h < heads && s < keys
    ensures var slab := b * heads + h;
            && At(slab, keys, 0) == slab * keys && At(slab, keys, s) == slab * keys + s && 0 <= At(slab, keys, s)
            && Index(heads, keys, dim, b, h, s, 0) + dim <= ((batch * heads) * keys) * dim
            && (slab * keys + keys) * dim <= ((batch * heads) * keys) * dim
  {
    var slab := b * heads + h;
    AtInBounds(b, batch, heads, h);
    Multiply(slab + 1, batch * heads, keys);
    Multiply(slab * keys + keys, (batch * heads) * keys, dim);
    Multiply(slab * keys + s + 1, slab * keys + keys, dim);
    Multiply(0, slab, keys);
  }

  lemma {:induction false} MaximaWithin(q: seq<real>, k: seq<real>, v: seq<real>, batch: nat, heads: nat, keys: nat,
                                        dim: nat, b: nat, h: nat, s: nat, qm: real, km: real, vm: real)
    requires |q| == |k| == |v| == ((batch * heads) * keys) * dim && 0 < dim
    requires b < batch && h < heads && s < keys
    requires RowWithin(q, heads, keys, dim, b, h, s, qm)
    requires SlabWithin(k, heads, keys, dim, b, h, km) && SlabWithin(v, heads, keys, dim, b, h, vm)
    ensures 0.0 <= RowMax(q, dim, At(b * heads + h, keys, s)) <= qm
    ensures 0.0 <= BlockMax(k, At(b * heads + h, keys, 0), keys, dim) <= km
    ensures 0.0 <= BlockMax(v, At(b * heads + h, keys, 0), keys, dim) <= vm
  {
    SlabInBounds(batch, heads, keys, dim, b, h, s);
    hide RowMax, BlockMax, RowWithin, SlabWithin, Index;
    RowMaxLeast(q, heads, keys, dim, b, h, s, qm);
    SlabMaxLeast(k, heads, keys, dim, b, h, km);
    SlabMaxLeast(v, heads, keys, dim, b, h, vm);
  }

  /** From the kernel's own maxima to any bounds on the magnitudes. */
  lemma {:induction false} NearGrows(e: Exponential, x: real, rounded: real, exact: real, scale: real, keys: nat,
                                     dim: nat, q: real, k: real, v: real, qm: real, km: real, vm: real)
    requires 0.0 <= q <= qm && 0.0 <= k <= km && 0.0 <= v <= vm
    requires Abs(x - rounded) <= ValueError(keys, v)
    requires var shift := Scaled(Abs(scale), Scaled(dim as real, LaneError(q, k)));
             Abs(x - exact) <= ValueError(keys, v) + Scaled(e(shift + shift) - 1.0, v)
    ensures Abs(x - rounded) <= RoundingShare(keys, vm)
    ensures var shift := ShiftOf(scale, dim, qm, km);
            Abs(x - exact) <= RoundingShare(keys, vm) + Scaled(e(shift + shift) - 1.0, vm)
  {
    SharesGrow(e, scale, keys, dim, q, k, v, qm, km, vm);
    hide Scaled, ValueError, RoundingShare, ShiftOf, LaneError;
  }

  lemma {:induction false} BoundsAt(e: Exponential, q: seq<real>, k: seq<real>, v: seq<real>, heads: nat, keys: nat,
                                    dim: nat, scale: real, causal: bool, b: nat, h: nat, s: nat, d: nat, slab: nat,
                                    row: nat, x: real, qm: real, km: real, vm: real)
    requires s < keys && slab == b * heads + h && row == At(slab, keys, s)
    requires IsNear(e, q, row, k, v, slab, keys, dim, s, scale, causal, d, x)
    requires 0.0 <= RowMax(q, dim, row) <= qm && 0.0 <= BlockMax(k, At(slab, keys, 0), keys, dim) <= km
    requires 0.0 <= BlockMax(v, At(slab, keys, 0), keys, dim) <= vm
    ensures WithinBounds(e, q, k, v, heads, keys, dim, scale, causal, b, h, s, d, x, qm, km, vm)
  {
    hide At, DequantizedAttention, AttentionAt, AttentionElement, SoftmaxAverage, RowMax, BlockMax, Abs;
    hide Scaled, LaneError, ValueError, RoundingShare, ShiftOf, QuantisedScores, Values, Visible;
    DequantizedIsAverage(e, q, k, v, heads, keys, dim, scale, causal, b, h, s, d);
    AttentionAtIsElement(e, q, k, v, heads, keys, dim, scale, causal, b, h, s, d);
    var rounded := DequantizedAttention(e, q, row, k, v, slab, keys, dim, s, scale, causal, d);
    var exact := AttentionAt(e, q, row, k, v, slab, keys, dim, s, scale, causal, d);
    NearGrows(e, x, rounded, exact, scale, keys, dim, RowMax(q, dim, row), BlockMax(k, At(slab, keys, 0), keys, dim),
              BlockMax(v, At(slab, keys, 0), keys, dim), qm, km, vm);
  }

  lemma {:induction false} NearIsWithin(e: Exponential, q: seq<real>, k: seq<real>, v: seq<real>, batch: nat,
                                        heads: nat, keys: nat, dim: nat, scale: real, causal: bool, out: seq<real>,
                                        b: nat, h: nat, s: nat, d: nat)
    requires |q| == |k| == |v| == ((batch * heads) * keys) * dim && 0 < dim
    requires b < batch && h < heads && s < keys && d < dim
    requires ElementNear(e, q, k, v, heads, keys, dim, scale, causal, out, b, h, s, d)
    ensures OutputNear(e, q, k, v, heads, keys, dim, scale, causal, out, b, h, s, d)
  {
    RowOffset(heads, keys, dim, b, h, s, d);
    hide At, RowMax, BlockMax, RowWithin, SlabWithin, WithinBounds, IsNear;
    var i := Index(heads, keys, dim, b, h, s, d);
    assert 0 <= i < |out|;
    forall qm, km, vm | RowWithin(q, heads, keys, dim, b, h, s, qm) && SlabWithin(k, heads, keys, dim, b, h, km)
                        && SlabWithin(v, heads, keys, dim, b, h, vm)
      ensures WithinBounds(e, q, k, v, heads, keys, dim, scale, causal, b, h, s, d, out[i], qm, km, vm)
    {
      hide Index;
      MaximaWithin(q, k, v, batch, heads, keys, dim, b, h, s, qm, km, vm);
      BoundsAt(e, q, k, v, heads, keys, dim, scale, causal, b, h, s, d, b * heads + h, At(b * heads + h, keys, s),
               out[i], qm, km, vm);
    }
  }

  /** flash_attn_int8: whatever order the parallel loop runs in, every element of the
      output is near softmax attention; ok tells whether the shape was accepted. */
  method FlashAttention(e: Exponential, q: seq<real>, k: seq<real>, v: seq<real>, batch: nat, heads: nat, keys: nat,
                        dim: nat, scale: real, causal: bool, order: seq<Iteration>)
    returns (ok: bool, out: array<real>)
    requires |q| == |k| == |v| == ((batch * heads) * keys) * dim
    requires IsSchedule(order, batch, heads, keys)
    ensures ok <==> (dim == 64 || dim == 128) && keys >= 32 && keys % 32 == 0
    ensures ok ==> out.Length == |q|
    ensures ok ==> forall b: nat, h: nat, s: nat, d: nat :: b < batch && h < heads && s < keys && d < dim ==>
              OutputNear(e, q, k, v, heads, keys, dim, scale, causal, out[..], b, h, s, d)
  {
    hide IterationDone, Slab, FirstRow, InRange, ElementNear, OutputNear;
    ok := ShapeAccepted(keys, dim);
    if !ok {
      out := new real[0];
      return;
    }
    out := new real[|q|];
    ghost var goal := NearGoal(e, q, k, v, keys, dim, scale, causal);
    for n := 0 to |order|
      invariant fresh(out) && out.Length == |q|
      invariant forall m :: 0 <= m < n ==> IterationDone(goal, heads, keys, dim, order[m], out[..])
    {
      RunIteration(e, q, k, v, batch, heads, keys, dim, scale, causal, order[n], out, order[..n]);
    }
    forall b: nat, h: nat, s: nat, d: nat | b < batch && h < heads && s < keys && d < dim
      ensures OutputNear(e, q, k, v, heads, keys, dim, scale, causal, out[..], b, h, s, d)
    {
      AllIterationsDone(goal, batch, heads, keys, dim, out[..], b, h, s, d);
      GoalIsNear(e, q, k, v, heads, keys, dim, scale, causal, out[..], b, h, s, d);
      NearIsWithin(e, q, k, v, batch, heads, keys, dim, scale, causal, out[..], b, h, s, d);
    }
  }

  /** One iteration of the parallel loop; the ones already done stay done. */
  method RunIteration(e: Exponential, q: seq<real>, k: seq<real>, v: seq<real>, batch: nat, heads: nat, keys: nat,
                      dim: nat,
                      scale: real, causal: bool, it: Iteration, out: array<real>, ghost done: seq<Iteration>)
    requires ShapeAccepted(keys, dim) && InRange(it, batch, heads, keys)
    requires |q| == |k| == |v| == out.Length == ((batch * heads) * keys) * dim
    requires forall m :: 0 <= m < |done| ==> InRange(done[m], batch, heads, keys)
    requires forall m :: 0 <= m < |done| ==>
        IterationDone(NearGoal(e, q, k, v, keys, dim, scale, causal), heads, keys, dim, done[m], out[..])
    modifies out
    ensures IterationDone(NearGoal(e, q, k, v, keys, dim, scale, causal), heads, keys, dim, it, out[..])
    ensures forall m :: 0 <= m < |done| ==>
        IterationDone(NearGoal(e, q, k, v, keys, dim, scale, causal), heads, keys, dim, done[m], out[..])
  {
    hide TileNear, Slab, FirstRow, InRange, At, IterationDone, NearGoal, BlockMax;
    IterationInBounds(it, batch, heads, keys);
    ghost var before := out[..];
    var row := FirstRow(it, heads, keys);
    Multiply(row + M_Q, (batch * heads) * keys, dim);
    ProcessQTile(e, q, row, k, v, Slab(it, heads), batch * heads, out, keys, dim, it.qt * M_Q, scale, causal);
    TileMeetsGoal(e, q, k, v, batch, heads, keys, dim, scale, causal, it, out[..]);
    forall m | 0 <= m < |done|
      ensures IterationDone(NearGoal(e, q, k, v, keys, dim, scale, causal), heads, keys, dim, done[m], out[..])
    {
      if done[m] != it {
        OtherIterationKept(NearGoal(e, q, k, v, keys, dim, scale, causal), batch, heads, keys, dim, it, done[m],
            before, out[..]);
      }
    }
  }
}

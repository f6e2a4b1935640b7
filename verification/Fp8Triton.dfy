/** The Triton FP8 flash-attention kernel for arbitrary block sizes, over exact reals
    (casts are identities): one program per query block and (batch, head). */
module Fp8Triton {
  import opened Attention
  import opened Matrices
  import opened Reals
  import opened Softmax

  /** Strides of a (B, H, S, D) tensor. */
  datatype Layout = Layout(b: int, h: int, row: int, col: int) {
    function Offset(i: int, j: int, r: int, c: int): int {
      i * b + j * h + r * row + c * col
    }
  }

  /** A tensor in memory: its elements, strides and extent. */
  datatype Tensor = Tensor(mem: seq<real>, layout: Layout, batch: nat, heads: nat, rows: nat, cols: nat) {
    ghost predicate Valid() {
      Addressable(layout, batch, heads, rows, cols, |mem|)
    }

    /** A masked load: rows past the extent read as 0. */
    function Load(b: int, h: int, r: int, c: int): real {
      var x := layout.Offset(b, h, r, c);
      if 0 <= r < rows && 0 <= x < |mem| then mem[x] else 0.0
    }

    /** One (batch, head) slab as the kernel loads it. */
    function Slab(b: int, h: int): Matrix {
      (r: int, c: int) => Load(b, h, r, c)
    }
  }

  /** Every element lies inside the buffer, so no unmasked load is out of bounds. */
  ghost predicate Addressable(l: Layout, batch: nat, heads: nat, rows: nat, cols: nat, length: nat) {
    forall i, j, r, c :: 0 <= i < batch && 0 <= j < heads && 0 <= r < rows && 0 <= c < cols ==>
      0 <= l.Offset(i, j, r, c) < length
  }

  /** Distinct elements have distinct offsets. */
  ghost predicate Injective(l: Layout, batch: nat, heads: nat, rows: nat, cols: nat) {
    forall i, j, r, c, i', j', r', c' ::
      && 0 <= i < batch && 0 <= j < heads && 0 <= r < rows && 0 <= c < cols
      && 0 <= i' < batch && 0 <= j' < heads && 0 <= r' < rows && 0 <= c' < cols
      && l.Offset(i, j, r, c) == l.Offset(i', j', r', c')
      ==> i == i' && j == j' && r == r' && c == c'
  }

  /** A slab with its dequantisation scale applied. */
  ghost function Dequantized(x: Matrix, scale: real): Matrix {
    (r: int, c: int) => Scaled(scale, x(r, c))
  }

  function Cdiv(a: nat, b: nat): nat
    requires 0 < b
  {
    (a + b - 1) / b
  }

  // ---- one program ----------------------------------------------------------------------

  /** Row statistics and accumulator of a program, one entry per row of its block. */
  datatype Registers = Registers(m: seq<Score>, l: seq<real>, acc: seq<seq<real>>)

  predicate Shaped(s: Registers, blockM: nat, dim: nat) {
    && |s.m| == |s.l| == |s.acc| == blockM
    && forall i :: 0 <= i < blockM ==> |s.acc[i]| == dim
  }

  /** One entry of the score tile: causal mask first, then the mask of the tail tile. */
  function TileScore(q: Matrix, k: Matrix, dim: nat, scale: real, causal: bool, keys: nat, pos: int, j: int): Score {
    if j < keys then MaskedScore(causal, pos, j, Scaled(Dot(q, pos, k, j, dim), scale)) else NegInf
  }

  function TileRow(q: Matrix, k: Matrix, dim: nat, scale: real, causal: bool, keys: nat, pos: int, start: int,
                   blockN: nat): (t: seq<Score>)
    ensures |t| == blockN
    ensures forall c :: 0 <= c < blockN ==> t[c] == TileScore(q, k, dim, scale, causal, keys, pos, start + c)
  {
    seq(blockN, c requires 0 <= c < blockN => TileScore(q, k, dim, scale, causal, keys, pos, start + c))
  }

  function VColumn(v: Matrix, d: int, start: int, blockN: nat): (u: seq<real>)
    ensures |u| == blockN
    ensures forall c :: 0 <= c < blockN ==> u[c] == v(start + c, d)
  {
    seq(blockN, c requires 0 <= c < blockN => v(start + c, d))
  }

  /** P scaled into the FP8 range. */
  function ScaleUp(p: seq<real>, fp8Max: real): (r: seq<real>)
    ensures |r| == |p|
    ensures forall c :: 0 <= c < |p| ==> r[c] == Scaled(p[c], fp8Max)
  {
    seq(|p|, c requires 0 <= c < |p| => Scaled(p[c], fp8Max))
  }

  /** Row i of the accumulator after one tile. */
  function NextAcc(acc: seq<real>, r: RowStep, v: Matrix, start: int, vScale: real, fp8Max: real): (next: seq<real>)
    requires fp8Max > 0.0
    ensures |next| == |acc|
    ensures forall d :: 0 <= d < |acc| ==>
              next[d] == Scaled(r.alpha, acc[d]) +
                  Scaled(ProductSum(ScaleUp(r.p, fp8Max), VColumn(v, d, start, |r.p|), |r.p|), vScale / fp8Max)
  {
    seq(|acc|, d requires 0 <= d < |acc| =>
      Scaled(r.alpha, acc[d]) + Scaled(ProductSum(ScaleUp(r.p, fp8Max), VColumn(v, d, start, |r.p|), |r.p|),
          vScale / fp8Max))
  }

  /** The scores of one query row over all blocks: the keys, then masked padding. */
  ghost function PaddedRow(q: Matrix, k: Matrix, dim: nat, scale: real, causal: bool, keys: nat, pos: int,
                           padded: nat): (s: seq<Score>)
    ensures |s| == padded
    ensures forall j :: 0 <= j < padded ==> s[j] == TileScore(q, k, dim, scale, causal, keys, pos, j)
  {
    seq(padded, j requires 0 <= j < padded => TileScore(q, k, dim, scale, causal, keys, pos, j))
  }

  ghost function PaddedColumn(v: Matrix, vScale: real, d: int, padded: nat): (u: seq<real>)
    ensures |u| == padded
    ensures forall j :: 0 <= j < padded ==> u[j] == Scaled(vScale, v(j, d))
  {
    seq(padded, j requires 0 <= j < padded => Scaled(vScale, v(j, d)))
  }

  /** The operands of one program. */
  datatype Program = Program(q: Matrix, k: Matrix, v: Matrix, scale: real, vScale: real, fp8Max: real, dim: nat,
      keys: nat, causal: bool, first: nat, blockN: nat) {
    ghost function Row(i: int, padded: nat): seq<Score> {
      PaddedRow(q, k, dim, scale, causal, keys, first + i, padded)
    }

    ghost function Col(d: int, padded: nat): seq<real> {
      PaddedColumn(v, vScale, d, padded)
    }

    /** Row i of the registers after n keys. */
    ghost predicate RowAt(e: Exponential, s: Registers, i: int, n: nat, padded: nat)
      requires 0 <= i < |s.m| && i < |s.l| && i < |s.acc| && n <= padded
    {
      && Streamed(e, Row(i, padded), n, s.m[i], s.l[i])
      && forall d :: 0 <= d < |s.acc[i]| ==> s.acc[i][d] == Accumulated(e, Row(i, padded), Col(d, padded), n, s.m[i])
    }

    /** The invariant of the loop over key blocks. */
    ghost predicate Invariant(e: Exponential, s: Registers, blockM: nat, n: nat, padded: nat) {
      && Shaped(s, blockM, dim) && n <= padded
      && forall i :: 0 <= i < blockM ==> RowAt(e, s, i, n, padded)
    }

    /** The score tile of row i at key n. */
    function Tile(i: int, n: int): (t: seq<Score>)
      ensures |t| == blockN
    {
      TileRow(q, k, dim, scale, causal, keys, first + i, n, blockN)
    }

    /** The running maximum of row i after the tile at key n is finite. */
    predicate NextFinite(s: Registers, i: int, n: int)
      requires 0 <= i < |s.m|
    {
      Max(s.m[i], MaxOf(Tile(i, n), blockN)).Fin?
    }

    function RowUpdate(e: Exponential, s: Registers, i: int, n: int): RowStep
      requires 0 <= i < |s.m| && i < |s.l| && NextFinite(s, i, n)
    {
      StepRow(e, Tile(i, n), s.m[i], s.l[i])
    }

    /** One iteration of the loop over key blocks, all rows at once. */
    function Step(e: Exponential, s: Registers, blockM: nat, n: int): (next: Registers)
      requires Shaped(s, blockM, dim) && fp8Max > 0.0
      requires forall i :: 0 <= i < blockM ==> NextFinite(s, i, n)
      ensures Shaped(next, blockM, dim)
      ensures forall i :: 0 <= i < blockM ==>
                var r := RowUpdate(e, s, i, n);
                next.m[i] == Fin(r.m) && next.l[i] == r.l && next.acc[i] == NextAcc(s.acc[i], r, v, n, vScale, fp8Max)
    {
      Registers(
        seq(blockM, i requires 0 <= i < blockM => Fin(RowUpdate(e, s, i, n).m)),
        seq(blockM, i requires 0 <= i < blockM => RowUpdate(e, s, i, n).l),
        seq(blockM, i requires 0 <= i < blockM => NextAcc(s.acc[i], RowUpdate(e, s, i, n), v, n, vScale, fp8Max)))
    }

    lemma {:induction false} TileOfRow(i: int, n: nat, padded: nat)
      requires n + blockN <= padded
      ensures IsTile(Tile(i, n), Row(i, padded), n)
    {
    }

    /** No row is ever left at -inf: key 0 is allowed for every row of the block,
        including the rows past the end of the sequence. */
    lemma {:induction false} MaximumFinite(e: Exponential, s: Registers, blockM: nat, n: nat, padded: nat, i: int)
      requires Invariant(e, s, blockM, n, padded) && 0 <= i < blockM && n + blockN <= padded && 0 < blockN && 0 < keys
      ensures NextFinite(s, i, n)
    {
      assert RowAt(e, s, i, n, padded);
      TileOfRow(i, n, padded);
      MaxOfExtend(Row(i, padded), n, Tile(i, n), blockN);
      MaxOfIsMaximum(Row(i, padded), n + blockN);
      assert Row(i, padded)[0] == TileScore(q, k, dim, scale, causal, keys, first + i, 0);
    }

    lemma {:induction false} RowStepKept(e: Exponential, s: Registers, next: Registers, blockM: nat, n: nat,
                                         padded: nat, i: int)
      requires Shaped(s, blockM, dim) && Shaped(next, blockM, dim) && fp8Max > 0.0 && 0 <= i < blockM &&
          n + blockN <= padded
      requires RowAt(e, s, i, n, padded) && NextFinite(s, i, n)
      requires var r := RowUpdate(e, s, i, n);
               next.m[i] == Fin(r.m) && next.l[i] == r.l && next.acc[i] == NextAcc(s.acc[i], r, v, n, vScale, fp8Max)
      ensures RowAt(e, next, i, n + blockN, padded)
    {
      hide Scaled, MaxOf, Max, IsTile;
      var t := Tile(i, n);
      var r := StepRow(e, t, s.m[i], s.l[i]);
      TileOfRow(i, n, padded);
      StreamStatistics(e, Row(i, padded), n, t, s.m[i], s.l[i]);
      forall d | 0 <= d < |next.acc[i]|
        ensures next.acc[i][d] == Accumulated(e, Row(i, padded), Col(d, padded), n + blockN, next.m[i])
      {
        AccStep(e, s.m[i], s.l[i], i, n, padded, d);
        assert s.acc[i][d] == Accumulated(e, Row(i, padded), Col(d, padded), n, s.m[i]);
      }
    }

    lemma {:induction false} AccStep(e: Exponential, m: Score, l: real, i: int, n: nat, padded: nat, d: int)
      requires fp8Max > 0.0 && n + blockN <= padded && Streamed(e, Row(i, padded), n, m, l)
      requires Max(m, MaxOf(Tile(i, n), blockN)).Fin?
      ensures var r := StepRow(e, Tile(i, n), m, l);
              Scaled(r.alpha, Accumulated(e, Row(i, padded), Col(d, padded), n, m))
              + Scaled(ProductSum(ScaleUp(r.p, fp8Max), VColumn(v, d, n, blockN), blockN), vScale / fp8Max)
              == Accumulated(e, Row(i, padded), Col(d, padded), n + blockN, Fin(r.m))
    {
      hide Scaled, IsTile, Accumulated, MaxOf, ProductSum, Weights, Weight, ScaleUp;
      var r := StepRow(e, Tile(i, n), m, l);
      TileOfRow(i, n, padded);
      var u := ColumnTile(d, n, padded);
      StreamAccumulator(e, Row(i, padded), Col(d, padded), n, Tile(i, n), u, m, r.m);
      RangeScaleCancels(r.p, VColumn(v, d, n, blockN), u, vScale, fp8Max, blockN);
    }

    lemma {:induction false} ColumnTile(d: int, n: nat, padded: nat) returns (u: seq<real>)
      requires n + blockN <= padded
      ensures IsTile(u, Col(d, padded), n) && |u| == blockN
      ensures forall c :: 0 <= c < blockN ==> u[c] == Scaled(vScale, VColumn(v, d, n, blockN)[c])
    {
      u := Col(d, padded)[n..n + blockN];
    }

    /** One iteration carries the invariant from n to n + blockN keys. */
    lemma {:induction false} StepKept(e: Exponential, s: Registers, blockM: nat, n: nat, padded: nat)
      requires Invariant(e, s, blockM, n, padded) && n + blockN <= padded && 0 < blockN && 0 < keys && fp8Max > 0.0
      ensures forall i :: 0 <= i < blockM ==> NextFinite(s, i, n)
      ensures Invariant(e, Step(e, s, blockM, n), blockM, n + blockN, padded)
    {
      hide RowAt, MaxOf, Max;
      forall i | 0 <= i < blockM
        ensures NextFinite(s, i, n)
      {
        MaximumFinite(e, s, blockM, n, padded, i);
      }
      var next, n' := Step(e, s, blockM, n), n + blockN;
      forall i | 0 <= i < blockM
        ensures RowAt(e, next, i, n', padded)
      {
        RowStepKept(e, s, next, blockM, n, padded, i);
      }
    }

    /** The direct result: softmax attention of row `pos` over the dequantised slab. */
    ghost function Direct(e: Exponential, pos: int, d: int): real
      requires 0 < keys && 0 <= pos
    {
      KeyZeroAllowed(RawScores(q, pos, k, 0, dim, scale), causal, pos, keys);
      Attend(e, ScoreRow(RawScores(q, pos, k, 0, dim, scale), causal, pos, keys),
          Column(Dequantized(v, vScale), 0, d, keys))
    }

    /** The padding of the last block changes nothing, and the normalised accumulator
        is the direct result. */
    lemma {:induction false} EndOfRow(e: Exponential, s: Registers, blockM: nat, padded: nat, i: int, d: int)
      requires Invariant(e, s, blockM, padded, padded) && 0 < keys <= padded && 0 <= i < blockM && 0 <= d < dim
      ensures s.l[i] >= 1.0 && s.acc[i][d] / s.l[i] == Direct(e, first + i, d)
    {
      hide Scaled, Attend;
      var row, column := Row(i, padded), Col(d, padded);
      var s0 := ScoreRow(RawScores(q, first + i, k, 0, dim, scale), causal, first + i, keys);
      var v0 := Column(Dequantized(v, vScale), 0, d, keys);
      assert RowAt(e, s, i, padded, padded);
      KeyZeroAllowed(RawScores(q, first + i, k, 0, dim, scale), causal, first + i, keys);
      RowPrefix(i, d, padded);
      var m := if s.m[i].Fin? then s.m[i].v else 0.0;
      SkipMasked(e, row, column, m, keys, padded);
      PrefixSums(e, row, column, s0, v0, m, keys);
      assert Streamed(e, s0, keys, s.m[i], s.l[i]);
      StreamEnd(e, s0, v0, s.m[i], s.l[i]);
    }

    lemma {:induction false} RowPrefix(i: int, d: int, padded: nat)
      requires keys <= padded
      ensures ScoreRow(RawScores(q, first + i, k, 0, dim, scale), causal, first + i, keys) == Row(i, padded)[..keys]
      ensures Column(Dequantized(v, vScale), 0, d, keys) == Col(d, padded)[..keys]
      ensures Masked(Row(i, padded), keys, padded)
    {
      var s0 := ScoreRow(RawScores(q, first + i, k, 0, dim, scale), causal, first + i, keys);
      forall j | 0 <= j < keys
        ensures s0[j] == Row(i, padded)[j]
      {
        assert RawScores(q, first + i, k, 0, dim, scale)(j) == Scaled(Dot(q, first + i, k, 0 + j, dim), scale);
      }
      forall j | 0 <= j < keys
        ensures Column(Dequantized(v, vScale), 0, d, keys)[j] == Col(d, padded)[j]
      {
        assert Dequantized(v, vScale)(0 + j, d) == Scaled(vScale, v(j, d));
      }
    }
  }

  lemma {:induction false} PrefixSums(e: Exponential, s: seq<Score>, v: seq<real>, s0: seq<Score>, v0: seq<real>,
                                      m: real, n: nat)
    requires n <= |s0| <= |s| == |v| && |v0| == |s0| && s0 == s[..|s0|] && v0 == v[..|s0|]
    ensures MaxOf(s0, n) == MaxOf(s, n)
    ensures WeightSum(e, s0, m, n) == WeightSum(e, s, m, n)
    ensures WeightedSum(e, s0, v0, m, n) == WeightedSum(e, s, v, m, n)
  {
    hide Scaled, Weight;
    if n > 0 {
      PrefixSums(e, s, v, s0, v0, m, n - 1);
      assert s0[n - 1] == s[n - 1] && v0[n - 1] == v[n - 1];
    }
  }

  /** Scaling P up to the FP8 range and dividing the product by it again cancels. */
  lemma {:induction false} RangeScaleCancels(p: seq<real>, v: seq<real>, u: seq<real>, vScale: real, fp8Max: real,
                                             n: nat)
    requires fp8Max > 0.0 && n <= |p| && |v| == |u| && n <= |v|
    requires forall c :: 0 <= c < |v| ==> u[c] == Scaled(vScale, v[c])
    ensures Scaled(ProductSum(ScaleUp(p, fp8Max), v, n), vScale / fp8Max) == ProductSum(p, u, n)
  {
    var f := vScale / fp8Max;
    if n > 0 {
      RangeScaleCancels(p, v, u, vScale, fp8Max, n - 1);
      TermCancels(ProductSum(ScaleUp(p, fp8Max), v, n - 1), p[n - 1], v[n - 1], vScale, fp8Max);
      hide Scaled;
      assert ScaleUp(p, fp8Max)[n - 1] == Scaled(p[n - 1], fp8Max);
    }
  }

  lemma {:induction false} TermCancels(sum: real, p: real, v: real, vScale: real, fp8Max: real)
    requires fp8Max > 0.0
    ensures Scaled(sum + Scaled(Scaled(p, fp8Max), v), vScale / fp8Max) ==
        Scaled(sum, vScale / fp8Max) + Scaled(p, Scaled(vScale, v))
  {
    var f := vScale / fp8Max;
    assert f * fp8Max == vScale;
    assert ((p * fp8Max) * v) * f == p * ((f * fp8Max) * v);
  }
}

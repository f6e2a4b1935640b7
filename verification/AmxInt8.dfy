/** The AMX INT8 flash-attention kernel: exact integer tile products between dynamic
    quantisation passes, over exact reals otherwise. */
module AmxInt8 {
  import opened Amx
  import opened AmxInt8Quant
  import opened AmxInt8Tiles
  import opened Attention
  import opened FlashTile
  import opened Matrices
  import opened Quantization
  import opened Reals
  import opened Softmax

  // ---- integer matrix products ---------------------------------------------------------

  /** A quad-packed buffer holds rows c0, c0 + 1, ... of y, 4 * groups lanes of each. */
  ghost predicate HoldsPacked(b: seq<int>, y: IntMatrix, c0: int, groups: nat, cols: nat) {
    && |b| == groups * (4 * cols)
    && forall g, n :: 0 <= g < groups && 0 <= n < cols ==> QuadHolds(b, y, c0, cols, g, n)
  }

  ghost predicate QuadHolds(b: seq<int>, y: IntMatrix, c0: int, cols: int, g: int, n: int) {
    var x := Quad(g, cols, n);
    && 0 <= x && x + 3 < |b|
    && b[x] == y(c0 + n, 4 * g) && b[x + 1] == y(c0 + n, 4 * g + 1)
    && b[x + 2] == y(c0 + n, 4 * g + 2) && b[x + 3] == y(c0 + n, 4 * g + 3)
  }

  ghost predicate BlockOfIntDots(s: Tile<int>, x: IntMatrix, i: int, y: IntMatrix, j: int, d0: nat) {
    && IsTileOf(s, 16)
    && forall m, n :: 0 <= m < 16 && 0 <= n < 16 ==> s[m][n] == IntDot(x, i + m, y, j + n, d0)
  }

  /** One 16 x 16 block: the loop over 64-wide chunks of the contraction axis. */
  method IntBlock(a: seq<int>, i0: nat, rows: nat, lda: nat, b: seq<int>, n0: nat, cols: nat,
                  ghost x: IntMatrix, ghost r0: int, ghost y: IntMatrix, ghost c0: int) returns (s: Tile<int>)
    requires lda == 64 || lda == 128
    requires i0 + 16 <= rows && n0 + 16 <= cols
    requires HoldsRows(a, x, r0, rows, lda) && HoldsPacked(b, y, c0, lda / 4, cols)
    requires LaneMatrix(x) && LaneMatrix(y)
    ensures BlockOfIntDots(s, x, r0 + i0, y, c0 + n0, lda)
  {
    hide HoldsRows, HoldsPacked, LaneMatrix;
    s := TileZero(0);
    for dc := 0 to lda / 64
      invariant BlockOfIntDots(s, x, r0 + i0, y, c0 + n0, dc * 64)
    {
      IntBlocksFit(a, i0, rows, lda, b, n0, cols, x, r0, y, c0, dc);
      var ta := TileLoad(a, i0, lda, dc * 64, 64);
      var tb := TileLoad(b, dc * 16, 4 * cols, 4 * n0, 64);
      IntChunkExtends(a, i0, rows, lda, b, n0, cols, x, r0, y, c0, dc, s, ta, tb);
      s := TileDpBssd(s, ta, tb);
    }
  }

  lemma {:induction false} IntBlocksFit(a: seq<int>, i0: nat, rows: nat, lda: nat, b: seq<int>, n0: nat, cols: nat,
                                        x: IntMatrix, r0: int, y: IntMatrix, c0: int, dc: nat)
    requires lda % 64 == 0 && dc * 64 + 64 <= lda && i0 + 16 <= rows && n0 + 16 <= cols
    requires HoldsRows(a, x, r0, rows, lda) && HoldsPacked(b, y, c0, lda / 4, cols)
    ensures BlockFits(|a|, i0, lda, dc * 64, 64)
    ensures BlockFits(|b|, dc * 16, 4 * cols, 4 * n0, 64)
  {
    hide QuadHolds;
    Multiply(i0 + 16, rows, lda);
    Multiply(dc * 16 + 16, lda / 4, 4 * cols);
  }

  lemma {:induction false} IntChunkExtends(a: seq<int>, i0: nat, rows: nat, lda: nat, b: seq<int>, n0: nat, cols: nat,
                                           x: IntMatrix, r0: int, y: IntMatrix, c0: int, dc: nat, s: Tile<int>,
                                           ta: Tile<int>, tb: Tile<int>)
    requires lda % 64 == 0 && lda <= 128 && dc * 64 + 64 <= lda && i0 + 16 <= rows && n0 + 16 <= cols
    requires HoldsRows(a, x, r0, rows, lda) && HoldsPacked(b, y, c0, lda / 4, cols)
    requires LaneMatrix(x) && LaneMatrix(y)
    requires BlockFits(|a|, i0, lda, dc * 64, 64) && ta == TileLoad(a, i0, lda, dc * 64, 64)
    requires BlockFits(|b|, dc * 16, 4 * cols, 4 * n0, 64) && tb == TileLoad(b, dc * 16, 4 * cols, 4 * n0, 64)
    requires BlockOfIntDots(s, x, r0 + i0, y, c0 + n0, dc * 64)
    ensures BlockOfIntDots(TileDpBssd(s, ta, tb), x, r0 + i0, y, c0 + n0, dc * 64 + 64)
  {
    hide HoldsRows, HoldsPacked, LaneMatrix, HoldsQuads, IntDot, BlockFits, TileLoad, QuadSteps;
    forall m, n | 0 <= m < 16 && 0 <= n < 16
      ensures TileDpBssd(s, ta, tb)[m][n] == IntDot(x, r0 + i0 + m, y, c0 + n0 + n, dc * 64 + 64)
    {
      LoadedQuads(a, i0, rows, lda, b, n0, cols, x, r0, y, c0, dc, ta, tb, m, n);
      QuadStepsExtendDot(s[m][n], ta[m], tb, n, 16, x, r0 + i0 + m, y, c0 + n0 + n, dc * 64);
      assert TileDpBssd(s, ta, tb)[m][n] == QuadSteps(s[m][n], ta[m], tb, n, 16);
    }
  }

  lemma {:induction false} LoadedQuads(a: seq<int>, i0: nat, rows: nat, lda: nat, b: seq<int>, n0: nat, cols: nat,
                                       x: IntMatrix, r0: int, y: IntMatrix, c0: int, dc: nat, ta: Tile<int>,
                                       tb: Tile<int>, m: nat, n: nat)
    requires lda % 64 == 0 && dc * 64 + 64 <= lda && i0 + 16 <= rows && n0 + 16 <= cols && m < 16 && n < 16
    requires HoldsRows(a, x, r0, rows, lda) && HoldsPacked(b, y, c0, lda / 4, cols)
    requires BlockFits(|a|, i0, lda, dc * 64, 64) && ta == TileLoad(a, i0, lda, dc * 64, 64)
    requires BlockFits(|b|, dc * 16, 4 * cols, 4 * n0, 64) && tb == TileLoad(b, dc * 16, 4 * cols, 4 * n0, 64)
    ensures HoldsQuads(ta[m], tb, n, x, r0 + i0 + m, y, c0 + n0 + n, dc * 64)
  {
    forall c | 0 <= c < 64
      ensures ta[m][c] == x(r0 + i0 + m, dc * 64 + c)
    {
      assert a[At(i0 + m, lda, dc * 64 + c)] == x(r0 + (i0 + m), dc * 64 + c);
    }
    forall p | 0 <= p < 16
      ensures && tb[p][4 * n] == y(c0 + n0 + n, dc * 64 + 4 * p) &&
          tb[p][4 * n + 1] == y(c0 + n0 + n, dc * 64 + 4 * p + 1)
              && tb[p][4 * n + 2] == y(c0 + n0 + n, dc * 64 + 4 * p + 2) &&
                  tb[p][4 * n + 3] == y(c0 + n0 + n, dc * 64 + 4 * p + 3)
    {
      assert QuadHolds(b, y, c0, cols, dc * 16 + p, n0 + n);
    }
  }

  /** Both matrix products of the kernel: 32 x cols inner products of lda lanes, in
      16 x 16 blocks, stored row-major. */
  method IntProduct(a: seq<int>, lda: nat, b: seq<int>, cols: nat, out: array<int>,
                    ghost x: IntMatrix, ghost r0: int, ghost y: IntMatrix, ghost c0: int)
    requires (lda == 64 || lda == 128) && cols % 16 == 0 && out.Length == M_Q * cols
    requires HoldsRows(a, x, r0, M_Q, lda) && HoldsPacked(b, y, c0, lda / 4, cols)
    requires LaneMatrix(x) && LaneMatrix(y)
    modifies out
    ensures forall i, j :: 0 <= i < M_Q && 0 <= j < cols && 0 <= At(i, cols, j) < out.Length
              ==> out[At(i, cols, j)] == IntDot(x, r0 + i, y, c0 + j, lda)
  {
    hide HoldsRows, HoldsPacked, LaneMatrix, IntDot;
    for qh := 0 to 2
      invariant forall i, j :: 0 <= i < qh * 16 && 0 <= j < cols && 0 <= At(i, cols, j) < out.Length
                  ==> out[At(i, cols, j)] == IntDot(x, r0 + i, y, c0 + j, lda)
    {
      for nt := 0 to cols / 16
        invariant forall i, j ::
                    0 <= i < M_Q && 0 <= j < cols && 0 <= At(i, cols, j) < out.Length
                    && (i < qh * 16 || (i < qh * 16 + 16 && j < nt * 16))
                    ==> out[At(i, cols, j)] == IntDot(x, r0 + i, y, c0 + j, lda)
      {
        var s := IntBlock(a, qh * 16, M_Q, lda, b, nt * 16, cols, x, r0, y, c0);
        Multiply(qh * 16 + 16, M_Q, cols);
        TileStore(out, qh * 16, cols, nt * 16, s);
      }
    }
  }

  // ---- scores -----------------------------------------------------------------------------

  /** The score of key row kr for query row r, as dequantised by the kernel. */
  ghost function DequantizedScore(q: seq<real>, r: int, k: seq<real>, kr: int, dim: nat, scale: real): real {
    Scaled(IntDot(QuantView(q, dim), r, QuantView(k, dim), kr, dim) as real,
           Scaled(Scaled(RowScale(q, dim, r), scale), RowScale(k, dim, kr)))
  }

  ghost function DequantizedScores(q: seq<real>, r: int, k: seq<real>, k0: int, dim: nat, scale: real): int -> real {
    (j: int) => DequantizedScore(q, r, k, k0 + j, dim, scale)
  }

  /** A dequantised inner product is within dim * max|q| * max|k| / 127 of the true one,
      for all rows, all-zero ones included. */
  lemma {:induction false} ScoreError(q: seq<real>, r: int, k: seq<real>, kr: int, dim: nat)
    requires 0 <= At(r, dim, 0) && At(r, dim, 0) + dim <= |q| && 0 <= At(kr, dim, 0) && At(kr, dim, 0) + dim <= |k|
    ensures Abs(DequantizedScore(q, r, k, kr, dim, 1.0) - Dot(View(q, dim), r, View(k, dim), kr, dim))
            <= Scaled(dim as real, LaneError(RowMax(q, dim, r), RowMax(k, dim, kr)))
  {
    hide RowScale, RowMax, LaneError, QuantView;
    RowApproximates(q, dim, r, RowMax(q, dim, r));
    RowApproximates(k, dim, kr, RowMax(k, dim, kr));
    var sq, sk := RowScale(q, dim, r), RowScale(k, dim, kr);
    ScalesFactorOut(QuantView(q, dim), r, sq, QuantView(k, dim), kr, sk, dim);
    DotError(QuantView(q, dim), r, sq, QuantView(k, dim), kr, sk, View(q, dim), View(k, dim), RowMax(q, dim, r),
        RowMax(k, dim, kr), dim);
    ScoreScales(IntDot(QuantView(q, dim), r, QuantView(k, dim), kr, dim) as real, sq, sk, 1.0);
  }

  /** The scale of the softmax temperature can be pulled out of a dequantised score. */
  lemma {:induction false} ScoreScales(s: real, sq: real, sk: real, scale: real)
    ensures Scaled(s, Scaled(Scaled(sq, scale), sk)) == Scaled(scale, Scaled(Scaled(sq, sk), s))
  {
    assert s * ((sq * scale) * sk) == scale * ((sq * sk) * s);
  }

  /** K quantised, transposed and quad-packed. */
  method PrepareK(k: seq<real>, row: nat, dim: nat, k8: array<int>, packed: array<int>, scales: array<real>)
    requires (dim == 64 || dim == 128) && (row + N_KV) * dim <= |k|
    requires k8.Length == packed.Length == N_KV * dim && scales.Length == N_KV && k8 != packed
    modifies k8, packed, scales
    ensures HoldsPacked(packed[..], QuantView(k, dim), row, dim / 4, N_KV)
    ensures forall j :: 0 <= j < N_KV ==> scales[j] == RowScale(k, dim, row + j)
  {
    hide RowQuad, RowScale, HoldsRows, QuadHolds;
    QuantizeRows(k, row, N_KV, dim, k8, scales);
    PackRowQuads(k8[..], N_KV, dim, packed);
    PackedRows(k8[..], packed[..], QuantView(k, dim), row, dim);
  }

  lemma {:induction false} PackedRows(src: seq<int>, packed: seq<int>, y: IntMatrix, row: int, dim: nat)
    requires dim % 4 == 0 && HoldsRows(src, y, row, N_KV, dim) && |packed| == N_KV * dim
    requires forall g, n :: 0 <= g < dim / 4 && 0 <= n < N_KV ==> RowQuad(src, packed, N_KV, dim, g, n)
    ensures HoldsPacked(packed, y, row, dim / 4, N_KV)
  {
    forall g, n | 0 <= g < dim / 4 && 0 <= n < N_KV
      ensures QuadHolds(packed, y, row, N_KV, g, n)
    {
      assert RowQuad(src, packed, N_KV, dim, g, n);
      var x := At(n, dim, 4 * g);
      assert At(n, dim, 4 * g + 1) == x + 1 && At(n, dim, 4 * g + 2) == x + 2 && At(n, dim, 4 * g + 3) == x + 3;
    }
  }

  // ---- P and V, quantised and padded to the 64-lane contraction axis ---------------------

  method Fill(dst: array<int>)
    modifies dst
    ensures forall x :: 0 <= x < dst.Length ==> dst[x] == 0
  {
    for x := 0 to dst.Length
      invariant forall x' :: 0 <= x' < x ==> dst[x'] == 0
    {
      dst[x] := 0;
    }
  }

  method Copy(src: seq<int>, from: nat, dst: array<int>, to: nat, n: nat)
    requires from + n <= |src| && to + n <= dst.Length
    modifies dst
    ensures forall x :: 0 <= x < dst.Length ==> dst[x] == if to <= x < to + n then src[from + (x - to)] else old(dst[x])
  {
    for c := 0 to n
      invariant forall x :: 0 <= x < dst.Length ==>
          dst[x] == if to <= x < to + c then src[from + (x - to)] else old(dst[x])
    {
      dst[to + c] := src[from + c];
    }
  }

  /** x with every lane past the first 32 of a row replaced by 0. */
  ghost function Padded(x: IntMatrix): IntMatrix {
    (i: int, c: int) => if 0 <= c < N_KV then x(i, c) else 0
  }

  /** The rows r0 .. r0 + 31 of v, transposed, and padded in the same way. */
  ghost function PaddedColumns(v: IntMatrix, r0: int): IntMatrix {
    (d: int, c: int) => if 0 <= c < N_KV then v(r0 + c, d) else 0
  }

  lemma {:induction false} PaddedLanes(x: IntMatrix, r0: int)
    requires LaneMatrix(x)
    ensures LaneMatrix(Padded(x)) && LaneMatrix(PaddedColumns(x, r0))
  {
    forall i, c
      ensures IsLane(Padded(x)(i, c)) && IsLane(PaddedColumns(x, r0)(i, c))
    {
      assert IsLane(x(i, c)) && IsLane(x(r0 + c, i));
    }
  }

  /** P_amx: 32 lanes and 32 zeros per row. */
  method PadWeights(p8: seq<int>, ghost x: IntMatrix, pAmx: array<int>)
    requires HoldsRows(p8, x, 0, M_Q, N_KV) && pAmx.Length == M_Q * 64
    modifies pAmx
    ensures HoldsRows(pAmx[..], Padded(x), 0, M_Q, 64)
  {
    Fill(pAmx);
    for i := 0 to M_Q
      invariant forall i', c :: 0 <= i' < M_Q && 0 <= c < 64 ==>
          pAmx[At(i', 64, c)] == if i' < i then Padded(x)(i', c) else 0
    {
      Copy(p8, i * N_KV, pAmx, i * 64, N_KV);
      forall c | 0 <= c < N_KV
        ensures pAmx[At(i, 64, c)] == x(i, c)
      {
        assert p8[At(i, N_KV, c)] == x(0 + i, c);
      }
    }
  }

  /** V_amx: 8 packed rows of V and 8 of zeros. */
  method PadValues(packed: seq<int>, v8: seq<int>, ghost v: IntMatrix, ghost r0: int, dim: nat, vAmx: array<int>)
    requires HoldsRows(v8, v, r0, N_KV, dim) && |packed| == (N_KV / 4) * (4 * dim) && vAmx.Length == 16 * (4 * dim)
    requires forall g, n :: 0 <= g < N_KV / 4 && 0 <= n < dim ==> ColumnQuad(v8, packed, dim, g, n)
    modifies vAmx
    ensures HoldsPacked(vAmx[..], PaddedColumns(v, r0), 0, 16, dim)
  {
    hide ColumnQuad, HoldsRows;
    Fill(vAmx);
    Copy(packed, 0, vAmx, 0, (N_KV / 4) * (4 * dim));
    forall g, n | 0 <= g < 16 && 0 <= n < dim
      ensures QuadHolds(vAmx[..], PaddedColumns(v, r0), 0, dim, g, n)
    {
      QuadInBounds(g, 16, dim, n);
      if g < 8 {
        Multiply(g + 1, 8, 4 * dim);
        PackedColumn(packed, v8, v, r0, dim, g, n);
      } else {
        Multiply(8, g, 4 * dim);
      }
    }
  }

  lemma {:induction false} PackedColumn(packed: seq<int>, v8: seq<int>, v: IntMatrix, r0: int, dim: nat, g: int, n: int)
    requires HoldsRows(v8, v, r0, N_KV, dim) && 0 <= g < 8 && 0 <= n < dim && ColumnQuad(v8, packed, dim, g, n)
    ensures QuadHolds(packed, PaddedColumns(v, r0), 0, dim, g, n)
  {
    assert v8[At(4 * g, dim, n)] == v(r0 + 4 * g, n);
    assert v8[At(4 * g + 1, dim, n)] == v(r0 + (4 * g + 1), n);
    assert v8[At(4 * g + 2, dim, n)] == v(r0 + (4 * g + 2), n);
    assert v8[At(4 * g + 3, dim, n)] == v(r0 + (4 * g + 3), n);
  }

  /** The zero padding contributes nothing. */
  lemma {:induction false} PaddingIsNeutral(x: IntMatrix, i: int, y: IntMatrix, d: int, n: nat)
    requires N_KV <= n
    ensures IntDot(Padded(x), i, y, d, n) == IntDot(Padded(x), i, y, d, N_KV)
  {
    if N_KV < n {
      PaddingIsNeutral(x, i, y, d, n - 1);
      assert Padded(x)(i, n - 1) == 0;
    }
  }

  /** Steps 5 and 6: the integer product of the quantised weights and values. */
  method ValueProduct(p: seq<real>, v: seq<real>, row: nat, dim: nat, pScales: array<real>,
                      o32: array<int>) returns (vScale: real)
    requires |p| == M_Q * N_KV && (dim == 64 || dim == 128) && (row + N_KV) * dim <= |v|
    requires pScales.Length == M_Q && o32.Length == M_Q * dim
    modifies pScales, o32
    ensures vScale == ScaleFor(BlockMax(v, row, N_KV, dim))
    ensures forall i :: 0 <= i < M_Q ==> pScales[i] == RowScale(p, N_KV, i)
    ensures forall i, d :: 0 <= i < M_Q && 0 <= d < dim && 0 <= At(i, dim, d) < o32.Length
              ==> o32[At(i, dim, d)] == IntDot(Padded(QuantView(p, N_KV)), i,
                  PaddedColumns(BlockView(v, row, N_KV, dim), row), d, N_KV)
  {
    hide HoldsRows, HoldsPacked, QuantView, BlockView, Padded, PaddedColumns, LaneMatrix, ColumnQuad, RowScale;
    hide BlockMax, ScaleFor;
    var p8, pAmx := new int[M_Q * N_KV], new int[M_Q * 64];
    var v8, vPacked, vAmx := new int[N_KV * dim], new int[(N_KV / 4) * (4 * dim)], new int[16 * (4 * dim)];
    QuantizeRows(p, 0, M_Q, N_KV, p8, pScales);
    vScale := QuantizeTile(v, row, N_KV, dim, v8);
    PackColumnQuads(v8[..], N_KV, dim, vPacked);
    ghost var x, y := QuantView(p, N_KV), BlockView(v, row, N_KV, dim);
    PadWeights(p8[..], x, pAmx);
    PadValues(vPacked[..], v8[..], y, row, dim, vAmx);
    QuantViewLanes(p, N_KV);
    BlockViewLanes(v, row, N_KV, dim);
    PaddedLanes(x, 0);
    PaddedLanes(y, row);
    IntProduct(pAmx[..], 64, vAmx[..], dim, o32, Padded(x), 0, PaddedColumns(y, row), 0);
    forall i, d | 0 <= i < M_Q && 0 <= d < dim && 0 <= At(i, dim, d) < o32.Length
      ensures o32[At(i, dim, d)] == IntDot(Padded(x), i, PaddedColumns(y, row), d, N_KV)
    {
      PaddingIsNeutral(x, i, PaddedColumns(y, row), d, 64);
    }
  }

  lemma {:induction false} BlockViewLanes(a: seq<real>, r0: int, rows: nat, dim: nat)
    ensures LaneMatrix(BlockView(a, r0, rows, dim))
  {
    forall r, d
      ensures IsLane(BlockView(a, r0, rows, dim)(r, d))
    {
      assert BlockView(a, r0, rows, dim)(r, d) == Quantize(View(a, dim)(r, d), ScaleFor(BlockMax(a, r0, rows, dim)));
    }
  }

  // ---- rounding error of one tile product ---------------------------------------------------

  /** The value rows first .. first + 31, transposed. */
  ghost function ValueColumns(v: seq<real>, dim: nat, first: int): Matrix {
    (d: int, c: int) => View(v, dim)(first + c, d)
  }

  lemma {:induction false} DotIsTileProduct(p: seq<real>, v: seq<real>, dim: nat, first: int, i: nat, d: int, n: nat)
    requires |p| == M_Q * N_KV && i < M_Q && n <= N_KV
    ensures Dot(View(p, N_KV), i, ValueColumns(v, dim, first), d, n)
         == ProductSum(PRow(p, i), Column(View(v, dim), first, d, N_KV), n)
  {
    hide Scaled;
    if n > 0 {
      DotIsTileProduct(p, v, dim, first, i, d, n - 1);
      assert View(p, N_KV)(i, n - 1) == PRow(p, i)[n - 1];
      assert ValueColumns(v, dim, first)(d, n - 1) == View(v, dim)(first + (n - 1), d);
    }
  }

  lemma {:induction false} PaddedWeightsApproximate(p: seq<real>, i: nat)
    requires |p| == M_Q * N_KV && i < M_Q && RowMax(p, N_KV, i) <= 1.0
    ensures Approximates(Padded(QuantView(p, N_KV)), i, RowScale(p, N_KV, i), View(p, N_KV), 1.0, N_KV)
  {
    hide QuantView, RowScale, Dequantize, View, RowMax;
    RowApproximates(p, N_KV, i, 1.0);
  }

  lemma {:induction false} PaddedColumnsApproximate(v: seq<real>, row: nat, dim: nat, d: nat, bound: real)
    requires (row + N_KV) * dim <= |v| && d < dim && BlockMax(v, row, N_KV, dim) <= bound
    ensures Approximates(PaddedColumns(BlockView(v, row, N_KV, dim), row), d, ScaleFor(BlockMax(v, row, N_KV, dim)),
        ValueColumns(v, dim, row), bound, N_KV)
  {
    hide ScaleFor, Dequantize, Quantize;
    var scale := ScaleFor(BlockMax(v, row, N_KV, dim));
    var y := PaddedColumns(BlockView(v, row, N_KV, dim), row);
    forall c | 0 <= c < N_KV
      ensures && Abs(Dequantize(y(d, c), scale) - ValueColumns(v, dim, row)(d, c)) <= bound / 254.0
              && Abs(Dequantize(y(d, c), scale)) <= bound && Abs(ValueColumns(v, dim, row)(d, c)) <= bound
    {
      BlockBounds(v, row, N_KV, dim, row + c, d);
      QuantizeError(View(v, dim)(row + c, d), BlockMax(v, row, N_KV, dim));
      assert y(d, c) == Quantize(View(v, dim)(row + c, d), scale);
      assert ValueColumns(v, dim, row)(d, c) == View(v, dim)(row + c, d);
    }
  }

  lemma {:induction false} BlockBounds(a: seq<real>, r0: nat, rows: nat, dim: nat, r: nat, d: nat)
    requires (r0 + rows) * dim <= |a| && r0 <= r < r0 + rows && d < dim
    ensures Abs(View(a, dim)(r, d)) <= BlockMax(a, r0, rows, dim)
  {
    hide AbsMax;
    Multiply(0, r0, dim);
    Multiply(r0, r, dim);
    Multiply(r + 1, r0 + rows, dim);
    AbsMaxIsMaximum(a, At(r0, dim, 0), At(r0 + rows, dim, 0));
    assert View(a, dim)(r, d) == a[At(r, dim, d)];
  }

  /** A block inside a larger one has no larger magnitude. */
  lemma {:induction false} BlockMaxMonotone(a: seq<real>, r0: nat, rows: nat, dim: nat, r: nat, n: nat)
    requires (r0 + rows) * dim <= |a| && r0 <= r && r + n <= r0 + rows
    ensures BlockMax(a, r, n, dim) <= BlockMax(a, r0, rows, dim)
  {
    hide AbsMax;
    Multiply(0, r0, dim);
    Multiply(r0, r, dim);
    Multiply(r, r + n, dim);
    Multiply(r + n, r0 + rows, dim);
    AbsMaxSplit(a, At(r0, dim, 0), At(r, dim, 0), At(r0 + rows, dim, 0));
    AbsMaxSplit(a, At(r, dim, 0), At(r + n, dim, 0), At(r0 + rows, dim, 0));
  }

  /** The dequantised integer product is within 32 max|V| / 127 of P V, element by
      element, when the weights are at most 1. */
  lemma {:induction false} TileProductError(p: seq<real>, v: seq<real>, row: nat, dim: nat, i: nat, d: nat, bound: real)
    requires |p| == M_Q * N_KV && (row + N_KV) * dim <= |v| && i < M_Q && d < dim
    requires RowMax(p, N_KV, i) <= 1.0 && BlockMax(v, row, N_KV, dim) <= bound
    ensures var t := IntDot(Padded(QuantView(p, N_KV)), i, PaddedColumns(BlockView(v, row, N_KV, dim), row), d, N_KV);
            Abs(Scaled(Scaled(RowScale(p, N_KV, i), ScaleFor(BlockMax(v, row, N_KV, dim))),
                t as real) - TileProduct(p, v, dim, row, i, d))
            <= Scaled(N_KV as real, LaneError(1.0, bound))
  {
    hide RowScale, RowMax, BlockMax, ScaleFor, QuantView, BlockView, LaneError, Padded, PaddedColumns;
    hide Approximates, Scaled, Column;
    var x, y := Padded(QuantView(p, N_KV)), PaddedColumns(BlockView(v, row, N_KV, dim), row);
    var sx, sy := RowScale(p, N_KV, i), ScaleFor(BlockMax(v, row, N_KV, dim));
    PaddedWeightsApproximate(p, i);
    PaddedColumnsApproximate(v, row, dim, d, bound);
    ScalesFactorOut(x, i, sx, y, d, sy, N_KV);
    DotError(x, i, sx, y, d, sy, View(p, N_KV), ValueColumns(v, dim, row), 1.0, bound, N_KV);
    DotIsTileProduct(p, v, dim, row, i, d, N_KV);
  }

  method AccumulateLanes(o32: seq<int>, off: nat, f: real, o: array<real>)
    requires |o32| == o.Length && off + 16 <= o.Length
    modifies o
    ensures forall x :: 0 <= x < o.Length ==>
        o[x] == if off <= x < off + 16 then old(o[x]) + Scaled(f, o32[x] as real) else old(o[x])
  {
    hide Scaled;
    for c := 0 to 16
      invariant forall x :: 0 <= x < o.Length ==>
          o[x] == if off <= x < off + c then old(o[x]) + Scaled(f, o32[x] as real) else old(o[x])
    {
      o[off + c] := o[off + c] + Scaled(f, o32[off + c] as real);
    }
  }

  method AccumulateRange(o32: seq<int>, off: nat, dim: nat, f: real, o: array<real>)
    requires dim % 16 == 0 && |o32| == o.Length && off + dim <= o.Length
    modifies o
    ensures forall x :: 0 <= x < o.Length ==>
        o[x] == if off <= x < off + dim then old(o[x]) + Scaled(f, o32[x] as real) else old(o[x])
  {
    hide Scaled;
    var d := 0;
    while d < dim
      invariant 0 <= d <= dim && d % 16 == 0
      invariant forall x :: 0 <= x < o.Length ==>
          o[x] == if off <= x < off + d then old(o[x]) + Scaled(f, o32[x] as real) else old(o[x])
    {
      AccumulateLanes(o32, off + d, f, o);
      d := d + 16;
    }
  }

  /** Step 7: dequantise and accumulate row i, 16 lanes at a time. */
  method AccumulateRow(o32: seq<int>, i: nat, dim: nat, f: real, o: array<real>)
    requires dim % 16 == 0 && i < M_Q && |o32| == M_Q * dim == o.Length
    modifies o
    ensures forall i', d :: 0 <= i' < M_Q && 0 <= d < dim && 0 <= At(i', dim, d) < o.Length
              ==> o[At(i', dim, d)] ==
                  if i' == i then old(o[At(i', dim, d)]) + Scaled(f, o32[At(i', dim, d)] as real)
                  else old(o[At(i', dim, d)])
  {
    hide Scaled;
    Multiply(i + 1, M_Q, dim);
    Multiply(0, i, dim);
    AccumulateRange(o32, At(i, dim, 0), dim, f, o);
    forall i', d | 0 <= i' < M_Q && 0 <= d < dim && 0 <= At(i', dim, d) < o.Length
      ensures At(i, dim, 0) <= At(i', dim, d) < At(i, dim, 0) + dim <==> i' == i
    {
      RowRange(i, i', d, dim);
    }
  }

  method Accumulate(o32: seq<int>, pScales: seq<real>, vScale: real, dim: nat, o: array<real>)
    requires dim % 16 == 0 && |o32| == M_Q * dim == o.Length && |pScales| == M_Q
    modifies o
    ensures forall i, d :: 0 <= i < M_Q && 0 <= d < dim && 0 <= At(i, dim, d) < o.Length
              ==> o[At(i, dim, d)] == old(o[At(i, dim, d)]) +
                  Scaled(Scaled(pScales[i], vScale), o32[At(i, dim, d)] as real)
  {
    hide Scaled;
    for i := 0 to M_Q
      invariant forall i', d :: 0 <= i' < M_Q && 0 <= d < dim && 0 <= At(i', dim, d) < o.Length
                  ==> o[At(i', dim, d)] ==
                      if i' < i
                      then old(o[At(i', dim, d)]) + Scaled(Scaled(pScales[i'], vScale), o32[At(i', dim, d)] as real)
                      else old(o[At(i', dim, d)])
    {
      AccumulateRow(o32, i, dim, Scaled(pScales[i], vScale), o);
    }
  }

  /** Steps 5 to 7: what every accumulator element gains is within 32 max|V| / 127 of
      the exact product of the weights with the values. */
  method AddTile(p: seq<real>, v: seq<real>, row: nat, dim: nat, o: array<real>, ghost bound: real)
    requires |p| == M_Q * N_KV && (dim == 64 || dim == 128) && (row + N_KV) * dim <= |v| && o.Length == M_Q * dim
    requires BlockMax(v, row, N_KV, dim) <= bound
    requires forall i :: 0 <= i < M_Q ==> RowMax(p, N_KV, i) <= 1.0
    modifies o
    ensures forall i, d :: 0 <= i < M_Q && 0 <= d < dim && 0 <= At(i, dim, d) < o.Length
              ==> Abs(o[At(i, dim, d)] - old(o[At(i, dim, d)]) - TileProduct(p, v, dim, row, i, d)) <=
                  Scaled(N_KV as real, LaneError(1.0, bound))
  {
    hide RowScale, RowMax, BlockMax, ScaleFor, QuantView, BlockView, LaneError, Padded, PaddedColumns, Scaled;
    hide TileProduct, IntDot;
    var pScales, o32 := new real[M_Q], new int[M_Q * dim];
    var vScale := ValueProduct(p, v, row, dim, pScales, o32);
    Accumulate(o32[..], pScales[..], vScale, dim, o);
    forall i, d | 0 <= i < M_Q && 0 <= d < dim && 0 <= At(i, dim, d) < o.Length
      ensures Abs(o[At(i, dim, d)] - old(o[At(i, dim, d)]) - TileProduct(p, v, dim, row, i, d)) <=
          Scaled(N_KV as real, LaneError(1.0, bound))
    {
      TileProductError(p, v, row, dim, i, d, bound);
    }
  }

  // ---- the loop over KV tiles ------------------------------------------------------------------

  function ScaleAndMask(lanes: seq<int>, qScale: real, kScales: seq<real>, mask: bool, pos: int,
                        key: int): (t: seq<Score>)
    requires |lanes| == |kScales|
    ensures |t| == |lanes|
    ensures forall c :: 0 <= c < |lanes| ==>
        t[c] == MaskedScore(mask, pos, key + c, Scaled(lanes[c] as real, Scaled(qScale, kScales[c])))
  {
    seq(|lanes|, c requires 0 <= c < |lanes| => MaskedScore(mask, pos, key + c,
        Scaled(lanes[c] as real, Scaled(qScale, kScales[c]))))
  }

  /** Step 4 for row i: dequantised scores, masked on the diagonal; qScale already
      carries the softmax temperature. */
  function GatherRow(s32: seq<int>, i: int, qScale: real, kScales: seq<real>, mask: bool, pos: int,
                     key: int): (t: seq<Score>)
    requires |s32| == M_Q * N_KV && 0 <= i < M_Q && |kScales| == N_KV
    ensures |t| == N_KV
    ensures forall j :: 0 <= j < N_KV
              ==> t[j] == MaskedScore(mask, pos, key + j,
                  Scaled(s32[At(i, N_KV, j)] as real, Scaled(qScale, kScales[j])))
  {
    var lo, hi := i * N_KV, i * N_KV + 16;
    ScaleAndMask(s32[lo..lo + 16], qScale, kScales[..16], mask, pos, key)
    + ScaleAndMask(s32[hi..hi + 16], qScale, kScales[16..], mask, pos, key + 16)
  }

  function GatherTile(s32: seq<int>, qScales: seq<real>, kScales: seq<real>, scale: real, mask: bool, start: int,
                      key: int): (tiles: seq<seq<Score>>)
    requires |s32| == M_Q * N_KV && |kScales| == N_KV && |qScales| == M_Q
    ensures |tiles| == M_Q && forall i :: 0 <= i < M_Q ==>
        tiles[i] == GatherRow(s32, i, Scaled(qScales[i], scale), kScales, mask, start + i, key)
    ensures TileShape(tiles)
  {
    seq(M_Q, i requires 0 <= i < M_Q => GatherRow(s32, i, Scaled(qScales[i], scale), kScales, mask, start + i, key))
  }

  /** The whole row of dequantised scores of one query. */
  ghost function DequantizedRow(q: seq<real>, row: nat, k: seq<real>, slab: nat, keys: nat, dim: nat, pos: nat,
                                scale: real, causal: bool): (s: seq<Score>)
    ensures |s| == keys
  {
    ScoreRow(DequantizedScores(q, row, k, At(slab, keys, 0), dim, scale), causal, pos, keys)
  }

  ghost function DequantizedRows(q: seq<real>, row: nat, k: seq<real>, slab: nat, keys: nat, dim: nat, start: nat,
                                 scale: real, causal: bool): (rows: seq<seq<Score>>)
    ensures |rows| == M_Q
    ensures forall i :: 0 <= i < M_Q ==>
        rows[i] == DequantizedRow(q, row + i, k, slab, keys, dim, start + i, scale, causal)
  {
    seq(M_Q, i requires 0 <= i < M_Q => DequantizedRow(q, row + i, k, slab, keys, dim, start + i, scale, causal))
  }

  lemma {:induction false} RowsWellFormed(q: seq<real>, row: nat, k: seq<real>, slab: nat, keys: nat, dim: nat,
                                          start: nat, scale: real, causal: bool)
    requires 0 < keys
    ensures FirstKeyAllowed(DequantizedRows(q, row, k, slab, keys, dim, start, scale, causal))
    ensures forall i :: 0 <= i < M_Q ==> |DequantizedRows(q, row, k, slab, keys, dim, start, scale, causal)[i]| == keys
  {
  }

  lemma {:induction false} RowsMaskedPastTile(q: seq<real>, row: nat, k: seq<real>, slab: nat, keys: nat, dim: nat,
                                              start: nat, scale: real, n: nat)
    requires start + M_Q <= n <= keys
    ensures AllMaskedFrom(DequantizedRows(q, row, k, slab, keys, dim, start, scale, true), n, keys)
  {
  }

  lemma {:induction false} GatheredTilesAreRows(q: seq<real>, row: nat, k: seq<real>, slab: nat, keys: nat, dim: nat,
                                                start: nat, scale: real, causal: bool, key: nat,
                                                s32: seq<int>, qScales: seq<real>, kScales: seq<real>)
    requires key + N_KV <= keys && |s32| == M_Q * N_KV && |qScales| == M_Q && |kScales| == N_KV
    requires forall i :: 0 <= i < M_Q ==> qScales[i] == RowScale(q, dim, row + i)
    requires forall j :: 0 <= j < N_KV ==> kScales[j] == RowScale(k, dim, At(slab, keys, key) + j)
    requires forall i, j :: 0 <= i < M_Q && 0 <= j < N_KV && 0 <= At(i, N_KV, j) < |s32|
               ==> s32[At(i, N_KV, j)] == IntDot(QuantView(q, dim), row + i, QuantView(k, dim),
                   At(slab, keys, key) + j, dim)
    ensures AreTiles(GatherTile(s32, qScales, kScales, scale, causal && key + N_KV > start, start, key),
                     DequantizedRows(q, row, k, slab, keys, dim, start, scale, causal), key)
  {
    hide RowScale, QuantView, Scaled, IntDot;
    var tiles := GatherTile(s32, qScales, kScales, scale, causal && key + N_KV > start, start, key);
    var rows := DequantizedRows(q, row, k, slab, keys, dim, start, scale, causal);
    forall i | 0 <= i < M_Q
      ensures IsTile(tiles[i], rows[i], key)
    {
      forall j | 0 <= j < N_KV
        ensures tiles[i][j] == rows[i][key + j]
      {
        assert At(slab, keys, key) + j == At(slab, keys, 0) + (key + j);
        assert DequantizedScores(q, row + i, k, At(slab, keys, 0), dim, scale)(key + j)
            == DequantizedScore(q, row + i, k, At(slab, keys, key) + j, dim, scale);
      }
    }
  }

  /** Steps 1 to 4: quantise K, multiply, dequantise, mask. */
  method ComputeScores(q8: seq<int>, qScales: seq<real>, ghost q: seq<real>, ghost row: nat, k: seq<real>, slab: nat,
                       keys: nat, dim: nat,
                       start: nat, scale: real, causal: bool, key: nat)
    returns (tiles: seq<seq<Score>>)
    requires (dim == 64 || dim == 128) && key + N_KV <= keys && (At(slab, keys, key) + N_KV) * dim <= |k| &&
        0 <= At(slab, keys, key)
    requires |qScales| == M_Q && HoldsRows(q8, QuantView(q, dim), row, M_Q, dim)
    requires forall i :: 0 <= i < M_Q ==> qScales[i] == RowScale(q, dim, row + i)
    ensures AreTiles(tiles, DequantizedRows(q, row, k, slab, keys, dim, start, scale, causal), key)
  {
    hide HoldsRows, HoldsPacked, QuantView, RowScale, LaneMatrix, IntDot, DequantizedRows, AreTiles, GatherTile;
    var k8, packed, kScales := new int[N_KV * dim], new int[N_KV * dim], new real[N_KV];
    var s32 := new int[M_Q * N_KV];
    PrepareK(k, At(slab, keys, key), dim, k8, packed, kScales);
    QuantViewLanes(q, dim);
    QuantViewLanes(k, dim);
    IntProduct(q8, dim, packed[..], N_KV, s32, QuantView(q, dim), row, QuantView(k, dim), At(slab, keys, key));
    tiles := GatherTile(s32[..], qScales, kScales[..], scale, causal && key + N_KV > start, start, key);
    GatheredTilesAreRows(q, row, k, slab, keys, dim, start, scale, causal, key, s32[..], qScales, kScales[..]);
  }

  /** The accumulator is within n max|V| / 127 of the exact sums over the first n keys. */
  ghost predicate AccumulatorNear(e: Exponential, rows: seq<seq<Score>>, v: seq<real>, slab: nat, keys: nat,
                                  dim: nat, n: nat, rowMax: seq<Score>, o: seq<real>, bound: real)
    requires |rows| == |rowMax| == M_Q && n <= keys && forall i :: 0 <= i < M_Q ==> |rows[i]| == keys
  {
    forall i, d :: 0 <= i < M_Q && 0 <= d < dim ==>
      && 0 <= At(i, dim, d) < |o|
      && Abs(o[At(i, dim, d)] - Accumulated(e, rows[i], Column(View(v, dim), At(slab, keys, 0), d, keys), n, rowMax[i]))
         <= Scaled(n as real, LaneError(1.0, bound))
  }

  ghost predicate TileInvariant(e: Exponential, rows: seq<seq<Score>>, v: seq<real>, slab: nat, keys: nat, dim: nat,
                                n: nat,
                                rowMax: seq<Score>, rowSum: seq<real>, o: seq<real>, bound: real)
  {
    && n <= keys && |rows| == |rowMax| == M_Q
    && (forall i :: 0 <= i < M_Q ==> |rows[i]| == keys)
    && StatsAt(e, rows, n, rowMax, rowSum)
    && AccumulatorNear(e, rows, v, slab, keys, dim, n, rowMax, o, bound)
  }

  /** Rescaling by at most 1 does not enlarge the error, and one tile adds its own. */
  lemma {:induction false} ErrorGrows(alpha: real, o: real, exact: real, o': real, gain: real, n: nat, c: nat, u: real)
    requires 0.0 <= alpha <= 1.0 && Abs(o - exact) <= Scaled(n as real, u)
    requires Abs(o' - Scaled(alpha, o) - gain) <= Scaled(c as real, u)
    ensures Abs(o' - (Scaled(alpha, exact) + gain)) <= Scaled((n + c) as real, u)
  {
    ScaledDifference(alpha, o, exact);
    ShrinkAbs(alpha, o - exact);
    CountsAdd(n, c, u);
    hide Scaled;
  }

  lemma {:induction false} ShrinkAbs(alpha: real, x: real)
    requires 0.0 <= alpha <= 1.0
    ensures Abs(Scaled(alpha, x)) <= Abs(x)
  {
    AbsScaled(alpha, x, 1.0, Abs(x));
    assert Scaled(1.0, Abs(x)) == Abs(x);
  }

  lemma {:induction false} CountsAdd(n: nat, c: nat, u: real)
    ensures Scaled((n + c) as real, u) == Scaled(n as real, u) + Scaled(c as real, u)
  {
  }

  lemma {:induction false} NearElement(e: Exponential, s: seq<Score>, v: seq<real>, slab: nat, keys: nat, dim: nat,
                                       n: nat, t: seq<Score>,
                                       m: Score, l: real, d: nat, o: real, o': real, u: real)
    requires |s| == keys && n + N_KV <= keys && |t| == N_KV && IsTile(t, s, n) && Streamed(e, s, n, m, l)
    requires Max(m, MaxOf(t, N_KV)).Fin?
    requires Abs(o - Accumulated(e, s, Column(View(v, dim), At(slab, keys, 0), d, keys), n, m)) <= Scaled(n as real, u)
    requires var r := StepRow(e, t, m, l);
             Abs(o' - Scaled(r.alpha, o) - ProductSum(r.p, Column(View(v, dim), At(slab, keys, n), d, N_KV),
                 N_KV)) <= Scaled(N_KV as real, u)
    ensures Abs(o' - Accumulated(e, s, Column(View(v, dim), At(slab, keys, 0), d, keys), n + N_KV,
        Fin(StepRow(e, t, m, l).m)))
            <= Scaled((n + N_KV) as real, u)
  {
    hide Scaled, View, IsTile, MaxOf, ProductSum, Accumulated;
    var column := Column(View(v, dim), At(slab, keys, 0), d, keys);
    var u' := Column(View(v, dim), At(slab, keys, n), d, N_KV);
    ColumnTile(v, dim, slab, keys, n, d);
    var r := StepRow(e, t, m, l);
    StreamAccumulator(e, s, column, n, t, u', m, r.m);
    StepWeightsInUnit(e, t, m, l);
    WeightAtMostOne(e, m, r.m);
    ErrorGrows(r.alpha, o, Accumulated(e, s, column, n, m), o', ProductSum(r.p, u', N_KV), n, N_KV, u);
  }

  /** One tile carries the error bound from n to n + 32 keys. */
  lemma {:induction false} NearStep(e: Exponential, rows: seq<seq<Score>>, v: seq<real>, slab: nat, keys: nat,
                                    dim: nat, n: nat, tiles: seq<seq<Score>>,
                                    rowMax: seq<Score>, rowSum: seq<real>, rowMax': seq<Score>, p: seq<real>,
                                    o: seq<real>, o': seq<real>, bound: real)
    requires StatsAt(e, rows, n, rowMax, rowSum) && AreTiles(tiles, rows, n) && |rowMax'| == M_Q
    requires n + N_KV <= keys && |p| == M_Q * N_KV && |o'| == |o|
    requires forall i :: 0 <= i < M_Q ==> |rows[i]| == keys
    requires AccumulatorNear(e, rows, v, slab, keys, dim, n, rowMax, o, bound)
    requires forall i :: 0 <= i < M_Q ==>
               && Max(rowMax[i], MaxOf(tiles[i], N_KV)).Fin?
               && rowMax'[i] == Fin(StepRow(e, tiles[i], rowMax[i], rowSum[i]).m)
               && PRow(p, i) == StepRow(e, tiles[i], rowMax[i], rowSum[i]).p
    requires forall i, d :: 0 <= i < M_Q && 0 <= d < dim && 0 <= At(i, dim, d) < |o| ==>
               Abs(o'[At(i, dim, d)] - Scaled(StepRow(e, tiles[i], rowMax[i], rowSum[i]).alpha, o[At(i, dim, d)])
                   - TileProduct(p, v, dim, At(slab, keys, n), i, d)) <= Scaled(N_KV as real, LaneError(1.0, bound))
    ensures AccumulatorNear(e, rows, v, slab, keys, dim, n + N_KV, rowMax', o', bound)
  {
    hide Scaled, LaneError, View, IsTile, Column, Accumulated, MaxOf, StepRow;
    forall i, d | 0 <= i < M_Q && 0 <= d < dim
      ensures && 0 <= At(i, dim, d) < |o'|
              && Abs(o'[At(i, dim, d)] - Accumulated(e, rows[i], Column(View(v, dim), At(slab, keys, 0), d, keys),
                  n + N_KV, rowMax'[i]))
                 <= Scaled((n + N_KV) as real, LaneError(1.0, bound))
    {
      NearElement(e, rows[i], v, slab, keys, dim, n, tiles[i], rowMax[i], rowSum[i], d, o[At(i, dim, d)],
          o'[At(i, dim, d)], LaneError(1.0, bound));
    }
  }

  lemma {:induction false} ColumnTile(v: seq<real>, dim: nat, slab: nat, keys: nat, n: nat, d: int)
    requires n + N_KV <= keys
    ensures IsTile(Column(View(v, dim), At(slab, keys, n), d, N_KV),
        Column(View(v, dim), At(slab, keys, 0), d, keys), n)
  {
  }

  lemma {:induction false} UpdateStep(e: Exponential, rows: seq<seq<Score>>, v: seq<real>, slab: nat, keys: nat,
                                      dim: nat, n: nat, tiles: seq<seq<Score>>,
                                      rowMax: seq<Score>, rowSum: seq<real>, rowMax': seq<Score>, rowSum': seq<real>,
                                      p: seq<real>, o: seq<real>, o': seq<real>, bound: real)
    requires TileInvariant(e, rows, v, slab, keys, dim, n, rowMax, rowSum, o, bound) && AreTiles(tiles, rows, n)
    requires n + N_KV <= keys && |p| == M_Q * N_KV && |o'| == |o| && |rowMax'| == |rowSum'| == M_Q
    requires forall i :: 0 <= i < M_Q ==>
               && Max(rowMax[i], MaxOf(tiles[i], N_KV)).Fin?
               && var r := StepRow(e, tiles[i], rowMax[i], rowSum[i]);
                  rowMax'[i] == Fin(r.m) && rowSum'[i] == r.l && PRow(p, i) == r.p
    requires forall i, d :: 0 <= i < M_Q && 0 <= d < dim && 0 <= At(i, dim, d) < |o| ==>
               Abs(o'[At(i, dim, d)] - Scaled(StepRow(e, tiles[i], rowMax[i], rowSum[i]).alpha, o[At(i, dim, d)])
                   - TileProduct(p, v, dim, At(slab, keys, n), i, d)) <= Scaled(N_KV as real, LaneError(1.0, bound))
    ensures TileInvariant(e, rows, v, slab, keys, dim, n + N_KV, rowMax', rowSum', o', bound)
  {
    hide StepRow, AreTiles, AccumulatorNear, TileProduct, Scaled, LaneError, StatsAt, MaxOf, Max;
    StatsStep(e, rows, n, tiles, rowMax, rowSum, rowMax', rowSum');
    NearStep(e, rows, v, slab, keys, dim, n, tiles, rowMax, rowSum, rowMax', p, o, o', bound);
  }

  /** The weights of a softmax step lie in [0, 1], so each of their rows has magnitude
      at most 1. */
  lemma {:induction false} WeightRowsAtMostOne(e: Exponential, tiles: seq<seq<Score>>, rowMax: seq<Score>,
                                               rowSum: seq<real>, p: seq<real>)
    requires TileShape(tiles) && |rowMax| == |rowSum| == M_Q && |p| == M_Q * N_KV
    requires forall i :: 0 <= i < M_Q ==>
               && Max(rowMax[i], MaxOf(tiles[i], N_KV)).Fin?
               && PRow(p, i) == StepRow(e, tiles[i], rowMax[i], rowSum[i]).p
    ensures forall i :: 0 <= i < M_Q ==> RowMax(p, N_KV, i) <= 1.0
  {
    hide MaxOf, StepRow, AbsMax;
    forall i | 0 <= i < M_Q
      ensures RowMax(p, N_KV, i) <= 1.0
    {
      StepWeightsInUnit(e, tiles[i], rowMax[i], rowSum[i]);
      AbsMaxIsMaximum(p, i * N_KV, i * N_KV + N_KV);
      if AbsMax(p, i * N_KV, i * N_KV + N_KV) > 0.0 {
        var x :| i * N_KV <= x < i * N_KV + N_KV && Abs(p[x]) == AbsMax(p, i * N_KV, i * N_KV + N_KV);
        assert p[x] == PRow(p, i)[x - i * N_KV];
      }
    }
  }

  /** Softmax and O += P V for one score tile. */
  method UpdateTile(e: Exponential, tiles: seq<seq<Score>>, ghost rows: seq<seq<Score>>, v: seq<real>, slab: nat,
                    keys: nat, dim: nat, key: nat, rowMax: array<Score>, rowSum: array<real>, o: array<real>,
                    ghost bound: real)
    requires (dim == 64 || dim == 128) && key + N_KV <= keys && (At(slab, keys, key) + N_KV) * dim <= |v| &&
        0 <= At(slab, keys, key)
    requires AreTiles(tiles, rows, key) && FirstKeyAllowed(rows)
    requires rowMax.Length == rowSum.Length == M_Q && o.Length == M_Q * dim && rowSum != o
    requires BlockMax(v, At(slab, keys, key), N_KV, dim) <= bound
    requires TileInvariant(e, rows, v, slab, keys, dim, key, rowMax[..], rowSum[..], o[..], bound)
    modifies rowMax, rowSum, o
    ensures TileInvariant(e, rows, v, slab, keys, dim, key + N_KV, rowMax[..], rowSum[..], o[..], bound)
  {
    hide StepRow, AccumulatorNear, TileProduct, Scaled, LaneError, MaxOf, Max, BlockMax, RowMax;
    var p := new real[M_Q * N_KV];
    MaximaFinite(e, rows, key, tiles, rowMax[..], rowSum[..]);
    ghost var m0, l0, o0 := rowMax[..], rowSum[..], o[..];
    SoftmaxTile(e, tiles, dim, rowMax, rowSum, p, o);
    WeightRowsAtMostOne(e, tiles, m0, l0, p[..]);
    AddTile(p[..], v, At(slab, keys, key), dim, o, bound);
    UpdateStep(e, rows, v, slab, keys, dim, key, tiles, m0, l0, rowMax[..], rowSum[..], p[..], o0, o[..], bound);
  }

  lemma {:induction false} SlabBlock(a: seq<real>, slab: nat, slabs: nat, keys: nat, dim: nat, key: nat)
    requires slab < slabs && key + N_KV <= keys && |a| == (slabs * keys) * dim
    ensures 0 <= At(slab, keys, key) && (At(slab, keys, key) + N_KV) * dim <= |a|
    ensures 0 <= At(slab, keys, 0) && (At(slab, keys, 0) + keys) * dim <= |a|
    ensures BlockMax(a, At(slab, keys, key), N_KV, dim) <= BlockMax(a, At(slab, keys, 0), keys, dim)
  {
    hide BlockMax;
    Multiply(0, slab, keys);
    Multiply(slab + 1, slabs, keys);
    Multiply(At(slab, keys, key) + N_KV, slabs * keys, dim);
    Multiply(At(slab, keys, 0) + keys, slabs * keys, dim);
    BlockMaxMonotone(a, At(slab, keys, 0), keys, dim, At(slab, keys, key), N_KV);
  }

  lemma {:induction false} NearSkip(e: Exponential, rows: seq<seq<Score>>, v: seq<real>, slab: nat, keys: nat,
                                    dim: nat, n: nat,
                                    rowMax: seq<Score>, rowSum: seq<real>, o: seq<real>, bound: real)
    requires TileInvariant(e, rows, v, slab, keys, dim, n, rowMax, rowSum, o, bound) &&
        AllMaskedFrom(rows, n, keys) && bound >= 0.0
    ensures TileInvariant(e, rows, v, slab, keys, dim, keys, rowMax, rowSum, o, bound)
  {
    hide LaneError, Scaled, View;
    StatsSkip(e, rows, n, keys, rowMax, rowSum);
    MoreKeysMoreError(n, keys, bound);
    forall i, d | 0 <= i < M_Q && 0 <= d < dim
      ensures && 0 <= At(i, dim, d) < |o|
              && Abs(o[At(i, dim, d)] - Accumulated(e, rows[i], Column(View(v, dim), At(slab, keys, 0), d, keys),
                  keys, rowMax[i]))
                 <= Scaled(keys as real, LaneError(1.0, bound))
    {
      SkipMasked(e, rows[i], Column(View(v, dim), At(slab, keys, 0), d, keys),
          if rowMax[i].Fin? then rowMax[i].v else 0.0, n, keys);
    }
  }

  lemma {:induction false} MoreKeysMoreError(n: nat, keys: nat, bound: real)
    requires n <= keys && bound >= 0.0
    ensures Scaled(n as real, LaneError(1.0, bound)) <= Scaled(keys as real, LaneError(1.0, bound))
  {
    var u := LaneError(1.0, bound);
    assert u >= 0.0;
    ScaledMonotone(u, n as real, keys as real);
  }

  /** The loop over KV tiles, from the initial statistics to the whole rows. */
  method StreamTiles(e: Exponential, q8: seq<int>, qScales: seq<real>, ghost q: seq<real>, ghost row: nat,
                     k: seq<real>, v: seq<real>, slab: nat, ghost slabs: nat,
                     keys: nat, dim: nat, start: nat, scale: real, causal: bool, ghost rows: seq<seq<Score>>,
                     rowMax: array<Score>, rowSum: array<real>, o: array<real>, ghost bound: real)
    requires (dim == 64 || dim == 128) && 0 < keys && keys % 32 == 0 && slab < slabs
    requires |k| == |v| == (slabs * keys) * dim
    requires |qScales| == M_Q && HoldsRows(q8, QuantView(q, dim), row, M_Q, dim)
    requires forall i :: 0 <= i < M_Q ==> qScales[i] == RowScale(q, dim, row + i)
    requires rowMax.Length == rowSum.Length == M_Q && o.Length == M_Q * dim && rowSum != o
    requires rows == DequantizedRows(q, row, k, slab, keys, dim, start, scale, causal)
    requires bound == BlockMax(v, At(slab, keys, 0), keys, dim)
    requires TileInvariant(e, rows, v, slab, keys, dim, 0, rowMax[..], rowSum[..], o[..], bound)
    modifies rowMax, rowSum, o
    ensures TileInvariant(e, rows, v, slab, keys, dim, keys, rowMax[..], rowSum[..], o[..], bound)
  {
    hide TileInvariant, DequantizedRows, AllMaskedFrom, HoldsRows, QuantView, RowScale, BlockMax, At, AreTiles;
    hide FirstKeyAllowed;
    RowsWellFormed(q, row, k, slab, keys, dim, start, scale, causal);
    var kvt := 0;
    while kvt < keys / N_KV
      invariant 0 <= kvt <= keys / N_KV
      invariant TileInvariant(e, rows, v, slab, keys, dim, kvt * N_KV, rowMax[..], rowSum[..], o[..], bound)
    {
      if causal && kvt * N_KV >= start + M_Q {
        break;
      }
      SlabBlock(k, slab, slabs, keys, dim, kvt * N_KV);
      SlabBlock(v, slab, slabs, keys, dim, kvt * N_KV);
      var tiles := ComputeScores(q8, qScales, q, row, k, slab, keys, dim, start, scale, causal, kvt * N_KV);
      UpdateTile(e, tiles, rows, v, slab, keys, dim, kvt * N_KV, rowMax, rowSum, o, bound);
      kvt := kvt + 1;
    }
    if kvt < keys / N_KV {
      RowsMaskedPastTile(q, row, k, slab, keys, dim, start, scale, kvt * N_KV);
      NearSkip(e, rows, v, slab, keys, dim, kvt * N_KV, rowMax[..], rowSum[..], o[..], bound);
    }
  }

  // ---- process_q_tile ----------------------------------------------------------------------------

  lemma {:induction false} RawAllowed(raw: int -> real, causal: bool, pos: nat, keys: nat)
    requires 0 < keys
    ensures AnyAllowed(ScoreRow(raw, causal, pos, keys))
  {
    KeyZeroAllowed(raw, causal, pos, keys);
  }

  /** Softmax attention of one query over its dequantised scores and the exact values. */
  ghost function DequantizedAttention(e: Exponential, q: seq<real>, row: nat, k: seq<real>, v: seq<real>, slab: nat,
                                      keys: nat, dim: nat, pos: nat, scale: real, causal: bool, d: nat): real
    requires 0 < keys
  {
    RawAllowed(DequantizedScores(q, row, k, At(slab, keys, 0), dim, scale), causal, pos, keys);
    Attend(e, DequantizedRow(q, row, k, slab, keys, dim, pos, scale, causal),
        Column(View(v, dim), At(slab, keys, 0), d, keys))
  }

  /** keys * max|V| / 127. */
  function ValueError(keys: nat, bound: real): real {
    Scaled(keys as real, LaneError(1.0, bound))
  }

  /** Dividing by a sum of at least one does not enlarge the error. */
  lemma {:induction false} NormalisedError(o: real, exact: real, l: real, u: real)
    requires l >= 1.0 && Abs(o - exact) <= u
    ensures Abs(Scaled(InverseSum(l), o) - exact / l) <= u
  {
    var f := InverseSum(l);
    ScaledInverse(exact, l);
    ScaledDifference(f, o, exact);
    InverseAtMostOne(l);
    ShrinkAbs(f, o - exact);
  }

  lemma {:induction false} InverseAtMostOne(l: real)
    requires l >= 1.0
    ensures 0.0 <= InverseSum(l) <= 1.0
  {
  }

  lemma {:induction false} NormalisedIsNear(e: Exponential, q: seq<real>, row: nat, k: seq<real>, v: seq<real>,
                                            slab: nat, keys: nat, dim: nat, start: nat, scale: real, causal: bool,
                                            rowMax: seq<Score>, rowSum: seq<real>, o: seq<real>, bound: real, i: nat,
                                            d: nat)
    requires 0 < keys && i < M_Q && d < dim
    requires TileInvariant(e, DequantizedRows(q, row, k, slab, keys, dim, start, scale, causal), v, slab, keys, dim,
        keys, rowMax, rowSum, o, bound)
    ensures Abs(Normalised(o, rowSum, dim, i, d) - DequantizedAttention(e, q, row + i, k, v, slab, keys, dim,
        start + i, scale, causal, d)) <= ValueError(keys, bound)
  {
    hide Scaled, LaneError;
    var s := DequantizedRow(q, row + i, k, slab, keys, dim, start + i, scale, causal);
    var column := Column(View(v, dim), At(slab, keys, 0), d, keys);
    RawAllowed(DequantizedScores(q, row + i, k, At(slab, keys, 0), dim, scale), causal, start + i, keys);
    assert s == DequantizedRows(q, row, k, slab, keys, dim, start, scale, causal)[i];
    StreamEnd(e, s, column, rowMax[i], rowSum[i]);
    NormalisedError(o[At(i, dim, d)], Accumulated(e, s, column, keys, rowMax[i]), rowSum[i], ValueError(keys, bound));
  }

  /** Rows row .. row + 31 of out are near attention over the dequantised scores. */
  ghost predicate TileNear(e: Exponential, q: seq<real>, row: nat, k: seq<real>, v: seq<real>, slab: nat, keys: nat,
                           dim: nat, start: nat, scale: real, causal: bool, out: seq<real>, bound: real)
    requires 0 < keys
  {
    forall r, d :: row <= r < row + M_Q && 0 <= d < dim && 0 <= At(r, dim, d) < |out| ==>
      Abs(out[At(r, dim, d)]
          - DequantizedAttention(e, q, r, k, v, slab, keys, dim, start + (r - row), scale, causal, d))
      <= ValueError(keys, bound)
  }

  lemma {:induction false} StoredIsNear(e: Exponential, q: seq<real>, row: nat, k: seq<real>, v: seq<real>,
                                        slab: nat, keys: nat, dim: nat, start: nat, scale: real, causal: bool,
                                        rowMax: seq<Score>, rowSum: seq<real>, o: seq<real>, out: seq<real>,
                                        bound: real)
    requires 0 < keys
    requires TileInvariant(e, DequantizedRows(q, row, k, slab, keys, dim, start, scale, causal), v, slab, keys, dim,
        keys, rowMax, rowSum, o, bound)
    requires forall r, d :: row <= r < row + M_Q && 0 <= d < dim && 0 <= At(r, dim, d) < |out|
               ==> out[At(r, dim, d)] == Normalised(o, rowSum, dim, r - row, d)
    ensures TileNear(e, q, row, k, v, slab, keys, dim, start, scale, causal, out, bound)
  {
    hide TileInvariant, Normalised, At, ValueError, DequantizedAttention;
    forall r, d | row <= r < row + M_Q && 0 <= d < dim && 0 <= At(r, dim, d) < |out|
      ensures Abs(out[At(r, dim, d)]
                  - DequantizedAttention(e, q, r, k, v, slab, keys, dim, start + (r - row), scale, causal, d))
              <= ValueError(keys, bound)
    {
      NormalisedIsNear(e, q, row, k, v, slab, keys, dim, start, scale, causal, rowMax, rowSum, o, bound, r - row, d);
    }
  }

  lemma {:induction false} InitialInvariant(e: Exponential, rows: seq<seq<Score>>, v: seq<real>, slab: nat,
                                            keys: nat, dim: nat, rowMax: seq<Score>, rowSum: seq<real>, o: seq<real>,
                                            bound: real)
    requires |rows| == |rowMax| == |rowSum| == M_Q && |o| == M_Q * dim
    requires forall i :: 0 <= i < M_Q ==> |rows[i]| == keys && rowMax[i] == NegInf && rowSum[i] == 0.0
    requires forall x :: 0 <= x < |o| ==> o[x] == 0.0
    ensures TileInvariant(e, rows, v, slab, keys, dim, 0, rowMax, rowSum, o, bound)
  {
    forall i, d | 0 <= i < M_Q && 0 <= d < dim
      ensures 0 <= At(i, dim, d) < |o|
    {
      AtInBounds(i, M_Q, dim, d);
    }
  }

  /** process_q_tile: every stored element is within keys * max|V| / 127 of softmax
      attention over the dequantised scores, max|V| taken over this head's values. */
  method ProcessQTile(e: Exponential, q: seq<real>, row: nat, k: seq<real>, v: seq<real>, slab: nat, ghost slabs: nat,
                      out: array<real>, keys: nat, dim: nat, start: nat, scale: real, causal: bool)
    requires (dim == 64 || dim == 128) && 0 < keys && keys % 32 == 0 && slab < slabs
    requires (row + M_Q) * dim <= |q| == out.Length && |k| == |v| == (slabs * keys) * dim
    modifies out
    ensures TileNear(e, q, row, k, v, slab, keys, dim, start, scale, causal, out[..],
        BlockMax(v, At(slab, keys, 0), keys, dim))
    ensures forall r, d :: 0 <= d < dim && 0 <= At(r, dim, d) < out.Length && !(row <= r < row + M_Q)
              ==> out[At(r, dim, d)] == old(out[At(r, dim, d)])
  {
    hide TileInvariant, DequantizedRow, DequantizedRows, DequantizedAttention, TileNear, Normalised, At, BlockMax;
    hide HoldsRows, QuantView, RowScale;
    var rowMax := new Score[M_Q](_ => NegInf);
    var rowSum := new real[M_Q](_ => 0.0);
    var o := new real[M_Q * dim](_ => 0.0);
    var q8, qScales := new int[M_Q * dim], new real[M_Q];
    ghost var bound := BlockMax(v, At(slab, keys, 0), keys, dim);
    ghost var rows := DequantizedRows(q, row, k, slab, keys, dim, start, scale, causal);
    RowsWellFormed(q, row, k, slab, keys, dim, start, scale, causal);
    InitialInvariant(e, rows, v, slab, keys, dim, rowMax[..], rowSum[..], o[..], bound);
    QuantizeRows(q, row, M_Q, dim, q8, qScales);
    StreamTiles(e, q8[..], qScales[..], q, row, k, v, slab, slabs, keys, dim, start, scale, causal, rows, rowMax,
        rowSum, o, bound);
    StoreOutput(o[..], rowSum[..], out, row, dim);
    StoredIsNear(e, q, row, k, v, slab, keys, dim, start, scale, causal, rowMax[..], rowSum[..], o[..], out[..], bound);
  }
}

/** TDPBSSD and the INT8 operand layouts. */
module AmxInt8Tiles {
  import opened Amx
  import opened Matrices
  import opened Quantization

  /** Two's-complement wrap-around of a 32-bit accumulator. */
  function Wrap32(z: int): (w: int)
    ensures -0x8000_0000 <= w < 0x8000_0000 && (w - z) % 0x1_0000_0000 == 0
  {
    (z + 0x8000_0000) % 0x1_0000_0000 - 0x8000_0000
  }

  /** One TDPBSSD accumulator element after k of its 16 steps: each step adds the
      products of four row elements with the four bytes in packed row k of b, and
      wraps around at 32 bits. */
  function QuadSteps(acc: int, a: seq<int>, b: Tile<int>, n: int, k: nat): int
    requires |a| == 64 && IsTileOf(b, 64) && 0 <= n < 16 && k <= 16
  {
    if k == 0 then acc
    else Wrap32(QuadSteps(acc, a, b, n, k - 1)
                + Product(a[4 * k - 4], b[k - 1][4 * n]) + Product(a[4 * k - 3], b[k - 1][4 * n + 1])
                + Product(a[4 * k - 2], b[k - 1][4 * n + 2]) + Product(a[4 * k - 1], b[k - 1][4 * n + 3]))
  }

  /** TDPBSSD. */
  function TileDpBssd(c: Tile<int>, a: Tile<int>, b: Tile<int>): (t: Tile<int>)
    requires IsTileOf(c, 16) && IsTileOf(a, 64) && IsTileOf(b, 64)
    ensures IsTileOf(t, 16)
  {
    seq(ROWS, m requires 0 <= m < ROWS =>
      seq(16, n requires 0 <= n < 16 => QuadSteps(c[m][n], a[m], b, n, 16)))
  }

  predicate IsLane(x: int) {
    -LANE_MAX <= x <= LANE_MAX
  }

  ghost predicate LaneMatrix(x: IntMatrix) {
    forall i, d :: IsLane(x(i, d))
  }

  lemma {:induction false} LaneProduct(a: int, b: int)
    requires IsLane(a) && IsLane(b)
    ensures -16129 <= Product(a, b) <= 16129
  {
    if a >= 0 {
      Multiply(-LANE_MAX, b, a);
      Multiply(b, LANE_MAX, a);
      Multiply(a, LANE_MAX, LANE_MAX);
    } else {
      Multiply(-LANE_MAX, b, -a);
      Multiply(b, LANE_MAX, -a);
      Multiply(-a, LANE_MAX, LANE_MAX);
    }
  }

  /** Every partial inner product of n lanes stays within 127 * 127 * n. */
  lemma {:induction false} IntDotBound(x: IntMatrix, i: int, y: IntMatrix, j: int, n: nat)
    requires LaneMatrix(x) && LaneMatrix(y)
    ensures -16129 * n <= IntDot(x, i, y, j, n) <= 16129 * n
  {
    if n > 0 {
      IntDotBound(x, i, y, j, n - 1);
      LaneProduct(x(i, n - 1), y(j, n - 1));
    }
  }

  /** For a head dim of at most 128 a score accumulator is at most 2,064,512 in
      magnitude: it never wraps and converts to single precision exactly. */
  lemma {:induction false} ScoreFitsFloat(x: IntMatrix, i: int, y: IntMatrix, j: int, dim: nat)
    requires LaneMatrix(x) && LaneMatrix(y) && dim <= 128
    ensures -2_064_512 <= IntDot(x, i, y, j, dim) <= 2_064_512
    ensures -0x100_0000 < IntDot(x, i, y, j, dim) < 0x100_0000
    ensures Wrap32(IntDot(x, i, y, j, dim)) == IntDot(x, i, y, j, dim)
  {
    IntDotBound(x, i, y, j, dim);
  }

  /** Row m of A and column n of B hold 64 consecutive lanes of row i of x and row j
      of y, the latter quad-packed. */
  ghost predicate HoldsQuads(a: seq<int>, b: Tile<int>, n: int, x: IntMatrix, i: int, y: IntMatrix, j: int, d0: int)
    requires |a| == 64 && IsTileOf(b, 64) && 0 <= n < 16
  {
    && (forall c :: 0 <= c < 64 ==> a[c] == x(i, d0 + c))
    && (forall p :: 0 <= p < 16 ==>
          && b[p][4 * n] == y(j, d0 + 4 * p) && b[p][4 * n + 1] == y(j, d0 + 4 * p + 1)
          && b[p][4 * n + 2] == y(j, d0 + 4 * p + 2) && b[p][4 * n + 3] == y(j, d0 + 4 * p + 3))
  }

  /** The four products of step p are the next four terms of the inner product. */
  lemma {:induction false} HeldQuad(a: seq<int>, b: Tile<int>, n: int, x: IntMatrix, i: int, y: IntMatrix, j: int,
                                    d0: int, p: int)
    requires |a| == 64 && IsTileOf(b, 64) && 0 <= n < 16 && 0 <= p < 16
    requires HoldsQuads(a, b, n, x, i, y, j, d0)
    ensures var d := d0 + 4 * p;
            && Product(a[4 * p], b[p][4 * n]) == Product(x(i, d), y(j, d))
            && Product(a[4 * p + 1], b[p][4 * n + 1]) == Product(x(i, d + 1), y(j, d + 1))
            && Product(a[4 * p + 2], b[p][4 * n + 2]) == Product(x(i, d + 2), y(j, d + 2))
            && Product(a[4 * p + 3], b[p][4 * n + 3]) == Product(x(i, d + 3), y(j, d + 3))
  {
    hide Product;
    assert a[4 * p] == x(i, d0 + 4 * p) && a[4 * p + 1] == x(i, d0 + (4 * p + 1));
    assert a[4 * p + 2] == x(i, d0 + (4 * p + 2)) && a[4 * p + 3] == x(i, d0 + (4 * p + 3));
  }

  /** No step wraps, so the steps extend the exact inner product. */
  lemma {:induction false} QuadStepsExtendDot(acc: int, a: seq<int>, b: Tile<int>, n: int, k: nat, x: IntMatrix,
                                              i: int, y: IntMatrix, j: int, d0: nat)
    requires |a| == 64 && IsTileOf(b, 64) && 0 <= n < 16 && k <= 16 && d0 <= 64
    requires LaneMatrix(x) && LaneMatrix(y)
    requires acc == IntDot(x, i, y, j, d0) && HoldsQuads(a, b, n, x, i, y, j, d0)
    ensures QuadSteps(acc, a, b, n, k) == IntDot(x, i, y, j, d0 + 4 * k)
  {
    hide Product, LaneMatrix, Wrap32, IntDot, HoldsQuads;
    if k > 0 {
      QuadStepsExtendDot(acc, a, b, n, k - 1, x, i, y, j, d0);
      HeldQuad(a, b, n, x, i, y, j, d0, k - 1);
      DotOfFour(x, i, y, j, d0 + 4 * (k - 1));
      ScoreFitsFloat(x, i, y, j, d0 + 4 * k);
    }
  }

  lemma {:induction false} DotOfFour(x: IntMatrix, i: int, y: IntMatrix, j: int, d: nat)
    ensures IntDot(x, i, y, j, d + 4)
         == IntDot(x, i, y, j, d) + Product(x(i, d), y(j, d)) + Product(x(i, d + 1), y(j, d + 1))
            + Product(x(i, d + 2), y(j, d + 2)) + Product(x(i, d + 3), y(j, d + 3))
  {
    assert IntDot(x, i, y, j, d + 1) == IntDot(x, i, y, j, d) + Product(x(i, d), y(j, d));
    assert IntDot(x, i, y, j, d + 2) == IntDot(x, i, y, j, d + 1) + Product(x(i, d + 1), y(j, d + 1));
    assert IntDot(x, i, y, j, d + 3) == IntDot(x, i, y, j, d + 2) + Product(x(i, d + 2), y(j, d + 2));
    assert IntDot(x, i, y, j, d + 4) == IntDot(x, i, y, j, d + 3) + Product(x(i, d + 3), y(j, d + 3));
  }

  // ---- quad packing -------------------------------------------------------------------

  /** First of the four adjacent cells of quad (p, q) in a packed buffer with qs quads
      per row. */
  function Quad(p: int, qs: int, q: int): int {
    At(p, 4 * qs, 4 * q)
  }

  lemma {:induction false} QuadInBounds(p: int, ps: int, qs: int, q: int)
    requires 0 <= p < ps && 0 <= q < qs
    ensures 0 <= Quad(p, qs, q) && Quad(p, qs, q) + 3 < ps * (4 * qs)
  {
    AtInBounds(p, ps, 4 * qs, 4 * q);
    AtInBounds(p, ps, 4 * qs, 4 * q + 3);
  }

  lemma {:induction false} QuadsApart(p: int, p': int, qs: int, q: int, q': int)
    requires 0 <= q < qs && 0 <= q' < qs
    requires -3 <= Quad(p, qs, q) - Quad(p', qs, q') <= 3
    ensures p == p' && q == q'
  {
    if p < p' {
      AtOrder(p, 4 * q + 3, p', 4 * q', 4 * qs);
    } else if p' < p {
      AtOrder(p', 4 * q' + 3, p, 4 * q, 4 * qs);
    }
  }

  /** Quad (g, n) holds lanes 4g .. 4g + 3 of row n. */
  ghost predicate RowQuad(src: seq<int>, dst: seq<int>, rows: int, cols: int, g: int, n: int) {
    && 0 <= At(n, cols, 4 * g) && At(n, cols, 4 * g) + 3 < |src|
    && 0 <= Quad(g, rows, n) && Quad(g, rows, n) + 3 < |dst|
    && dst[Quad(g, rows, n)] == src[At(n, cols, 4 * g)]
    && dst[Quad(g, rows, n) + 1] == src[At(n, cols, 4 * g) + 1]
    && dst[Quad(g, rows, n) + 2] == src[At(n, cols, 4 * g) + 2]
    && dst[Quad(g, rows, n) + 3] == src[At(n, cols, 4 * g) + 3]
  }

  /** Quad (g, n) holds rows 4g .. 4g + 3 of column n. */
  ghost predicate ColumnQuad(src: seq<int>, dst: seq<int>, cols: int, g: int, n: int) {
    && 0 <= At(4 * g, cols, n) && At(4 * g + 3, cols, n) < |src|
    && 0 <= At(4 * g + 1, cols, n) < |src| && 0 <= At(4 * g + 2, cols, n) < |src| && 0 <= At(4 * g + 3, cols, n)
    && At(4 * g, cols, n) < |src|
    && 0 <= Quad(g, cols, n) && Quad(g, cols, n) + 3 < |dst|
    && dst[Quad(g, cols, n)] == src[At(4 * g, cols, n)]
    && dst[Quad(g, cols, n) + 1] == src[At(4 * g + 1, cols, n)]
    && dst[Quad(g, cols, n) + 2] == src[At(4 * g + 2, cols, n)]
    && dst[Quad(g, cols, n) + 3] == src[At(4 * g + 3, cols, n)]
  }

  /** Stores the four lanes of one slot. */
  method StoreQuad(dst: array<int>, slot: nat, x0: int, x1: int, x2: int, x3: int)
    requires slot + 3 < dst.Length
    modifies dst
    ensures dst[slot] == x0 && dst[slot + 1] == x1 && dst[slot + 2] == x2 && dst[slot + 3] == x3
    ensures forall x :: 0 <= x < dst.Length && !(slot <= x < slot + 4) ==> dst[x] == old(dst[x])
  {
    dst[slot], dst[slot + 1], dst[slot + 2], dst[slot + 3] := x0, x1, x2, x3;
  }

  method StoreRowQuad(src: seq<int>, dst: array<int>, rows: nat, cols: nat, g: nat, n: nat)
    requires |src| == rows * cols && dst.Length == (cols / 4) * (4 * rows) && g < cols / 4 && n < rows
    modifies dst
    ensures RowQuad(src, dst[..], rows, cols, g, n)
    ensures forall g', n' :: 0 <= n' < rows && !(g' == g && n' == n) && RowQuad(src, old(dst[..]), rows, cols, g', n')
              ==> RowQuad(src, dst[..], rows, cols, g', n')
  {
    var slot := Quad(g, rows, n);
    QuadInBounds(g, cols / 4, rows, n);
    AtInBounds(n, rows, cols, 4 * g);
    AtInBounds(n, rows, cols, 4 * g + 3);
    var x := At(n, cols, 4 * g);
    StoreQuad(dst, slot, src[x], src[x + 1], src[x + 2], src[x + 3]);
    forall g', n' | 0 <= n' < rows && !(g' == g && n' == n) && RowQuad(src, old(dst[..]), rows, cols, g', n')
      ensures RowQuad(src, dst[..], rows, cols, g', n')
    {
      if -3 <= slot - Quad(g', rows, n') <= 3 {
        QuadsApart(g, g', rows, n, n');
      }
    }
  }

  /** Packs K^T: dst[d / 4, n, t] = k[n, 4 (d / 4) + t]. */
  method PackRowQuads(src: seq<int>, rows: nat, cols: nat, dst: array<int>)
    requires cols % 4 == 0 && |src| == rows * cols && dst.Length == (cols / 4) * (4 * rows)
    modifies dst
    ensures forall g, n :: 0 <= g < cols / 4 && 0 <= n < rows ==> RowQuad(src, dst[..], rows, cols, g, n)
  {
    hide RowQuad;
    for dg := 0 to cols / 4
      invariant forall g, n :: 0 <= g < dg && 0 <= n < rows ==> RowQuad(src, dst[..], rows, cols, g, n)
    {
      for n := 0 to rows
        invariant forall g, n :: 0 <= g < dg && 0 <= n < rows ==> RowQuad(src, dst[..], rows, cols, g, n)
        invariant forall n' :: 0 <= n' < n ==> RowQuad(src, dst[..], rows, cols, dg, n')
      {
        StoreRowQuad(src, dst, rows, cols, dg, n);
      }
    }
  }

  method StoreColumnQuad(src: seq<int>, dst: array<int>, rows: nat, cols: nat, g: nat, n: nat)
    requires |src| == rows * cols && dst.Length == (rows / 4) * (4 * cols) && g < rows / 4 && n < cols
    modifies dst
    ensures ColumnQuad(src, dst[..], cols, g, n)
    ensures forall g', n' :: 0 <= n' < cols && !(g' == g && n' == n) && ColumnQuad(src, old(dst[..]), cols, g', n')
              ==> ColumnQuad(src, dst[..], cols, g', n')
  {
    var slot := Quad(g, cols, n);
    QuadInBounds(g, rows / 4, cols, n);
    AtInBounds(4 * g, rows, cols, n);
    AtInBounds(4 * g + 1, rows, cols, n);
    AtInBounds(4 * g + 2, rows, cols, n);
    AtInBounds(4 * g + 3, rows, cols, n);
    StoreQuad(dst, slot, src[At(4 * g, cols, n)], src[At(4 * g + 1, cols, n)], src[At(4 * g + 2, cols, n)],
        src[At(4 * g + 3, cols, n)]);
    forall g', n' | 0 <= n' < cols && !(g' == g && n' == n) && ColumnQuad(src, old(dst[..]), cols, g', n')
      ensures ColumnQuad(src, dst[..], cols, g', n')
    {
      if -3 <= slot - Quad(g', cols, n') <= 3 {
        QuadsApart(g, g', cols, n, n');
      }
    }
  }

  /** pack_int8_B. */
  method PackColumnQuads(src: seq<int>, rows: nat, cols: nat, dst: array<int>)
    requires rows % 4 == 0 && |src| == rows * cols && dst.Length == (rows / 4) * (4 * cols)
    modifies dst
    ensures forall g, n :: 0 <= g < rows / 4 && 0 <= n < cols ==> ColumnQuad(src, dst[..], cols, g, n)
  {
    hide ColumnQuad;
    for kg := 0 to rows / 4
      invariant forall g, n :: 0 <= g < kg && 0 <= n < cols ==> ColumnQuad(src, dst[..], cols, g, n)
    {
      for n := 0 to cols
        invariant forall g, n :: 0 <= g < kg && 0 <= n < cols ==> ColumnQuad(src, dst[..], cols, g, n)
        invariant forall n' :: 0 <= n' < n ==> ColumnQuad(src, dst[..], cols, kg, n')
      {
        StoreColumnQuad(src, dst, rows, cols, kg, n);
      }
    }
  }
}

/** The AMX tile instructions on 16-row tiles, over exact reals. A tile operand is
    the block of a row-major buffer that starts at element (i0, j0): the base
    pointer is i0 * ld + j0 and the row stride is ld elements. */
module Amx {
  import opened Matrices
  import opened Reals
  import opened Softmax

  const ROWS := 16

  type Tile<T> = seq<seq<T>>

  predicate IsTileOf<T>(t: Tile<T>, cols: nat) {
    |t| == ROWS && forall r :: 0 <= r < ROWS ==> |t[r]| == cols
  }

  /** The 16 x cols block at (i0, j0) lies inside a buffer of the given length. */
  predicate BlockFits(length: int, i0: int, ld: int, j0: int, cols: int) {
    0 <= i0 && 0 <= j0 && 0 <= cols && j0 + cols <= ld && (i0 + ROWS) * ld <= length
  }

  lemma {:induction false} BlockInBounds(length: int, i0: int, ld: int, j0: int, cols: int)
    requires BlockFits(length, i0, ld, j0, cols)
    ensures forall i, j :: i0 <= i < i0 + ROWS && j0 <= j < j0 + cols ==> 0 <= At(i, ld, j) < length
  {
    forall i, j | i0 <= i < i0 + ROWS && j0 <= j < j0 + cols
      ensures 0 <= At(i, ld, j) < length
    {
      AtInBounds(i, i0 + ROWS, ld, j);
    }
  }

  /** TILEZERO. */
  function TileZero<T>(zero: T): (t: Tile<T>)
    ensures IsTileOf(t, 16)
    ensures forall r, c :: 0 <= r < ROWS && 0 <= c < 16 ==> t[r][c] == zero
  {
    seq(ROWS, _ => seq(16, _ => zero))
  }

  /** TILELOADD. */
  function TileLoad<T>(mem: seq<T>, i0: int, ld: int, j0: int, cols: int): (t: Tile<T>)
    requires BlockFits(|mem|, i0, ld, j0, cols)
    ensures IsTileOf(t, cols)
    ensures forall r, c :: 0 <= r < ROWS && 0 <= c < cols
              ==> 0 <= At(i0 + r, ld, j0 + c) < |mem| && t[r][c] == mem[At(i0 + r, ld, j0 + c)]
  {
    BlockInBounds(|mem|, i0, ld, j0, cols);
    seq(ROWS, r requires 0 <= r < ROWS =>
      seq(cols, c requires 0 <= c < cols => mem[At(i0 + r, ld, j0 + c)]))
  }

  /** One 16-lane store. */
  method StoreLanes<T>(mem: array<T>, off: int, lanes: seq<T>)
    requires |lanes| == 16 && 0 <= off && off + 16 <= mem.Length
    modifies mem
    ensures forall x :: 0 <= x < mem.Length
              ==> mem[x] == if off <= x < off + 16 then lanes[x - off] else old(mem[x])
  {
    for c := 0 to 16
      invariant forall x :: 0 <= x < mem.Length
                  ==> mem[x] == if off <= x < off + c then lanes[x - off] else old(mem[x])
    {
      mem[off + c] := lanes[c];
    }
  }

  /** TILESTORED: one row after the other. */
  method TileStore<T>(mem: array<T>, i0: int, ld: int, j0: int, t: Tile<T>)
    requires IsTileOf(t, 16) && BlockFits(mem.Length, i0, ld, j0, 16)
    modifies mem
    ensures forall i, j :: 0 <= j < ld && 0 <= At(i, ld, j) < mem.Length
              ==> mem[At(i, ld, j)] == if i0 <= i < i0 + ROWS && j0 <= j < j0 + 16 then t[i - i0][j - j0]
                                       else old(mem[At(i, ld, j)])
  {
    BlockInBounds(mem.Length, i0, ld, j0, 16);
    for r := 0 to ROWS
      invariant forall i, j :: 0 <= j < ld && 0 <= At(i, ld, j) < mem.Length
                  ==> mem[At(i, ld, j)] == if i0 <= i < i0 + r && j0 <= j < j0 + 16 then t[i - i0][j - j0]
                                           else old(mem[At(i, ld, j)])
    {
      var off := At(i0 + r, ld, j0);
      assert At(i0 + r, ld, j0 + 15) == off + 15;
      forall i, j | 0 <= j < ld && off <= At(i, ld, j) < off + 16
        ensures i == i0 + r && j0 <= j < j0 + 16 && At(i, ld, j) == off + (j - j0)
      {
        if i < i0 + r {
          AtOrder(i, j, i0 + r, j0, ld);
        } else if i > i0 + r {
          AtOrder(i0 + r, j0 + 15, i, j, ld);
        }
      }
      StoreLanes(mem, off, t[r]);
    }
  }

  /** One TDPBF16PS accumulator element after k of its 16 steps: each step adds the
      products of one pair of row elements with the pair in packed row k of b. */
  function PairSteps(acc: real, a: seq<real>, b: Tile<real>, n: int, k: nat): real
    requires |a| == 32 && IsTileOf(b, 32) && 0 <= n < 16 && k <= 16
  {
    if k == 0 then acc
    else PairSteps(acc, a, b, n, k - 1)
         + Scaled(a[2 * k - 2], b[k - 1][2 * n]) + Scaled(a[2 * k - 1], b[k - 1][2 * n + 1])
  }

  /** TDPBF16PS. */
  function TileDpBf16(c: Tile<real>, a: Tile<real>, b: Tile<real>): (t: Tile<real>)
    requires IsTileOf(c, 16) && IsTileOf(a, 32) && IsTileOf(b, 32)
    ensures IsTileOf(t, 16)
  {
    seq(ROWS, m requires 0 <= m < ROWS =>
      seq(16, n requires 0 <= n < 16 => PairSteps(c[m][n], a[m], b, n, 16)))
  }

  /** When the operands hold 2k consecutive elements of row i of x and of row j of y
      (the latter pair-packed), the steps extend their inner product. */
  lemma {:induction false} PairStepsExtendDot(acc: real, a: seq<real>, b: Tile<real>, n: int, k: nat, x: Matrix,
                                              i: int, y: Matrix, j: int, d0: nat)
    requires |a| == 32 && IsTileOf(b, 32) && 0 <= n < 16 && k <= 16
    requires acc == Dot(x, i, y, j, d0)
    requires forall c :: 0 <= c < 32 ==> a[c] == x(i, d0 + c)
    requires forall p :: 0 <= p < 16 ==> b[p][2 * n] == y(j, d0 + 2 * p) && b[p][2 * n + 1] == y(j, d0 + 2 * p + 1)
    ensures PairSteps(acc, a, b, n, k) == Dot(x, i, y, j, d0 + 2 * k)
  {
    if k > 0 {
      PairStepsExtendDot(acc, a, b, n, k - 1, x, i, y, j, d0);
      var p := k - 1;
      assert a[2 * p] == x(i, d0 + 2 * p) && a[2 * p + 1] == x(i, d0 + 2 * p + 1);
      assert Dot(x, i, y, j, d0 + 2 * p + 1)
          == Dot(x, i, y, j, d0 + 2 * p) + Scaled(x(i, d0 + 2 * p), y(j, d0 + 2 * p));
      assert Dot(x, i, y, j, d0 + 2 * p + 2)
          == Dot(x, i, y, j, d0 + 2 * p + 1) + Scaled(x(i, d0 + 2 * p + 1), y(j, d0 + 2 * p + 1));
    }
  }

  /** When the B operand holds a pair-packed column u, the steps add the inner
      product of the A row with that column. */
  lemma {:induction false} PairStepsAddProducts(acc: real, a: seq<real>, b: Tile<real>, n: int, k: nat, u: seq<real>)
    requires |a| == 32 && IsTileOf(b, 32) && 0 <= n < 16 && k <= 16 && |u| == 32
    requires forall p :: 0 <= p < 16 ==> b[p][2 * n] == u[2 * p] && b[p][2 * n + 1] == u[2 * p + 1]
    ensures PairSteps(acc, a, b, n, k) == acc + ProductSum(a, u, 2 * k)
  {
    if k > 0 {
      PairStepsAddProducts(acc, a, b, n, k - 1, u);
      var p := k - 1;
      assert ProductSum(a, u, 2 * p + 1) == ProductSum(a, u, 2 * p) + Scaled(a[2 * p], u[2 * p]);
      assert ProductSum(a, u, 2 * p + 2) == ProductSum(a, u, 2 * p + 1) + Scaled(a[2 * p + 1], u[2 * p + 1]);
    }
  }
}

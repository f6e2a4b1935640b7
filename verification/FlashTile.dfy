/** The parts of a flash-attention query tile that both AMX kernels share: 32 query
    rows against KV tiles of 32 keys, with the statistics of every row kept in
    rowMax and rowSum and the unnormalised output in a row-major accumulator. */
module FlashTile {
  import opened Amx
  import opened Attention
  import opened Matrices
  import opened Reals
  import opened Softmax

  const M_Q := 32
  const N_KV := 32

  /** Row i of a 32 x 32 buffer. */
  function PRow<T>(p: seq<T>, i: int): (r: seq<T>)
    requires |p| == M_Q * N_KV && 0 <= i < M_Q
    ensures |r| == N_KV
  {
    p[i * N_KV..i * N_KV + N_KV]
  }

  /** What one accumulator element gains from a KV tile. */
  ghost function TileProduct(p: seq<real>, v: seq<real>, dim: int, first: int, i: int, d: int): real
    requires |p| == M_Q * N_KV && 0 <= i < M_Q
  {
    ProductSum(PRow(p, i), Column(View(v, dim), first, d, N_KV), N_KV)
  }

  method ScaleLanes(o: array<real>, off: nat, f: real)
    requires off + 16 <= o.Length
    modifies o
    ensures forall x :: 0 <= x < o.Length ==> o[x] == if off <= x < off + 16 then Scaled(f, old(o[x])) else old(o[x])
  {
    for c := 0 to 16
      invariant forall x :: 0 <= x < o.Length ==> o[x] == if off <= x < off + c then Scaled(f, old(o[x])) else old(o[x])
    {
      o[off + c] := Scaled(f, o[off + c]);
    }
  }

  /** Scales dim consecutive elements, 16 lanes at a time. */
  method ScaleRange(o: array<real>, off: nat, dim: nat, f: real)
    requires dim % 16 == 0 && off + dim <= o.Length
    modifies o
    ensures forall x :: 0 <= x < o.Length ==> o[x] == if off <= x < off + dim then Scaled(f, old(o[x])) else old(o[x])
  {
    var d := 0;
    while d < dim
      invariant 0 <= d <= dim && d % 16 == 0
      invariant forall x :: 0 <= x < o.Length ==> o[x] == if off <= x < off + d then Scaled(f, old(o[x])) else old(o[x])
    {
      ScaleLanes(o, off + d, f);
      d := d + 16;
    }
  }

  /** Rescales row i of the accumulator. */
  method RescaleRow(o: array<real>, i: nat, dim: nat, alpha: real)
    requires dim % 16 == 0 && i < M_Q && M_Q * dim <= o.Length
    modifies o
    ensures forall i', d :: 0 <= i' < M_Q && 0 <= d < dim && 0 <= At(i', dim, d) < o.Length
              ==> o[At(i', dim, d)] == if i' == i then Scaled(alpha, old(o[At(i', dim, d)])) else old(o[At(i', dim, d)])
  {
    Multiply(i + 1, M_Q, dim);
    Multiply(0, i, dim);
    ScaleRange(o, At(i, dim, 0), dim, alpha);
    forall i', d | 0 <= i' < M_Q && 0 <= d < dim && 0 <= At(i', dim, d) < o.Length
      ensures At(i, dim, 0) <= At(i', dim, d) < At(i, dim, 0) + dim <==> i' == i
    {
      RowRange(i, i', d, dim);
    }
  }

  /** Stores the 32 weights of row i. */
  method StoreWeights(p: array<real>, i: nat, w: seq<real>)
    requires i < M_Q && p.Length == M_Q * N_KV && |w| == N_KV
    modifies p
    ensures forall i' :: 0 <= i' < M_Q ==> PRow(p[..], i') == if i' == i then w else PRow(old(p[..]), i')
  {
    StoreLanes(p, i * N_KV, w[..16]);
    StoreLanes(p, i * N_KV + 16, w[16..]);
  }

  /** The online-softmax update of row i: statistics, weights, rescaled accumulator. */
  method SoftmaxRow(e: Exponential, t: seq<Score>, i: nat, dim: nat, rowMax: array<Score>, rowSum: array<real>,
                    p: array<real>, o: array<real>)
    requires |t| == N_KV && i < M_Q && dim % 16 == 0
    requires rowMax.Length == rowSum.Length == M_Q && p.Length == M_Q * N_KV && M_Q * dim <= o.Length
    requires rowSum != p && rowSum != o && p != o
    requires Max(rowMax[i], MaxOf(t, N_KV)).Fin?
    modifies rowMax, rowSum, p, o
    ensures var r := StepRow(e, t, old(rowMax[i]), old(rowSum[i]));
            && rowMax[..] == old(rowMax[..])[i := Fin(r.m)]
            && rowSum[..] == old(rowSum[..])[i := r.l]
            && (forall i' :: 0 <= i' < M_Q ==> PRow(p[..], i') == if i' == i then r.p else PRow(old(p[..]), i'))
            && (forall i', d :: 0 <= i' < M_Q && 0 <= d < dim && 0 <= At(i', dim, d) < o.Length
                  ==> o[At(i', dim, d)] ==
                      if i' == i then Scaled(r.alpha, old(o[At(i', dim, d)]))
                      else old(o[At(i', dim, d)]))
  {
    var r := StepRow(e, t, rowMax[i], rowSum[i]);
    StoreWeights(p, i, r.p);
    rowMax[i] := Fin(r.m);
    rowSum[i] := r.l;
    RescaleRow(o, i, dim, r.alpha);
  }

  ghost predicate TileShape(tiles: seq<seq<Score>>) {
    |tiles| == M_Q && forall i :: 0 <= i < M_Q ==> |tiles[i]| == N_KV
  }

  /** The online-softmax pass over the 32 rows of one score tile. */
  method SoftmaxTile(e: Exponential, tiles: seq<seq<Score>>, dim: nat, rowMax: array<Score>, rowSum: array<real>,
                     p: array<real>, o: array<real>)
    requires TileShape(tiles) && dim % 16 == 0
    requires rowMax.Length == rowSum.Length == M_Q && p.Length == M_Q * N_KV && M_Q * dim <= o.Length
    requires rowSum != p && rowSum != o && p != o
    requires forall i :: 0 <= i < M_Q ==> Max(rowMax[i], MaxOf(tiles[i], N_KV)).Fin?
    modifies rowMax, rowSum, p, o
    ensures forall i :: 0 <= i < M_Q ==>
              var r := StepRow(e, tiles[i], old(rowMax[i]), old(rowSum[i]));
              rowMax[i] == Fin(r.m) && rowSum[i] == r.l && PRow(p[..], i) == r.p
    ensures forall i, d :: 0 <= i < M_Q && 0 <= d < dim && 0 <= At(i, dim, d) < o.Length ==>
              o[At(i, dim, d)] == Scaled(StepRow(e, tiles[i], old(rowMax[i]), old(rowSum[i])).alpha,
                  old(o[At(i, dim, d)]))
  {
    for i := 0 to M_Q
      invariant forall i' :: 0 <= i' < i ==>
                  var r := StepRow(e, tiles[i'], old(rowMax[i']), old(rowSum[i']));
                  rowMax[i'] == Fin(r.m) && rowSum[i'] == r.l && PRow(p[..], i') == r.p
      invariant forall i' :: i <= i' < M_Q ==> rowMax[i'] == old(rowMax[i']) && rowSum[i'] == old(rowSum[i'])
      invariant forall i', d :: 0 <= i' < M_Q && 0 <= d < dim && 0 <= At(i', dim, d) < o.Length ==>
                  o[At(i', dim, d)] ==
                    if i' < i
                    then Scaled(StepRow(e, tiles[i'], old(rowMax[i']), old(rowSum[i'])).alpha, old(o[At(i', dim, d)]))
                    else old(o[At(i', dim, d)])
    {
      SoftmaxRow(e, tiles[i], i, dim, rowMax, rowSum, p, o);
    }
  }

  // ---- the invariant of the loop over KV tiles -----------------------------------

  /** After n keys, the statistics of every row are those of its first n scores. */
  ghost predicate StatsAt(e: Exponential, rows: seq<seq<Score>>, n: nat, rowMax: seq<Score>, rowSum: seq<real>) {
    && |rows| == |rowMax| == |rowSum| == M_Q
    && forall i :: 0 <= i < M_Q ==> n <= |rows[i]| && Streamed(e, rows[i], n, rowMax[i], rowSum[i])
  }

  ghost predicate AreTiles(tiles: seq<seq<Score>>, rows: seq<seq<Score>>, n: nat) {
    && TileShape(tiles) && |rows| == M_Q
    && forall i :: 0 <= i < M_Q ==> IsTile(tiles[i], rows[i], n)
  }

  ghost predicate FirstKeyAllowed(rows: seq<seq<Score>>) {
    forall i :: 0 <= i < |rows| ==> 0 < |rows[i]| && rows[i][0].Fin?
  }

  /** No row is ever left at -inf: the maximum after a tile is finite, so neither the
      rescale factor nor a weight is ever exp(-inf - -inf). */
  lemma {:induction false} MaximaFinite(e: Exponential, rows: seq<seq<Score>>, n: nat, tiles: seq<seq<Score>>,
                                        rowMax: seq<Score>, rowSum: seq<real>)
    requires StatsAt(e, rows, n, rowMax, rowSum) && AreTiles(tiles, rows, n) && FirstKeyAllowed(rows)
    ensures forall i :: 0 <= i < M_Q ==> Max(rowMax[i], MaxOf(tiles[i], N_KV)).Fin?
  {
    forall i | 0 <= i < M_Q
      ensures Max(rowMax[i], MaxOf(tiles[i], N_KV)).Fin?
    {
      MaxOfExtend(rows[i], n, tiles[i], N_KV);
      MaxOfIsMaximum(rows[i], n + N_KV);
      assert rows[i][0].Fin?;
    }
  }

  /** One tile carries the statistics of every row from n to n + 32 keys. */
  lemma {:induction false} StatsStep(e: Exponential, rows: seq<seq<Score>>, n: nat, tiles: seq<seq<Score>>,
                                     rowMax: seq<Score>, rowSum: seq<real>, rowMax': seq<Score>, rowSum': seq<real>)
    requires StatsAt(e, rows, n, rowMax, rowSum) && AreTiles(tiles, rows, n)
    requires |rowMax'| == |rowSum'| == M_Q
    requires forall i :: 0 <= i < M_Q ==>
               && Max(rowMax[i], MaxOf(tiles[i], N_KV)).Fin?
               && rowMax'[i] == Fin(StepRow(e, tiles[i], rowMax[i], rowSum[i]).m)
               && rowSum'[i] == StepRow(e, tiles[i], rowMax[i], rowSum[i]).l
    ensures StatsAt(e, rows, n + N_KV, rowMax', rowSum')
  {
    forall i | 0 <= i < M_Q
      ensures n + N_KV <= |rows[i]| && Streamed(e, rows[i], n + N_KV, rowMax'[i], rowSum'[i])
    {
      StreamStatistics(e, rows[i], n, tiles[i], rowMax[i], rowSum[i]);
    }
  }

  ghost predicate AllMaskedFrom(rows: seq<seq<Score>>, n: nat, keys: nat) {
    forall i :: 0 <= i < |rows| ==> |rows[i]| == keys && n <= keys && Masked(rows[i], n, keys)
  }

  /** Leaving the loop early is sound when every remaining key is masked. */
  lemma {:induction false} StatsSkip(e: Exponential, rows: seq<seq<Score>>, n: nat, keys: nat, rowMax: seq<Score>,
                                     rowSum: seq<real>)
    requires StatsAt(e, rows, n, rowMax, rowSum) && AllMaskedFrom(rows, n, keys)
    ensures StatsAt(e, rows, keys, rowMax, rowSum)
  {
    forall i | 0 <= i < M_Q
      ensures keys <= |rows[i]| && Streamed(e, rows[i], keys, rowMax[i], rowSum[i])
    {
      SkipMasked(e, rows[i], seq(keys, _ => 0.0), if rowMax[i].Fin? then rowMax[i].v else 0.0, n, keys);
    }
  }

  // ---- the final pass -----------------------------------------------------------------

  /** 1 / row_sum, or 0 for a row sum that is not positive. */
  function InverseSum(l: real): real {
    if l > 0.0 then 1.0 / l else 0.0
  }

  lemma {:induction false} ScaledInverse(a: real, l: real)
    requires l >= 1.0
    ensures Scaled(InverseSum(l), a) == a / l
  {
  }

  /** Scales dim elements of o into out, 32 lanes at a time. */
  method StoreScaled(o: seq<real>, src: nat, out: array<real>, dst: nat, dim: nat, f: real)
    requires dim % 32 == 0 && src + dim <= |o| && dst + dim <= out.Length
    modifies out
    ensures forall x :: 0 <= x < out.Length
              ==> out[x] == if dst <= x < dst + dim then Scaled(f, o[src + (x - dst)]) else old(out[x])
  {
    var d := 0;
    while d < dim
      invariant 0 <= d <= dim && d % 32 == 0
      invariant forall x :: 0 <= x < out.Length
                  ==> out[x] == if dst <= x < dst + d then Scaled(f, o[src + (x - dst)]) else old(out[x])
    {
      StoreLanes(out, dst + d, seq(16, c requires 0 <= c < 16 => Scaled(f, o[src + d + c])));
      StoreLanes(out, dst + d + 16, seq(16, c requires 0 <= c < 16 => Scaled(f, o[src + d + 16 + c])));
      d := d + 32;
    }
  }

  /** What the final pass stores for element (i, d) of the tile. */
  ghost function Normalised(o: seq<real>, rowSum: seq<real>, dim: int, i: int, d: int): real {
    if 0 <= i < |rowSum| && 0 <= At(i, dim, d) < |o| then Scaled(InverseSum(rowSum[i]), o[At(i, dim, d)]) else 0.0
  }

  /** Stores row i of the accumulator, divided by its sum, as row row + i of out. */
  method StoreRow(o: seq<real>, i: nat, rowSum: seq<real>, out: array<real>, row: nat, dim: nat)
    requires 0 < dim && dim % 32 == 0 && i < M_Q == |rowSum| && M_Q * dim <= |o| && (row + M_Q) * dim <= out.Length
    modifies out
    ensures forall r, d :: 0 <= d < dim && 0 <= At(r, dim, d) < out.Length
              ==> out[At(r, dim, d)] ==
                  if r == row + i then Normalised(o, rowSum, dim, i, d)
                  else old(out[At(r, dim, d)])
  {
    Multiply(i + 1, M_Q, dim);
    Multiply(0, i, dim);
    Multiply(0, row + i, dim);
    Multiply(row + i + 1, row + M_Q, dim);
    StoreScaled(o, At(i, dim, 0), out, At(row + i, dim, 0), dim, InverseSum(rowSum[i]));
    forall r, d | 0 <= d < dim && 0 <= At(r, dim, d) < out.Length
      ensures At(row + i, dim, 0) <= At(r, dim, d) < At(row + i, dim, 0) + dim <==> r == row + i
    {
      RowRange(row + i, r, d, dim);
    }
    assert forall d :: 0 <= d < dim ==>
        At(i, dim, d) == At(i, dim, 0) + d && At(row + i, dim, d) == At(row + i, dim, 0) + d;
  }

  /** The final pass over the 32 rows. */
  method StoreOutput(o: seq<real>, rowSum: seq<real>, out: array<real>, row: nat, dim: nat)
    requires 0 < dim && dim % 32 == 0 && M_Q * dim <= |o| && |rowSum| == M_Q && (row + M_Q) * dim <= out.Length
    modifies out
    ensures forall r, d :: 0 <= d < dim && 0 <= At(r, dim, d) < out.Length
              ==> out[At(r, dim, d)] ==
                  if row <= r < row + M_Q then Normalised(o, rowSum, dim, r - row, d)
                  else old(out[At(r, dim, d)])
  {
    hide Normalised, At;
    for i := 0 to M_Q
      invariant forall r, d :: 0 <= d < dim && 0 <= At(r, dim, d) < out.Length
                  ==> out[At(r, dim, d)] ==
                      if row <= r < row + i then Normalised(o, rowSum, dim, r - row, d)
                      else old(out[At(r, dim, d)])
    {
      StoreRow(o, i, rowSum, out, row, dim);
    }
  }

  // ---- the loop over (batch, head, query tile) -------------------------------------------

  datatype Iteration = Iteration(b: nat, h: nat, qt: nat)

  predicate InRange(it: Iteration, batch: nat, heads: nat, queries: nat) {
    it.b < batch && it.h < heads && it.qt < queries / M_Q
  }

  /** An order in which the parallel loop may run its iterations. */
  ghost predicate IsSchedule(order: seq<Iteration>, batch: nat, heads: nat, queries: nat) {
    && (forall n :: 0 <= n < |order| ==> InRange(order[n], batch, heads, queries))
    && (forall it :: InRange(it, batch, heads, queries) ==> it in order)
  }

  /** Index of the (batch, head) pair, and first row of the query tile, of an iteration. */
  function Slab(it: Iteration, heads: nat): nat {
    it.b * heads + it.h
  }

  function FirstRow(it: Iteration, heads: nat, queries: nat): int {
    At(Slab(it, heads), queries, it.qt * M_Q)
  }

  lemma {:induction false} IterationInBounds(it: Iteration, batch: nat, heads: nat, queries: nat)
    requires InRange(it, batch, heads, queries)
    ensures Slab(it, heads) < batch * heads
    ensures 0 <= FirstRow(it, heads, queries) && FirstRow(it, heads, queries) + M_Q <= (batch * heads) * queries
  {
    AtInBounds(it.b, batch, heads, it.h);
    AtInBounds(Slab(it, heads), batch * heads, queries, it.qt * M_Q);
    AtInBounds(Slab(it, heads), batch * heads, queries, it.qt * M_Q + M_Q - 1);
  }

  /** Two iterations whose row ranges meet are the same iteration. */
  lemma {:induction false} IterationsApart(it: Iteration, it': Iteration, batch: nat, heads: nat, queries: nat,
                                           s: nat, s': nat)
    requires InRange(it, batch, heads, queries) && InRange(it', batch, heads, queries) && s < M_Q && s' < M_Q
    requires FirstRow(it, heads, queries) + s == FirstRow(it', heads, queries) + s'
    ensures it == it' && s == s'
  {
    AtInjective(Slab(it, heads), it.qt * M_Q + s, Slab(it', heads), it'.qt * M_Q + s', queries);
    AtInjective(it.b, it.h, it'.b, it'.h, heads);
  }

  /** The iteration whose slice holds output offset x. */
  ghost function OwnerOf(x: nat, heads: nat, queries: nat, dim: nat): Iteration
    requires 0 < heads && 0 < queries && 0 < dim
  {
    var row: nat := x / dim;
    var slab: nat := row / queries;
    Iteration(slab / heads, slab % heads, row % queries / M_Q)
  }

  /** The iterations' output slices are pairwise disjoint and cover the output: every
      element belongs to the slice of exactly one iteration. */
  lemma {:induction false} SlicesPartitionOutput(batch: nat, heads: nat, queries: nat, dim: nat, x: nat, it: Iteration)
    requires 0 < heads && 0 < queries && 0 < dim && queries % M_Q == 0 && x < ((batch * heads) * queries) * dim
    ensures InRange(OwnerOf(x, heads, queries, dim), batch, heads, queries)
    ensures InRange(it, batch, heads, queries)
            ==> (InSlice(it, heads, queries, dim, x) <==> it == OwnerOf(x, heads, queries, dim))
  {
    var owner := OwnerOf(x, heads, queries, dim);
    var row := x / dim;
    OwnerHoldsRow(batch, heads, queries, dim, x);
    if InRange(it, batch, heads, queries) && InSlice(it, heads, queries, dim, x) {
      SliceHoldsRow(it, heads, queries, dim, x);
      IterationsApart(it, owner, batch, heads, queries, row - FirstRow(it, heads, queries),
          row - FirstRow(owner, heads, queries));
    }
    RowInSlice(owner, heads, queries, dim, x);
  }

  lemma {:induction false} OwnerHoldsRow(batch: nat, heads: nat, queries: nat, dim: nat, x: nat)
    requires 0 < heads && 0 < queries && 0 < dim && queries % M_Q == 0 && x < ((batch * heads) * queries) * dim
    ensures var owner := OwnerOf(x, heads, queries, dim);
            InRange(owner, batch, heads, queries) &&
                FirstRow(owner, heads, queries) <= x / dim < FirstRow(owner, heads, queries) + M_Q
  {
    var row := x / dim;
    AtSurjective(x, (batch * heads) * queries, dim);
    AtSurjective(row, batch * heads, queries);
    AtSurjective(row / queries, batch, heads);
    var owner := OwnerOf(x, heads, queries, dim);
    assert Slab(owner, heads) == row / queries;
    assert row == At(row / queries, queries, row % queries);
  }

  lemma {:induction false} SliceHoldsRow(it: Iteration, heads: nat, queries: nat, dim: nat, x: nat)
    requires 0 < dim && InSlice(it, heads, queries, dim, x)
    ensures FirstRow(it, heads, queries) <= x / dim < FirstRow(it, heads, queries) + M_Q
  {
    var first, row := FirstRow(it, heads, queries), x / dim;
    assert x == At(row, dim, x % dim);
    if row < first {
      AtOrder(row, x % dim, first, 0, dim);
    } else if first + M_Q <= row {
      Multiply(first + M_Q, row, dim);
    }
  }

  lemma {:induction false} RowInSlice(it: Iteration, heads: nat, queries: nat, dim: nat, x: nat)
    requires 0 < dim && FirstRow(it, heads, queries) <= x / dim < FirstRow(it, heads, queries) + M_Q
    ensures InSlice(it, heads, queries, dim, x)
  {
    assert x == At(x / dim, dim, x % dim);
    Multiply(FirstRow(it, heads, queries), x / dim, dim);
    AtOrder(x / dim, x % dim, FirstRow(it, heads, queries) + M_Q, 0, dim);
  }

  /** Iteration `it` owns output offsets O_tile .. O_tile + 32 * dim. */
  ghost predicate InSlice(it: Iteration, heads: nat, queries: nat, dim: nat, x: nat) {
    At(FirstRow(it, heads, queries), dim, 0) <= x < At(FirstRow(it, heads, queries) + M_Q, dim, 0)
  }

  // ---- running the iterations in any order ---------------------------------------------------

  /** What element d of output row r is meant to be. */
  type Goal = (int, int, real) -> bool

  ghost predicate RowsMeet(goal: Goal, first: int, dim: nat, out: seq<real>) {
    forall r, d :: first <= r < first + M_Q && 0 <= d < dim && 0 <= At(r, dim, d) < |out| ==>
        goal(r, d, out[At(r, dim, d)])
  }

  ghost predicate IterationDone(goal: Goal, heads: nat, queries: nat, dim: nat, it: Iteration, out: seq<real>) {
    RowsMeet(goal, FirstRow(it, heads, queries), dim, out)
  }

  /** An iteration leaves the results of every other iteration alone. */
  lemma {:induction false} OtherIterationKept(goal: Goal, batch: nat, heads: nat, queries: nat, dim: nat,
                                              it: Iteration, it': Iteration, out: seq<real>, out': seq<real>)
    requires |out'| == |out| && it != it'
    requires InRange(it, batch, heads, queries) && InRange(it', batch, heads, queries)
    requires forall r, d ::
               0 <= d < dim && 0 <= At(r, dim, d) < |out|
               && !(FirstRow(it, heads, queries) <= r < FirstRow(it, heads, queries) + M_Q)
               ==> out'[At(r, dim, d)] == out[At(r, dim, d)]
    requires IterationDone(goal, heads, queries, dim, it', out)
    ensures IterationDone(goal, heads, queries, dim, it', out')
  {
    hide FirstRow, Slab, At;
    var row, row' := FirstRow(it, heads, queries), FirstRow(it', heads, queries);
    forall r, d | row' <= r < row' + M_Q && 0 <= d < dim && 0 <= At(r, dim, d) < |out'|
      ensures goal(r, d, out'[At(r, dim, d)])
    {
      if row <= r < row + M_Q {
        IterationsApart(it, it', batch, heads, queries, r - row, r - row');
      }
    }
  }

  ghost predicate ElementMeets(goal: Goal, heads: nat, queries: nat, dim: nat, out: seq<real>, b: nat, h: nat,
      s: nat, d: nat) {
    var row := At(b * heads + h, queries, s);
    0 <= At(row, dim, d) < |out| && goal(row, d, out[At(row, dim, d)])
  }

  /** Once every iteration has run, every element of the output is as it should be. */
  lemma {:induction false} AllIterationsDone(goal: Goal, batch: nat, heads: nat, queries: nat, dim: nat,
                                             out: seq<real>, b: nat, h: nat, s: nat, d: nat)
    requires queries % M_Q == 0 && |out| == ((batch * heads) * queries) * dim
    requires forall it :: InRange(it, batch, heads, queries) ==> IterationDone(goal, heads, queries, dim, it, out)
    requires b < batch && h < heads && s < queries && d < dim
    ensures ElementMeets(goal, heads, queries, dim, out, b, h, s, d)
  {
    var it := Iteration(b, h, s / M_Q);
    assert InRange(it, batch, heads, queries);
    assert IterationDone(goal, heads, queries, dim, it, out);
    var row := At(b * heads + h, queries, s);
    assert row == FirstRow(it, heads, queries) + s % M_Q;
    AtInBounds(b, batch, heads, h);
    AtInBounds(b * heads + h, batch * heads, queries, s);
    AtInBounds(row, (batch * heads) * queries, dim, d);
  }

  /** Whether the entry points accept the shape. */
  predicate ShapeAccepted(queries: nat, dim: nat) {
    (dim == 64 || dim == 128) && queries >= 32 && queries % 32 == 0
  }

  /** The slab and the sequence position of a row. */
  lemma {:induction false} RowPosition(slab: nat, queries: nat, s: nat)
    requires s < queries
    ensures At(slab, queries, s) / queries == slab && At(slab, queries, s) % queries == s && 0 <= At(slab, queries, s)
  {
    var r := At(slab, queries, s);
    Multiply(0, slab, queries);
    Multiply(slab, slab, queries);
    AtSurjective(r, slab + 1, queries);
    AtInjective(r / queries, r % queries, slab, s, queries);
  }
}

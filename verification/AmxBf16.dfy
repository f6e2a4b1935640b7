/** The AMX BF16 flash-attention kernel over exact reals (casts are identities). */
module AmxBf16 {
  import opened Amx
  import opened Attention
  import opened DirectAttention
  import opened FlashTile
  import opened Matrices
  import opened Packing
  import opened Reals
  import opened Softmax

  /** i / 16 and i % 16 for a row or column of the 32 x 32 block. */
  function Half(i: int): int { if i < 16 then 0 else 1 }
  function Lane(i: int): int { if i < 16 then i else i - 16 }

  /** Cell of the score scratch holding row i, column j of the 32 x 32 block: four
      16 x 16 tiles one after the other. */
  function ScratchAt(i: int, j: int): (x: int)
    requires 0 <= i < M_Q && 0 <= j < N_KV
    ensures 0 <= x < 1024
  {
    At((Half(i) * 2 + Half(j)) * 16 + Lane(i), 16, Lane(j))
  }

  /** Every element of a 16 x 16 block is an inner product over the first d0 dims. */
  ghost predicate BlockOfDots(s: Tile<real>, q: Matrix, row: int, k: Matrix, key: int, d0: nat) {
    && IsTileOf(s, 16)
    && forall m, n :: 0 <= m < 16 && 0 <= n < 16 ==> s[m][n] == Dot(q, row + m, k, key + n, d0)
  }

  /** One 16 x 16 block of Q K^T: the loop over 32-wide chunks of the head dim. */
  method ScoreBlock(q: seq<real>, row: nat, kp: seq<real>, ghost k: seq<real>, slab: nat, slabs: nat, keys: nat,
                    dim: nat, key: nat)
    returns (s: Tile<real>)
    requires 0 < dim && dim % 32 == 0 && slab < slabs && key + 16 <= keys
    requires (row + 16) * dim <= |q| && PairsAlongRows(k, kp, slabs, keys, dim)
    ensures BlockOfDots(s, View(q, dim), row, View(k, dim), At(slab, keys, key), dim)
  {
    hide PairsAlongRows, View;
    s := TileZero(0.0);
    for dc := 0 to dim / 32
      invariant BlockOfDots(s, View(q, dim), row, View(k, dim), At(slab, keys, key), dc * 32)
    {
      KBlockFits(k, kp, slab, slabs, keys, dim, dc * 16, key);
      var a := TileLoad(q, row, dim, dc * 32, 32);
      var b := TileLoad(kp, At(slab, dim / 2, dc * 16), 2 * keys, 2 * key, 32);
      ChunkExtendsDots(q, row, k, kp, slab, slabs, keys, dim, key, dc, s, a, b);
      s := TileDpBf16(s, a, b);
    }
  }

  lemma {:induction false} ChunkExtendsDots(q: seq<real>, row: nat, k: seq<real>, kp: seq<real>, slab: nat,
                                            slabs: nat, keys: nat, dim: nat, key: nat,
                                            dc: nat, s: Tile<real>, a: Tile<real>, b: Tile<real>)
    requires dc * 32 + 32 <= dim && slab < slabs && key + 16 <= keys
    requires PairsAlongRows(k, kp, slabs, keys, dim)
    requires BlockFits(|q|, row, dim, dc * 32, 32) && a == TileLoad(q, row, dim, dc * 32, 32)
    requires BlockFits(|kp|, At(slab, dim / 2, dc * 16), 2 * keys, 2 * key, 32)
    requires b == TileLoad(kp, At(slab, dim / 2, dc * 16), 2 * keys, 2 * key, 32)
    requires BlockOfDots(s, View(q, dim), row, View(k, dim), At(slab, keys, key), dc * 32)
    ensures BlockOfDots(TileDpBf16(s, a, b), View(q, dim), row, View(k, dim), At(slab, keys, key), dc * 32 + 32)
  {
    hide PairsAlongRows;
    forall m, n | 0 <= m < 16 && 0 <= n < 16
      ensures TileDpBf16(s, a, b)[m][n] == Dot(View(q, dim), row + m, View(k, dim), At(slab, keys, key) + n,
          dc * 32 + 32)
    {
      KBlockHoldsPairs(k, kp, slabs, keys, dim, slab, dc * 16, key, b, n);
      PairStepsExtendDot(s[m][n], a[m], b, n, 16, View(q, dim), row + m, View(k, dim), At(slab, keys, key) + n,
          dc * 32);
    }
  }

  lemma {:induction false} KBlockFits(k: seq<real>, kp: seq<real>, slab: nat, slabs: nat, keys: nat, dim: nat,
                                      p: nat, key: nat)
    requires slab < slabs && p + 16 <= dim / 2 && key + 16 <= keys && PairsAlongRows(k, kp, slabs, keys, dim)
    ensures BlockFits(|kp|, At(slab, dim / 2, p), 2 * keys, 2 * key, 32)
  {
    AtInBounds(slab, slabs, dim / 2, p);
    AtInBounds(slab, slabs, dim / 2, p + 15);
    Multiply(At(slab, dim / 2, p) + 16, slabs * (dim / 2), 2 * keys);
  }

  lemma {:induction false} KBlockHoldsPairs(k: seq<real>, kp: seq<real>, slabs: nat, keys: nat, dim: nat, slab: int,
                                            p0: int, key: int, b: Tile<real>, n: int)
    requires PairsAlongRows(k, kp, slabs, keys, dim)
    requires 0 <= slab < slabs && 0 <= p0 && p0 + 16 <= dim / 2 && 0 <= key && key + 16 <= keys && 0 <= n < 16
    requires BlockFits(|kp|, At(slab, dim / 2, p0), 2 * keys, 2 * key, 32)
    requires b == TileLoad(kp, At(slab, dim / 2, p0), 2 * keys, 2 * key, 32)
    ensures forall p :: 0 <= p < 16 ==>
              && b[p][2 * n] == View(k, dim)(At(slab, keys, key) + n, 2 * p0 + 2 * p)
              && b[p][2 * n + 1] == View(k, dim)(At(slab, keys, key) + n, 2 * p0 + 2 * p + 1)
  {
    forall p | 0 <= p < 16
      ensures b[p][2 * n] == View(k, dim)(At(slab, keys, key) + n, 2 * p0 + 2 * p)
      ensures b[p][2 * n + 1] == View(k, dim)(At(slab, keys, key) + n, 2 * p0 + 2 * p + 1)
    {
      assert At(slab, keys, key + n) == At(slab, keys, key) + n;
      assert KPair(k, kp, keys, dim, slab, key + n, p0 + p);
    }
  }

  /** Stores a 16 x 16 block into its quarter of the score scratch. */
  method StoreScoreBlock(scratch: array<real>, qh: int, kh: int, s: Tile<real>)
    requires scratch.Length == 1024 && 0 <= qh < 2 && 0 <= kh < 2 && IsTileOf(s, 16)
    modifies scratch
    ensures forall i, j :: 0 <= i < M_Q && 0 <= j < N_KV
              ==> scratch[ScratchAt(i, j)] ==
                  if Half(i) == qh && Half(j) == kh then s[Lane(i)][Lane(j)]
                  else old(scratch[ScratchAt(i, j)])
  {
    TileStore(scratch, (qh * 2 + kh) * 16, 16, 0, s);
  }

  /** The scratch holds the 32 x 32 block of raw scores. */
  ghost predicate ScratchOfDots(scratch: seq<real>, q: Matrix, row: int, k: Matrix, key: int, dim: nat) {
    && |scratch| == 1024
    && forall i, j :: 0 <= i < M_Q && 0 <= j < N_KV ==> scratch[ScratchAt(i, j)] == Dot(q, row + i, k, key + j, dim)
  }

  /** Steps 1 to 4: the 32 x 32 block of Q K^T for one KV tile. */
  method ScoreTile(q: seq<real>, row: nat, kp: seq<real>, ghost k: seq<real>, slab: nat, slabs: nat, keys: nat,
                   dim: nat, key: nat, scratch: array<real>)
    requires 0 < dim && dim % 32 == 0 && slab < slabs && key + N_KV <= keys
    requires (row + M_Q) * dim <= |q|
    requires PairsAlongRows(k, kp, slabs, keys, dim)
    requires scratch.Length == 1024
    modifies scratch
    ensures ScratchOfDots(scratch[..], View(q, dim), row, View(k, dim), At(slab, keys, key), dim)
  {
    hide PairsAlongRows, View;
    for qh := 0 to 2
      invariant forall i, j :: 0 <= i < M_Q && 0 <= j < N_KV && Half(i) < qh
                  ==> scratch[ScratchAt(i, j)] == Dot(View(q, dim), row + i, View(k, dim), At(slab, keys, key) + j, dim)
    {
      for kh := 0 to 2
        invariant forall i, j :: 0 <= i < M_Q && 0 <= j < N_KV && (Half(i) < qh || (Half(i) == qh && Half(j) < kh))
                    ==> scratch[ScratchAt(i, j)] ==
                        Dot(View(q, dim), row + i, View(k, dim), At(slab, keys, key) + j, dim)
      {
        Multiply(row + qh * 16 + 16, row + M_Q, dim);
        var s := ScoreBlock(q, row + qh * 16, kp, k, slab, slabs, keys, dim, key + kh * 16);
        assert At(slab, keys, key + kh * 16) == At(slab, keys, key) + kh * 16;
        forall i, j | 0 <= i < M_Q && 0 <= j < N_KV && Half(i) == qh && Half(j) == kh
          ensures s[Lane(i)][Lane(j)] == Dot(View(q, dim), row + i, View(k, dim), At(slab, keys, key) + j, dim)
        {
          assert i == qh * 16 + Lane(i) && j == kh * 16 + Lane(j);
        }
        StoreScoreBlock(scratch, qh, kh, s);
      }
    }
  }

  // ---- step 5: online softmax ---------------------------------------------------

  /** Sixteen scores from the scratch, scaled and, on the diagonal, masked. */
  function ScaleAndMask(lanes: seq<real>, scale: real, mask: bool, pos: int, key: int): (t: seq<Score>)
    ensures |t| == |lanes|
  {
    seq(|lanes|, c requires 0 <= c < |lanes| => MaskedScore(mask, pos, key + c, Scaled(lanes[c], scale)))
  }

  /** The two halves of scratch row i, columns 0..15 and 16..31, as one score tile. */
  function GatherRow(scratch: seq<real>, i: int, scale: real, mask: bool, pos: int, key: int): (t: seq<Score>)
    requires |scratch| == 1024 && 0 <= i < M_Q
    ensures |t| == N_KV
    ensures forall j :: 0 <= j < N_KV ==>
        t[j] == MaskedScore(mask, pos, key + j, Scaled(scratch[ScratchAt(i, j)], scale))
  {
    var lo := (Half(i) * 2 + 0) * 256 + Lane(i) * 16;
    var hi := (Half(i) * 2 + 1) * 256 + Lane(i) * 16;
    var t := ScaleAndMask(scratch[lo..lo + 16], scale, mask, pos, key) +
        ScaleAndMask(scratch[hi..hi + 16], scale, mask, pos, key + 16);
    assert forall j :: 0 <= j < 16 ==> ScratchAt(i, j) == lo + j;
    assert forall j :: 16 <= j < 32 ==> ScratchAt(i, j) == hi + j - 16;
    t
  }

  // ---- steps 6 and 7: O += P V ------------------------------------------------------

  lemma {:induction false} VBlockFits(v: seq<real>, vp: seq<real>, slab: nat, slabs: nat, keys: nat, dim: nat,
                                      key: nat, d: nat)
    requires slab < slabs && key % 2 == 0 && key + 32 <= keys && d + 16 <= dim &&
        PairsAlongColumns(v, vp, slabs, keys, dim)
    ensures BlockFits(|vp|, At(slab, keys / 2, key / 2), 2 * dim, 2 * d, 32)
  {
    AtInBounds(slab, slabs, keys / 2, key / 2);
    AtInBounds(slab, slabs, keys / 2, key / 2 + 15);
    Multiply(At(slab, keys / 2, key / 2) + 16, slabs * (keys / 2), 2 * dim);
  }

  lemma {:induction false} VBlockHoldsPairs(v: seq<real>, vp: seq<real>, slabs: nat, keys: nat, dim: nat, slab: int,
                                            key: int, d0: int, b: Tile<real>, n: int)
    requires PairsAlongColumns(v, vp, slabs, keys, dim)
    requires 0 <= slab < slabs && 0 <= key && key % 2 == 0 && key + 32 <= keys && 0 <= d0 && d0 + 16 <= dim &&
        0 <= n < 16
    requires BlockFits(|vp|, At(slab, keys / 2, key / 2), 2 * dim, 2 * d0, 32)
    requires b == TileLoad(vp, At(slab, keys / 2, key / 2), 2 * dim, 2 * d0, 32)
    ensures var u := Column(View(v, dim), At(slab, keys, key), d0 + n, 32);
            forall p :: 0 <= p < 16 ==> b[p][2 * n] == u[2 * p] && b[p][2 * n + 1] == u[2 * p + 1]
  {
    var u := Column(View(v, dim), At(slab, keys, key), d0 + n, 32);
    forall p | 0 <= p < 16
      ensures b[p][2 * n] == u[2 * p] && b[p][2 * n + 1] == u[2 * p + 1]
    {
      assert VPair(v, vp, keys, dim, slab, key / 2 + p, d0 + n);
      assert 2 * (key / 2 + p) == key + 2 * p;
      assert At(slab, keys, key + 2 * p) == At(slab, keys, key) + 2 * p;
    }
  }

  /** One 16 x 16 block of O: load and accumulate. */
  method SumBlock(p: seq<real>, vp: seq<real>, ghost v: seq<real>, slab: nat, slabs: nat, keys: nat, dim: nat,
                  key: nat, qh: nat, dt: nat, o: seq<real>)
    returns (t: Tile<real>)
    requires |p| == M_Q * N_KV && qh < 2 && dt * 16 + 16 <= dim && M_Q * dim <= |o|
    requires slab < slabs && key % 2 == 0 && key + 32 <= keys
    requires PairsAlongColumns(v, vp, slabs, keys, dim)
    ensures IsTileOf(t, 16)
    ensures forall i, d :: qh * 16 <= i < qh * 16 + 16 && dt * 16 <= d < dt * 16 + 16 && 0 <= At(i, dim, d) < |o|
              ==> t[i - qh * 16][d - dt * 16] == o[At(i, dim, d)] + TileProduct(p, v, dim, At(slab, keys, key), i, d)
  {
    hide PairsAlongColumns, View;
    Multiply(qh * 16 + 16, M_Q, dim);
    VBlockFits(v, vp, slab, slabs, keys, dim, key, dt * 16);
    var c := TileLoad(o, qh * 16, dim, dt * 16, 16);
    var a := TileLoad(p, qh * 16, N_KV, 0, 32);
    var b := TileLoad(vp, At(slab, keys / 2, key / 2), 2 * dim, 2 * (dt * 16), 32);
    t := TileDpBf16(c, a, b);
    forall i, d | qh * 16 <= i < qh * 16 + 16 && dt * 16 <= d < dt * 16 + 16 && 0 <= At(i, dim, d) < |o|
      ensures t[i - qh * 16][d - dt * 16] == o[At(i, dim, d)] + TileProduct(p, v, dim, At(slab, keys, key), i, d)
    {
      var m, n := i - qh * 16, d - dt * 16;
      VBlockHoldsPairs(v, vp, slabs, keys, dim, slab, key, dt * 16, b, n);
      PairStepsAddProducts(c[m][n], a[m], b, n, 16, Column(View(v, dim), At(slab, keys, key), d, 32));
      assert a[m] == PRow(p, i);
      assert c[m][n] == o[At(qh * 16 + m, dim, dt * 16 + n)];
    }
  }

  /** Step 7 for one KV tile. */
  method AddTile(p: seq<real>, vp: seq<real>, ghost v: seq<real>, slab: nat, slabs: nat, keys: nat, dim: nat,
                 key: nat, o: array<real>)
    requires |p| == M_Q * N_KV && dim % 16 == 0 && M_Q * dim <= o.Length
    requires slab < slabs && key % 2 == 0 && key + 32 <= keys
    requires PairsAlongColumns(v, vp, slabs, keys, dim)
    modifies o
    ensures forall i, d :: 0 <= i < M_Q && 0 <= d < dim && 0 <= At(i, dim, d) < o.Length
              ==> o[At(i, dim, d)] == old(o[At(i, dim, d)]) + TileProduct(p, v, dim, At(slab, keys, key), i, d)
  {
    hide PairsAlongColumns, TileProduct;
    for qh := 0 to 2
      invariant forall i, d :: 0 <= i < M_Q && 0 <= d < dim && 0 <= At(i, dim, d) < o.Length
                  ==> o[At(i, dim, d)] ==
                      if i < qh * 16 then old(o[At(i, dim, d)]) + TileProduct(p, v, dim, At(slab, keys, key), i, d)
                      else old(o[At(i, dim, d)])
    {
      for dt := 0 to dim / 16
        invariant forall i, d :: 0 <= i < M_Q && 0 <= d < dim && 0 <= At(i, dim, d) < o.Length
                    ==> o[At(i, dim, d)] ==
                        if i < qh * 16 || (i < qh * 16 + 16 && d < dt * 16)
                        then old(o[At(i, dim, d)]) + TileProduct(p, v, dim, At(slab, keys, key), i, d)
                        else old(o[At(i, dim, d)])
      {
        var t := SumBlock(p, vp, v, slab, slabs, keys, dim, key, qh, dt, o[..]);
        Multiply(qh * 16 + 16, M_Q, dim);
        TileStore(o, qh * 16, dim, dt * 16, t);
      }
    }
  }

  // ---- process_q_tile -----------------------------------------------------------------

  /** The whole score rows of the 32 queries of a tile. */
  ghost function QueryRows(q: seq<real>, row: nat, k: seq<real>, slab: nat, keys: nat, dim: nat, start: nat,
                           scale: real, causal: bool): (rows: seq<seq<Score>>)
    ensures |rows| == M_Q
    ensures forall i :: 0 <= i < M_Q ==> rows[i] == QueryRow(q, row + i, k, slab, keys, dim, start + i, scale, causal)
  {
    seq(M_Q, i requires 0 <= i < M_Q => QueryRow(q, row + i, k, slab, keys, dim, start + i, scale, causal))
  }

  /** The accumulator holds, for every row and column, the sum over the first n keys. */
  ghost predicate AccumulatorAt(e: Exponential, rows: seq<seq<Score>>, v: seq<real>, slab: nat, keys: nat, dim: nat,
                                n: nat, rowMax: seq<Score>, o: seq<real>)
    requires |rows| == |rowMax| == M_Q && n <= keys && forall i :: 0 <= i < M_Q ==> |rows[i]| == keys
  {
    forall i, d :: 0 <= i < M_Q && 0 <= d < dim ==>
      && 0 <= At(i, dim, d) < |o|
      && o[At(i, dim, d)] == Accumulated(e, rows[i], Column(View(v, dim), At(slab, keys, 0), d, keys), n, rowMax[i])
  }

  /** One tile carries the accumulator from n to n + 32 keys. */
  lemma {:induction false} AccumulatorStep(e: Exponential, rows: seq<seq<Score>>, v: seq<real>, slab: nat, keys: nat,
                                           dim: nat, n: nat, tiles: seq<seq<Score>>,
                                           rowMax: seq<Score>, rowSum: seq<real>, rowMax': seq<Score>, p: seq<real>,
                                           o: seq<real>, o': seq<real>)
    requires StatsAt(e, rows, n, rowMax, rowSum) && AreTiles(tiles, rows, n) && |rowMax'| == M_Q
    requires n + N_KV <= keys && |p| == M_Q * N_KV && |o'| == |o|
    requires forall i :: 0 <= i < M_Q ==> |rows[i]| == keys
    requires AccumulatorAt(e, rows, v, slab, keys, dim, n, rowMax, o)
    requires forall i :: 0 <= i < M_Q ==>
               && Max(rowMax[i], MaxOf(tiles[i], N_KV)).Fin?
               && rowMax'[i] == Fin(StepRow(e, tiles[i], rowMax[i], rowSum[i]).m)
               && PRow(p, i) == StepRow(e, tiles[i], rowMax[i], rowSum[i]).p
    requires forall i, d :: 0 <= i < M_Q && 0 <= d < dim && 0 <= At(i, dim, d) < |o| ==>
               o'[At(i, dim, d)] == Scaled(StepRow(e, tiles[i], rowMax[i], rowSum[i]).alpha, o[At(i, dim, d)])
                                    + TileProduct(p, v, dim, At(slab, keys, n), i, d)
    ensures AccumulatorAt(e, rows, v, slab, keys, dim, n + N_KV, rowMax', o')
  {
    forall i, d | 0 <= i < M_Q && 0 <= d < dim
      ensures && 0 <= At(i, dim, d) < |o'|
              && o'[At(i, dim, d)] == Accumulated(e, rows[i], Column(View(v, dim), At(slab, keys, 0), d, keys),
                  n + N_KV, rowMax'[i])
    {
      var column := Column(View(v, dim), At(slab, keys, 0), d, keys);
      var u := Column(View(v, dim), At(slab, keys, n), d, N_KV);
      assert IsTile(u, column, n);
      StreamAccumulator(e, rows[i], column, n, tiles[i], u, rowMax[i], rowMax'[i].v);
    }
  }

  lemma {:induction false} AccumulatorSkip(e: Exponential, rows: seq<seq<Score>>, v: seq<real>, slab: nat, keys: nat,
                                           dim: nat, n: nat, rowMax: seq<Score>, o: seq<real>)
    requires |rows| == |rowMax| == M_Q && AllMaskedFrom(rows, n, keys)
    requires n <= keys && AccumulatorAt(e, rows, v, slab, keys, dim, n, rowMax, o)
    ensures AccumulatorAt(e, rows, v, slab, keys, dim, keys, rowMax, o)
  {
    forall i, d | 0 <= i < M_Q && 0 <= d < dim
      ensures && 0 <= At(i, dim, d) < |o|
              && o[At(i, dim, d)] == Accumulated(e, rows[i], Column(View(v, dim), At(slab, keys, 0), d, keys), keys,
                  rowMax[i])
    {
      SkipMasked(e, rows[i], Column(View(v, dim), At(slab, keys, 0), d, keys),
          if rowMax[i].Fin? then rowMax[i].v else 0.0, n, keys);
    }
  }

  /** All 32 rows of the scratch as score tiles. */
  function GatherTile(scratch: seq<real>, scale: real, mask: bool, start: int, key: int): (tiles: seq<seq<Score>>)
    requires |scratch| == 1024
    ensures |tiles| == M_Q && forall i :: 0 <= i < M_Q ==>
        tiles[i] == GatherRow(scratch, i, scale, mask, start + i, key)
    ensures TileShape(tiles)
  {
    seq(M_Q, i requires 0 <= i < M_Q => GatherRow(scratch, i, scale, mask, start + i, key))
  }

  /** The gathered tile is the next 32 scores of every row; not masking a tile that
      ends at or before the first query is no different from masking it. */
  lemma {:induction false} GatheredTilesAreRows(q: seq<real>, row: nat, k: seq<real>, slab: nat, keys: nat, dim: nat,
                                                start: nat, scale: real, causal: bool, key: nat, scratch: seq<real>)
    requires key + N_KV <= keys && ScratchOfDots(scratch, View(q, dim), row, View(k, dim), At(slab, keys, key), dim)
    ensures AreTiles(GatherTile(scratch, scale, causal && key + N_KV > start, start, key),
                     QueryRows(q, row, k, slab, keys, dim, start, scale, causal), key)
  {
  }

  lemma {:induction false} RowsStartAllowed(q: seq<real>, row: nat, k: seq<real>, slab: nat, keys: nat, dim: nat,
                                            start: nat, scale: real, causal: bool)
    requires 0 < keys
    ensures FirstKeyAllowed(QueryRows(q, row, k, slab, keys, dim, start, scale, causal))
  {
  }

  lemma {:induction false} RowsMaskedPastTile(q: seq<real>, row: nat, k: seq<real>, slab: nat, keys: nat, dim: nat,
                                              start: nat, scale: real, n: nat)
    requires start + M_Q <= n <= keys
    ensures AllMaskedFrom(QueryRows(q, row, k, slab, keys, dim, start, scale, true), n, keys)
  {
  }

  /** The invariant of the loop over KV tiles, after n keys. */
  ghost predicate TileInvariant(e: Exponential, rows: seq<seq<Score>>, v: seq<real>, slab: nat, keys: nat, dim: nat,
                                n: nat,
                                rowMax: seq<Score>, rowSum: seq<real>, o: seq<real>)
  {
    && n <= keys && |rows| == |rowMax| == M_Q
    && (forall i :: 0 <= i < M_Q ==> |rows[i]| == keys)
    && StatsAt(e, rows, n, rowMax, rowSum)
    && AccumulatorAt(e, rows, v, slab, keys, dim, n, rowMax, o)
  }

  /** Softmax and O += P V for one gathered score tile. */
  method UpdateTile(e: Exponential, tiles: seq<seq<Score>>, ghost rows: seq<seq<Score>>, vp: seq<real>,
                    ghost v: seq<real>, slab: nat, slabs: nat,
                    keys: nat, dim: nat, key: nat, rowMax: array<Score>, rowSum: array<real>, o: array<real>,
                    p: array<real>)
    requires dim % 16 == 0 && key % 2 == 0 && key + N_KV <= keys && slab < slabs
    requires PairsAlongColumns(v, vp, slabs, keys, dim)
    requires AreTiles(tiles, rows, key) && FirstKeyAllowed(rows)
    requires rowMax.Length == rowSum.Length == M_Q && M_Q * dim <= o.Length && p.Length == M_Q * N_KV
    requires rowSum != p && rowSum != o && p != o
    requires TileInvariant(e, rows, v, slab, keys, dim, key, rowMax[..], rowSum[..], o[..])
    modifies rowMax, rowSum, o, p
    ensures TileInvariant(e, rows, v, slab, keys, dim, key + N_KV, rowMax[..], rowSum[..], o[..])
  {
    hide PairsAlongColumns, TileProduct;
    MaximaFinite(e, rows, key, tiles, rowMax[..], rowSum[..]);
    ghost var m0, l0, o0 := rowMax[..], rowSum[..], o[..];
    SoftmaxTile(e, tiles, dim, rowMax, rowSum, p, o);
    AddTile(p[..], vp, v, slab, slabs, keys, dim, key, o);
    StatsStep(e, rows, key, tiles, m0, l0, rowMax[..], rowSum[..]);
    AccumulatorStep(e, rows, v, slab, keys, dim, key, tiles, m0, l0, rowMax[..], p[..], o0, o[..]);
  }

  /** Scores of one KV tile: the next 32 entries of every score row. */
  method ComputeScores(q: seq<real>, row: nat, kp: seq<real>, ghost k: seq<real>, slab: nat, slabs: nat, keys: nat,
                       dim: nat,
                       start: nat, scale: real, causal: bool, key: nat, scratch: array<real>)
    returns (tiles: seq<seq<Score>>)
    requires 0 < dim && dim % 32 == 0 && key + N_KV <= keys && slab < slabs
    requires (row + M_Q) * dim <= |q|
    requires PairsAlongRows(k, kp, slabs, keys, dim) && scratch.Length == 1024
    modifies scratch
    ensures AreTiles(tiles, QueryRows(q, row, k, slab, keys, dim, start, scale, causal), key)
    ensures FirstKeyAllowed(QueryRows(q, row, k, slab, keys, dim, start, scale, causal))
  {
    hide ScratchOfDots, PairsAlongRows, QueryRows, GatherTile, AreTiles, FirstKeyAllowed, At;
    var needsMask := causal && key + N_KV > start;
    ScoreTile(q, row, kp, k, slab, slabs, keys, dim, key, scratch);
    tiles := GatherTile(scratch[..], scale, needsMask, start, key);
    GatheredTilesAreRows(q, row, k, slab, keys, dim, start, scale, causal, key, scratch[..]);
    RowsStartAllowed(q, row, k, slab, keys, dim, start, scale, causal);
  }

  /** One iteration of the loop over KV tiles. */
  method StreamTile(e: Exponential, q: seq<real>, row: nat, kp: seq<real>, ghost k: seq<real>, vp: seq<real>,
                    ghost v: seq<real>, slab: nat, slabs: nat,
                    keys: nat, dim: nat, start: nat, scale: real, causal: bool, key: nat, ghost rows: seq<seq<Score>>,
                    rowMax: array<Score>, rowSum: array<real>, o: array<real>, scratch: array<real>, p: array<real>)
    requires 0 < dim && dim % 32 == 0 && key % 32 == 0 && key + N_KV <= keys && slab < slabs
    requires (row + M_Q) * dim <= |q|
    requires PairsAlongRows(k, kp, slabs, keys, dim) && PairsAlongColumns(v, vp, slabs, keys, dim)
    requires rowMax.Length == rowSum.Length == M_Q && M_Q * dim <= o.Length
    requires scratch.Length == 1024 && p.Length == M_Q * N_KV
    requires rowSum != p && rowSum != o && p != o && scratch != o && scratch != p && scratch != rowSum
    requires rows == QueryRows(q, row, k, slab, keys, dim, start, scale, causal)
    requires TileInvariant(e, rows, v, slab, keys, dim, key, rowMax[..], rowSum[..], o[..])
    modifies rowMax, rowSum, o, scratch, p
    ensures TileInvariant(e, rows, v, slab, keys, dim, key + N_KV, rowMax[..], rowSum[..], o[..])
  {
    hide *;
    var tiles := ComputeScores(q, row, kp, k, slab, slabs, keys, dim, start, scale, causal, key, scratch);
    UpdateTile(e, tiles, rows, vp, v, slab, slabs, keys, dim, key, rowMax, rowSum, o, p);
  }

  lemma {:induction false} SkipTail(e: Exponential, rows: seq<seq<Score>>, v: seq<real>, slab: nat, keys: nat,
                                    dim: nat, n: nat,
                                    rowMax: seq<Score>, rowSum: seq<real>, o: seq<real>)
    requires TileInvariant(e, rows, v, slab, keys, dim, n, rowMax, rowSum, o) && AllMaskedFrom(rows, n, keys)
    ensures TileInvariant(e, rows, v, slab, keys, dim, keys, rowMax, rowSum, o)
  {
    StatsSkip(e, rows, n, keys, rowMax, rowSum);
    AccumulatorSkip(e, rows, v, slab, keys, dim, n, rowMax, o);
  }

  /** The loop over KV tiles: statistics and accumulator of all 32 rows. */
  method StreamTiles(e: Exponential, q: seq<real>, row: nat, kp: seq<real>, ghost k: seq<real>, vp: seq<real>,
                     ghost v: seq<real>, slab: nat, slabs: nat,
                     keys: nat, dim: nat, start: nat, scale: real, causal: bool, ghost rows: seq<seq<Score>>,
                     rowMax: array<Score>, rowSum: array<real>, o: array<real>)
    requires 0 < dim && dim % 32 == 0 && 0 < keys && keys % 32 == 0 && slab < slabs
    requires (row + M_Q) * dim <= |q|
    requires PairsAlongRows(k, kp, slabs, keys, dim) && PairsAlongColumns(v, vp, slabs, keys, dim)
    requires rowMax.Length == rowSum.Length == M_Q && M_Q * dim <= o.Length && rowSum != o
    requires rows == QueryRows(q, row, k, slab, keys, dim, start, scale, causal)
    requires TileInvariant(e, rows, v, slab, keys, dim, 0, rowMax[..], rowSum[..], o[..])
    modifies rowMax, rowSum, o
    ensures TileInvariant(e, rows, v, slab, keys, dim, keys, rowMax[..], rowSum[..], o[..])
  {
    hide TileInvariant, PairsAlongRows, PairsAlongColumns, QueryRows, AllMaskedFrom, At;
    var scratch := new real[1024];
    var p := new real[M_Q * N_KV];
    var kvt := 0;
    while kvt < keys / N_KV
      invariant 0 <= kvt <= keys / N_KV
      invariant TileInvariant(e, rows, v, slab, keys, dim, kvt * N_KV, rowMax[..], rowSum[..], o[..])
    {
      if causal && kvt * N_KV >= start + M_Q {
        break;
      }
      StreamTile(e, q, row, kp, k, vp, v, slab, slabs, keys, dim, start, scale, causal, kvt * N_KV, rows, rowMax,
          rowSum, o, scratch, p);
      kvt := kvt + 1;
    }
    if kvt < keys / N_KV {
      RowsMaskedPastTile(q, row, k, slab, keys, dim, start, scale, kvt * N_KV);
      SkipTail(e, rows, v, slab, keys, dim, kvt * N_KV, rowMax[..], rowSum[..], o[..]);
    }
  }

  /** Rows row .. row + 31 of out hold attention; position of row r is start + r - row. */
  ghost predicate TileAttends(e: Exponential, q: seq<real>, row: nat, k: seq<real>, v: seq<real>, slab: nat,
                              keys: nat, dim: nat, start: nat, scale: real, causal: bool, out: seq<real>)
    requires 0 < keys
  {
    forall r, d :: row <= r < row + M_Q && 0 <= d < dim && 0 <= At(r, dim, d) < |out| ==>
      out[At(r, dim, d)] == AttentionAt(e, q, r, k, v, slab, keys, dim, start + (r - row), scale, causal, d)
  }

  lemma {:induction false} NormalisedIsAttention(e: Exponential, q: seq<real>, row: nat, k: seq<real>, v: seq<real>,
                                                 slab: nat, keys: nat, dim: nat, start: nat, scale: real, causal: bool,
                                                 rowMax: seq<Score>, rowSum: seq<real>, o: seq<real>, i: nat, d: nat)
    requires 0 < keys && i < M_Q && d < dim
    requires TileInvariant(e, QueryRows(q, row, k, slab, keys, dim, start, scale, causal), v, slab, keys, dim, keys,
        rowMax, rowSum, o)
    ensures Normalised(o, rowSum, dim, i, d) == AttentionAt(e, q, row + i, k, v, slab, keys, dim, start + i, scale,
        causal, d)
  {
    var s := QueryRow(q, row + i, k, slab, keys, dim, start + i, scale, causal);
    var column := Column(View(v, dim), At(slab, keys, 0), d, keys);
    KeyZeroAllowed(RawScores(View(q, dim), row + i, View(k, dim), At(slab, keys, 0), dim, scale), causal, start + i,
        keys);
    assert s == QueryRows(q, row, k, slab, keys, dim, start, scale, causal)[i];
    StreamEnd(e, s, column, rowMax[i], rowSum[i]);
    ScaledInverse(o[At(i, dim, d)], rowSum[i]);
  }

  lemma {:induction false} StoredIsAttention(e: Exponential, q: seq<real>, row: nat, k: seq<real>, v: seq<real>,
                                             slab: nat, keys: nat, dim: nat, start: nat, scale: real, causal: bool,
                                             rowMax: seq<Score>, rowSum: seq<real>, o: seq<real>, out: seq<real>)
    requires 0 < keys
    requires TileInvariant(e, QueryRows(q, row, k, slab, keys, dim, start, scale, causal), v, slab, keys, dim, keys,
        rowMax, rowSum, o)
    requires forall r, d :: row <= r < row + M_Q && 0 <= d < dim && 0 <= At(r, dim, d) < |out|
               ==> out[At(r, dim, d)] == Normalised(o, rowSum, dim, r - row, d)
    ensures TileAttends(e, q, row, k, v, slab, keys, dim, start, scale, causal, out)
  {
    hide TileInvariant, Normalised, At;
    forall r, d | row <= r < row + M_Q && 0 <= d < dim && 0 <= At(r, dim, d) < |out|
      ensures out[At(r, dim, d)] == AttentionAt(e, q, r, k, v, slab, keys, dim, start + (r - row), scale, causal, d)
    {
      NormalisedIsAttention(e, q, row, k, v, slab, keys, dim, start, scale, causal, rowMax, rowSum, o, r - row, d);
    }
  }

  lemma {:induction false} InitialInvariant(e: Exponential, rows: seq<seq<Score>>, v: seq<real>, slab: nat,
                                            keys: nat, dim: nat, rowMax: seq<Score>, rowSum: seq<real>, o: seq<real>)
    requires |rows| == |rowMax| == |rowSum| == M_Q && |o| == M_Q * dim
    requires forall i :: 0 <= i < M_Q ==> |rows[i]| == keys && rowMax[i] == NegInf && rowSum[i] == 0.0
    requires forall x :: 0 <= x < |o| ==> o[x] == 0.0
    ensures TileInvariant(e, rows, v, slab, keys, dim, 0, rowMax, rowSum, o)
  {
    forall i, d | 0 <= i < M_Q && 0 <= d < dim
      ensures 0 <= At(i, dim, d) < |o|
    {
      AtInBounds(i, M_Q, dim, d);
    }
  }

  /** process_q_tile: 32 query rows of one (batch, head) against all of its keys. */
  method ProcessQTile(e: Exponential, q: seq<real>, row: nat, kp: seq<real>, ghost k: seq<real>, vp: seq<real>,
                      ghost v: seq<real>, slab: nat, slabs: nat,
                      out: array<real>, keys: nat, dim: nat, start: nat, scale: real, causal: bool)
    requires (dim == 64 || dim == 128) && 0 < keys && keys % 32 == 0 && slab < slabs
    requires (row + M_Q) * dim <= |q| == out.Length
    requires PairsAlongRows(k, kp, slabs, keys, dim) && PairsAlongColumns(v, vp, slabs, keys, dim)
    modifies out
    ensures TileAttends(e, q, row, k, v, slab, keys, dim, start, scale, causal, out[..])
    ensures forall r, d :: 0 <= d < dim && 0 <= At(r, dim, d) < out.Length && !(row <= r < row + M_Q)
              ==> out[At(r, dim, d)] == old(out[At(r, dim, d)])
  {
    hide PairsAlongRows, PairsAlongColumns, TileInvariant, QueryRow, QueryRows, AttentionAt, TileAttends;
    hide Normalised, At;
    var rowMax := new Score[M_Q](_ => NegInf);
    var rowSum := new real[M_Q](_ => 0.0);
    var o := new real[M_Q * dim](_ => 0.0);
    ghost var rows := QueryRows(q, row, k, slab, keys, dim, start, scale, causal);
    RowLengths(q, row, k, slab, keys, dim, start, scale, causal);
    InitialInvariant(e, rows, v, slab, keys, dim, rowMax[..], rowSum[..], o[..]);
    StreamTiles(e, q, row, kp, k, vp, v, slab, slabs, keys, dim, start, scale, causal, rows, rowMax, rowSum, o);
    StoreOutput(o[..], rowSum[..], out, row, dim);
    StoredIsAttention(e, q, row, k, v, slab, keys, dim, start, scale, causal, rowMax[..], rowSum[..], o[..], out[..]);
  }

  lemma {:induction false} RowLengths(q: seq<real>, row: nat, k: seq<real>, slab: nat, keys: nat, dim: nat,
                                      start: nat, scale: real, causal: bool)
    ensures forall i :: 0 <= i < M_Q ==> |QueryRows(q, row, k, slab, keys, dim, start, scale, causal)[i]| == keys
  {
  }

  // ---- flash_attn_bf16 --------------------------------------------------------------------

  /** Element d of output row r is softmax attention. */
  ghost function ExactGoal(e: Exponential, q: seq<real>, k: seq<real>, v: seq<real>, keys: nat, dim: nat,
                           scale: real, causal: bool): Goal
    requires 0 < keys
  {
    (r: int, d: int, x: real) => 0 <= r && 0 <= d &&
        x == AttentionAt(e, q, r, k, v, r / keys, keys, dim, r % keys, scale, causal, d)
  }

  lemma {:induction false} TileMeetsGoal(e: Exponential, q: seq<real>, k: seq<real>, v: seq<real>, batch: nat,
                                         heads: nat, keys: nat, dim: nat, scale: real, causal: bool, it: Iteration,
                                         out: seq<real>)
    requires InRange(it, batch, heads, keys) && 0 <= FirstRow(it, heads, keys)
    requires TileAttends(e, q, FirstRow(it, heads, keys), k, v, Slab(it, heads), keys, dim, it.qt * M_Q, scale,
        causal, out)
    ensures IterationDone(ExactGoal(e, q, k, v, keys, dim, scale, causal), heads, keys, dim, it, out)
  {
    hide AttentionAt, Slab;
    var row := FirstRow(it, heads, keys);
    forall r, d | row <= r < row + M_Q && 0 <= d < dim && 0 <= At(r, dim, d) < |out|
      ensures ExactGoal(e, q, k, v, keys, dim, scale, causal)(r, d, out[At(r, dim, d)])
    {
      RowPosition(Slab(it, heads), keys, it.qt * M_Q + (r - row));
    }
  }

  /** flash_attn_bf16: whatever order the parallel loop runs in, every element of the
      output is softmax attention; ok tells whether the shape was accepted. */
  method FlashAttention(e: Exponential, q: seq<real>, k: seq<real>, v: seq<real>, batch: nat, heads: nat, keys: nat,
                        dim: nat, scale: real, causal: bool, order: seq<Iteration>)
    returns (ok: bool, out: array<real>)
    requires |q| == |k| == |v| == ((batch * heads) * keys) * dim
    requires IsSchedule(order, batch, heads, keys)
    ensures ok <==> (dim == 64 || dim == 128) && keys >= 32 && keys % 32 == 0
    ensures ok ==> out.Length == |q|
    ensures ok ==> forall b: nat, h: nat, s: nat, d: nat :: b < batch && h < heads && s < keys && d < dim ==>
              OutputAttends(e, q, k, v, heads, keys, dim, scale, causal, out[..], b, h, s, d)
  {
    hide IterationDone, PairsAlongRows, PairsAlongColumns, Slab, FirstRow, InRange, OutputAttends, ExactGoal;
    ok := ShapeAccepted(keys, dim);
    if !ok {
      out := new real[0];
      return;
    }
    var kPacked := PackK(k, batch * heads, keys, dim);
    var vPacked := PackV(v, batch * heads, keys, dim);
    var kp, vp := kPacked[..], vPacked[..];
    out := new real[|q|];
    ghost var goal := ExactGoal(e, q, k, v, keys, dim, scale, causal);
    for n := 0 to |order|
      invariant fresh(out) && out.Length == |q|
      invariant forall m :: 0 <= m < n ==> IterationDone(goal, heads, keys, dim, order[m], out[..])
    {
      RunIteration(e, q, kp, k, vp, v, batch, heads, keys, dim, scale, causal, order[n], out, order[..n]);
    }
    ScheduleDone(e, q, k, v, batch, heads, keys, dim, scale, causal, order, out[..]);
  }

  /** Once every scheduled iteration is done, so is every element. */
  lemma {:induction false} ScheduleDone(e: Exponential, q: seq<real>, k: seq<real>, v: seq<real>, batch: nat,
                                        heads: nat, keys: nat, dim: nat, scale: real, causal: bool,
                                        order: seq<Iteration>, out: seq<real>)
    requires IsSchedule(order, batch, heads, keys) && ShapeAccepted(keys, dim)
    requires |out| == ((batch * heads) * keys) * dim
    requires forall m :: 0 <= m < |order| ==>
               IterationDone(ExactGoal(e, q, k, v, keys, dim, scale, causal), heads, keys, dim, order[m], out)
    ensures forall b: nat, h: nat, s: nat, d: nat :: b < batch && h < heads && s < keys && d < dim ==>
              OutputAttends(e, q, k, v, heads, keys, dim, scale, causal, out, b, h, s, d)
  {
    hide IterationDone, InRange, OutputAttends, ExactGoal;
    forall b: nat, h: nat, s: nat, d: nat | b < batch && h < heads && s < keys && d < dim
      ensures OutputAttends(e, q, k, v, heads, keys, dim, scale, causal, out, b, h, s, d)
    {
      AllIterationsDone(ExactGoal(e, q, k, v, keys, dim, scale, causal), batch, heads, keys, dim, out, b, h, s, d);
      GoalIsAttention(e, q, k, v, heads, keys, dim, scale, causal, out, b, h, s, d);
    }
  }

  lemma {:induction false} GoalIsAttention(e: Exponential, q: seq<real>, k: seq<real>, v: seq<real>, heads: nat,
                                           keys: nat, dim: nat, scale: real, causal: bool, out: seq<real>, b: nat,
                                           h: nat, s: nat, d: nat)
    requires s < keys && ElementMeets(ExactGoal(e, q, k, v, keys, dim, scale, causal), heads, keys, dim, out, b, h,
        s, d)
    ensures OutputAttends(e, q, k, v, heads, keys, dim, scale, causal, out, b, h, s, d)
  {
    hide AttentionAt, AttentionElement;
    RowPosition(b * heads + h, keys, s);
    RowOffset(heads, keys, dim, b, h, s, d);
    AttentionAtIsElement(e, q, k, v, heads, keys, dim, scale, causal, b, h, s, d);
  }

  /** One iteration of the parallel loop; the ones already done stay done. */
  method RunIteration(e: Exponential, q: seq<real>, kp: seq<real>, ghost k: seq<real>, vp: seq<real>,
                      ghost v: seq<real>, batch: nat, heads: nat, keys: nat, dim: nat,
                      scale: real, causal: bool, it: Iteration, out: array<real>, ghost done: seq<Iteration>)
    requires ShapeAccepted(keys, dim) && InRange(it, batch, heads, keys)
    requires |q| == out.Length == ((batch * heads) * keys) * dim
    requires PairsAlongRows(k, kp, batch * heads, keys, dim) && PairsAlongColumns(v, vp, batch * heads, keys, dim)
    requires forall m :: 0 <= m < |done| ==> InRange(done[m], batch, heads, keys)
    requires forall m :: 0 <= m < |done| ==>
        IterationDone(ExactGoal(e, q, k, v, keys, dim, scale, causal), heads, keys, dim, done[m], out[..])
    modifies out
    ensures IterationDone(ExactGoal(e, q, k, v, keys, dim, scale, causal), heads, keys, dim, it, out[..])
    ensures forall m :: 0 <= m < |done| ==>
        IterationDone(ExactGoal(e, q, k, v, keys, dim, scale, causal), heads, keys, dim, done[m], out[..])
  {
    hide PairsAlongRows, PairsAlongColumns, TileAttends, Slab, FirstRow, InRange, At, IterationDone, ExactGoal;
    IterationInBounds(it, batch, heads, keys);
    ghost var before := out[..];
    var row := FirstRow(it, heads, keys);
    Multiply(row + M_Q, (batch * heads) * keys, dim);
    ProcessQTile(e, q, row, kp, k, vp, v, Slab(it, heads), batch * heads, out, keys, dim, it.qt * M_Q, scale, causal);
    TileMeetsGoal(e, q, k, v, batch, heads, keys, dim, scale, causal, it, out[..]);
    forall m | 0 <= m < |done|
      ensures IterationDone(ExactGoal(e, q, k, v, keys, dim, scale, causal), heads, keys, dim, done[m], out[..])
    {
      if done[m] != it {
        OtherIterationKept(ExactGoal(e, q, k, v, keys, dim, scale, causal), batch, heads, keys, dim, it, done[m],
            before, out[..]);
      }
    }
  }
}

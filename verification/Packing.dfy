/** Pair packing of a row-major operand, as TDPBF16PS wants its B operand. */
module Packing {
  import opened Matrices

  /** First of the two adjacent cells of pair (p, q) in slab b of a packed buffer
      whose slabs have ps rows of qs pairs. */
  function Pair(b: int, ps: int, p: int, qs: int, q: int): int {
    At(At(b, ps, p), 2 * qs, 2 * q)
  }

  lemma {:induction false} PairInBounds(b: int, slabs: int, ps: int, p: int, qs: int, q: int)
    requires 0 <= b < slabs && 0 <= p < ps && 0 <= q < qs
    ensures 0 <= Pair(b, ps, p, qs, q) && Pair(b, ps, p, qs, q) + 1 < (slabs * ps) * (2 * qs)
    ensures 0 <= At(b, ps, p) < slabs * ps
  {
    AtInBounds(b, slabs, ps, p);
    AtInBounds(At(b, ps, p), slabs * ps, 2 * qs, 2 * q + 1);
  }

  /** Distinct pairs occupy disjoint cells. */
  lemma {:induction false} PairsApart(b: int, b': int, ps: int, p: int, p': int, qs: int, q: int, q': int)
    requires 0 <= p < ps && 0 <= p' < ps && 0 <= q < qs && 0 <= q' < qs
    requires -1 <= Pair(b, ps, p, qs, q) - Pair(b', ps, p', qs, q') <= 1
    ensures b == b' && p == p' && q == q'
  {
    var i, i' := At(b, ps, p), At(b', ps, p');
    if i < i' {
      AtOrder(i, 2 * q + 1, i', 2 * q', 2 * qs);
    } else if i' < i {
      AtOrder(i', 2 * q' + 1, i, 2 * q, 2 * qs);
    }
    AtInjective(b, p, b', p', ps);
  }

  /** Pair (p, s) of slab b holds elements (s, 2p) and (s, 2p + 1) of slab b of k. */
  ghost predicate PairsAlongRows(k: seq<real>, packed: seq<real>, slabs: nat, rows: nat, cols: nat) {
    && |packed| == (slabs * (cols / 2)) * (2 * rows)
    && forall b, s, p :: 0 <= b < slabs && 0 <= s < rows && 0 <= p < cols / 2 ==>
         KPair(k, packed, rows, cols, b, s, p)
  }

  ghost predicate KPair(k: seq<real>, packed: seq<real>, rows: int, cols: int, b: int, s: int, p: int) {
    var x := Pair(b, cols / 2, p, rows, s);
    && 0 <= x && x + 1 < |packed|
    && packed[x] == View(k, cols)(At(b, rows, s), 2 * p)
    && packed[x + 1] == View(k, cols)(At(b, rows, s), 2 * p + 1)
  }

  /** Pair (p, d) of slab b holds elements (2p, d) and (2p + 1, d) of slab b of v. */
  ghost predicate PairsAlongColumns(v: seq<real>, packed: seq<real>, slabs: nat, rows: nat, cols: nat) {
    && |packed| == (slabs * (rows / 2)) * (2 * cols)
    && forall b, p, d :: 0 <= b < slabs && 0 <= p < rows / 2 && 0 <= d < cols ==>
         VPair(v, packed, rows, cols, b, p, d)
  }

  ghost predicate VPair(v: seq<real>, packed: seq<real>, rows: int, cols: int, b: int, p: int, d: int) {
    var x := Pair(b, rows / 2, p, cols, d);
    && 0 <= x && x + 1 < |packed|
    && packed[x] == View(v, cols)(At(b, rows, 2 * p), d)
    && packed[x + 1] == View(v, cols)(At(b, rows, 2 * p + 1), d)
  }

  lemma {:induction false} ElementInBounds(b: int, slabs: int, rows: int, s: int, cols: int, d: int)
    requires 0 <= b < slabs && 0 <= s < rows && 0 <= d < cols
    ensures 0 <= At(At(b, rows, s), cols, d) < (slabs * rows) * cols
  {
    AtInBounds(b, slabs, rows, s);
    AtInBounds(At(b, rows, s), slabs * rows, cols, d);
  }

  /** The inner body of pack_K_for_amx_B: one pair, every other pair kept. */
  method StoreKPair(k: seq<real>, dst: array<real>, slabs: nat, rows: nat, cols: nat, b: nat, s: nat, d: nat)
    requires |k| == (slabs * rows) * cols && dst.Length == (slabs * (cols / 2)) * (2 * rows)
    requires b < slabs && s < rows && d + 1 < cols && d % 2 == 0
    modifies dst
    ensures KPair(k, dst[..], rows, cols, b, s, d / 2)
    ensures forall b', s', p' :: 0 <= s' < rows && 0 <= p' < cols / 2 && !(b' == b && s' == s && p' == d / 2)
              && KPair(k, old(dst[..]), rows, cols, b', s', p')
              ==> KPair(k, dst[..], rows, cols, b', s', p')
  {
    var slot := Pair(b, cols / 2, d / 2, rows, s);
    PairInBounds(b, slabs, cols / 2, d / 2, rows, s);
    ElementInBounds(b, slabs, rows, s, cols, d);
    ElementInBounds(b, slabs, rows, s, cols, d + 1);
    dst[slot] := k[At(At(b, rows, s), cols, d)];
    dst[slot + 1] := k[At(At(b, rows, s), cols, d + 1)];
    assert 2 * (d / 2) == d;
    forall b', s', p' | 0 <= s' < rows && 0 <= p' < cols / 2 && !(b' == b && s' == s && p' == d / 2)
                        && KPair(k, old(dst[..]), rows, cols, b', s', p')
      ensures KPair(k, dst[..], rows, cols, b', s', p')
    {
      if -1 <= slot - Pair(b', cols / 2, p', rows, s') <= 1 {
        PairsApart(b, b', cols / 2, d / 2, p', rows, s, s');
      }
    }
  }

  /** pack_K_for_amx_B: one slab per (batch, head). */
  method PackK(k: seq<real>, slabs: nat, rows: nat, cols: nat) returns (dst: array<real>)
    requires cols % 2 == 0 && |k| == (slabs * rows) * cols
    ensures fresh(dst) && PairsAlongRows(k, dst[..], slabs, rows, cols)
  {
    hide KPair;
    dst := new real[(slabs * (cols / 2)) * (2 * rows)];
    for b := 0 to slabs
      invariant forall b', s, p :: 0 <= b' < b && 0 <= s < rows && 0 <= p < cols / 2 ==>
          KPair(k, dst[..], rows, cols, b', s, p)
    {
      for s := 0 to rows
        invariant forall b', s, p :: 0 <= b' < b && 0 <= s < rows && 0 <= p < cols / 2 ==>
            KPair(k, dst[..], rows, cols, b', s, p)
        invariant forall s', p :: 0 <= s' < s && 0 <= p < cols / 2 ==> KPair(k, dst[..], rows, cols, b, s', p)
      {
        var d := 0;
        while d < cols
          invariant 0 <= d <= cols && d % 2 == 0
          invariant forall b', s, p :: 0 <= b' < b && 0 <= s < rows && 0 <= p < cols / 2 ==>
              KPair(k, dst[..], rows, cols, b', s, p)
          invariant forall s', p :: 0 <= s' < s && 0 <= p < cols / 2 ==> KPair(k, dst[..], rows, cols, b, s', p)
          invariant forall p :: 0 <= p < d / 2 ==> KPair(k, dst[..], rows, cols, b, s, p)
        {
          StoreKPair(k, dst, slabs, rows, cols, b, s, d);
          d := d + 2;
        }
      }
    }
  }

  /** The inner body of pack_V_pairs: one pair, every other pair kept. */
  method StoreVPair(v: seq<real>, dst: array<real>, slabs: nat, rows: nat, cols: nat, b: nat, p: nat, d: nat)
    requires |v| == (slabs * rows) * cols && dst.Length == (slabs * (rows / 2)) * (2 * cols)
    requires b < slabs && p < rows / 2 && d < cols
    modifies dst
    ensures VPair(v, dst[..], rows, cols, b, p, d)
    ensures forall b', p', d' :: 0 <= p' < rows / 2 && 0 <= d' < cols && !(b' == b && p' == p && d' == d)
              && VPair(v, old(dst[..]), rows, cols, b', p', d')
              ==> VPair(v, dst[..], rows, cols, b', p', d')
  {
    var slot := Pair(b, rows / 2, p, cols, d);
    PairInBounds(b, slabs, rows / 2, p, cols, d);
    ElementInBounds(b, slabs, rows, 2 * p, cols, d);
    ElementInBounds(b, slabs, rows, 2 * p + 1, cols, d);
    dst[slot] := v[At(At(b, rows, 2 * p), cols, d)];
    dst[slot + 1] := v[At(At(b, rows, 2 * p + 1), cols, d)];
    forall b', p', d' | 0 <= p' < rows / 2 && 0 <= d' < cols && !(b' == b && p' == p && d' == d)
                        && VPair(v, old(dst[..]), rows, cols, b', p', d')
      ensures VPair(v, dst[..], rows, cols, b', p', d')
    {
      if -1 <= slot - Pair(b', rows / 2, p', cols, d') <= 1 {
        PairsApart(b, b', rows / 2, p, p', cols, d, d');
      }
    }
  }

  /** pack_V_pairs: one slab per (batch, head). */
  method PackV(v: seq<real>, slabs: nat, rows: nat, cols: nat) returns (dst: array<real>)
    requires rows % 2 == 0 && |v| == (slabs * rows) * cols
    ensures fresh(dst) && PairsAlongColumns(v, dst[..], slabs, rows, cols)
  {
    hide VPair;
    dst := new real[(slabs * (rows / 2)) * (2 * cols)];
    for b := 0 to slabs
      invariant forall b', p, d :: 0 <= b' < b && 0 <= p < rows / 2 && 0 <= d < cols ==>
          VPair(v, dst[..], rows, cols, b', p, d)
    {
      for p := 0 to rows / 2
        invariant forall b', p, d :: 0 <= b' < b && 0 <= p < rows / 2 && 0 <= d < cols ==>
            VPair(v, dst[..], rows, cols, b', p, d)
        invariant forall p', d :: 0 <= p' < p && 0 <= d < cols ==> VPair(v, dst[..], rows, cols, b, p', d)
      {
        for d := 0 to cols
          invariant forall b', p, d :: 0 <= b' < b && 0 <= p < rows / 2 && 0 <= d < cols ==>
              VPair(v, dst[..], rows, cols, b', p, d)
          invariant forall p', d :: 0 <= p' < p && 0 <= d < cols ==> VPair(v, dst[..], rows, cols, b, p', d)
          invariant forall d' :: 0 <= d' < d ==> VPair(v, dst[..], rows, cols, b, p, d')
        {
          StoreVPair(v, dst, slabs, rows, cols, b, p, d);
        }
      }
    }
  }
}

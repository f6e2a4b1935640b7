/** What the kernels are meant to compute: scaled dot-product attention, given
    directly, one output element at a time. */
module Attention {
  import opened Matrices
  import opened Reals
  import opened Softmax

  /** The score of key j for the query at position pos. */
  function MaskedScore(causal: bool, pos: int, j: int, x: real): Score {
    if causal && j > pos then NegInf else Fin(x)
  }

  /** The raw scores of row i of q against the keys in rows k0, k0 + 1, ... of k. */
  ghost function RawScores(q: Matrix, i: int, k: Matrix, k0: int, dim: nat, scale: real): int -> real {
    (j: int) => Scaled(Dot(q, i, k, k0 + j, dim), scale)
  }

  ghost function ScoreRow(raw: int -> real, causal: bool, pos: int, keys: nat): (s: seq<Score>)
    ensures |s| == keys
    ensures forall j :: 0 <= j < keys ==> s[j] == MaskedScore(causal, pos, j, raw(j))
  {
    seq(keys, j requires 0 <= j < keys => MaskedScore(causal, pos, j, raw(j)))
  }

  /** Column d of the value rows v0, v0 + 1, ... */
  ghost function Column(v: Matrix, v0: int, d: int, keys: nat): (c: seq<real>)
    ensures |c| == keys
    ensures forall j :: 0 <= j < keys ==> c[j] == v(v0 + j, d)
  {
    seq(keys, j requires 0 <= j < keys => v(v0 + j, d))
  }

  lemma {:induction false} KeyZeroAllowed(raw: int -> real, causal: bool, pos: int, keys: nat)
    requires 0 < keys && 0 <= pos
    ensures AnyAllowed(ScoreRow(raw, causal, pos, keys))
  {
    assert ScoreRow(raw, causal, pos, keys)[0].Fin?;
  }

  /** The scores of the query in row `row` of q, at sequence position pos, against the
      keys of its (batch, head) slab. */
  ghost function QueryRow(q: seq<real>, row: nat, k: seq<real>, slab: nat, keys: nat, dim: nat, pos: nat,
                          scale: real, causal: bool): (s: seq<Score>)
    ensures |s| == keys
  {
    ScoreRow(RawScores(View(q, dim), row, View(k, dim), At(slab, keys, 0), dim, scale), causal, pos, keys)
  }

  /** Softmax attention of the query in row `row` of q, at sequence position pos. */
  ghost function AttentionAt(e: Exponential, q: seq<real>, row: nat, k: seq<real>, v: seq<real>, slab: nat,
                             keys: nat, dim: nat, pos: nat, scale: real, causal: bool, d: nat): real
    requires 0 < keys
  {
    KeyZeroAllowed(RawScores(View(q, dim), row, View(k, dim), At(slab, keys, 0), dim, scale), causal, pos, keys);
    Attend(e, QueryRow(q, row, k, slab, keys, dim, pos, scale, causal),
        Column(View(v, dim), At(slab, keys, 0), d, keys))
  }
}

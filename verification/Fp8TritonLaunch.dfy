/** The launch grid of the Triton FP8 kernel and the quantising wrapper around it. */
module Fp8TritonLaunch {
  import opened Attention
  import opened DirectAttention
  import opened Fp8Triton
  import opened Matrices
  import opened Quantization
  import opened Reals
  import opened Softmax

  /** The tensors, scales and settings of one launch. */
  datatype Launch = Launch(q: Tensor, k: Tensor, v: Tensor, qs: seq<real>, ks: seq<real>, vs: seq<real>,
      smScale: real, fp8Max: real, causal: bool) {
    ghost predicate Valid() {
      && q.Valid() && k.Valid() && v.Valid()
      && q.batch == k.batch == v.batch && q.heads == k.heads == v.heads && q.cols == k.cols == v.cols
      && k.rows == v.rows && 0 < k.rows && 0 < q.heads && fp8Max > 0.0
      && |qs| == |ks| == |vs| == q.batch * q.heads
    }

    function Operands(bh: nat, first: nat, blockN: nat): Program
      requires bh < |qs| && bh < |ks| && bh < |vs| && 0 < q.heads
    {
      var b, h := bh / q.heads, bh % q.heads;
      Program(q.Slab(b, h), k.Slab(b, h), v.Slab(b, h), Scaled(Scaled(smScale, qs[bh]), ks[bh]), vs[bh], fp8Max,
          q.cols, k.rows, causal, first, blockN)
    }

    /** Softmax attention over the dequantised tensors. */
    ghost function Expected(e: Exponential, bh: nat, r: nat, d: nat): real
      requires Valid() && bh < |qs|
    {
      var b, h := bh / q.heads, bh % q.heads;
      var raw := RawScores(Dequantized(q.Slab(b, h), qs[bh]), r, Dequantized(k.Slab(b, h), ks[bh]), 0, q.cols, smScale);
      KeyZeroAllowed(raw, causal, r, k.rows);
      Attend(e, ScoreRow(raw, causal, r, k.rows), Column(Dequantized(v.Slab(b, h), vs[bh]), 0, d, k.rows))
    }

    /** Folding the scales into the temperature is the same as dequantising first. */
    lemma {:induction false} FoldedScales(e: Exponential, bh: nat, first: nat, blockN: nat, r: nat, d: nat)
      requires Valid() && bh < |qs|
      ensures Operands(bh, first, blockN).Direct(e, r, d) == Expected(e, bh, r, d)
    {
      hide Scaled, Attend, Dot;
      var b, h := bh / q.heads, bh % q.heads;
      var p := Operands(bh, first, blockN);
      var folded := RawScores(p.q, r, p.k, 0, p.dim, p.scale);
      var raw := RawScores(Dequantized(q.Slab(b, h), qs[bh]), r, Dequantized(k.Slab(b, h), ks[bh]), 0, q.cols, smScale);
      KeyZeroAllowed(raw, causal, r, k.rows);
      KeyZeroAllowed(folded, causal, r, k.rows);
      forall j | 0 <= j < k.rows
        ensures folded(j) == raw(j)
      {
        DotOfScaled(q.Slab(b, h), qs[bh], r, k.Slab(b, h), ks[bh], 0 + j, q.cols, smScale);
      }
      assert ScoreRow(folded, causal, r, k.rows) == ScoreRow(raw, causal, r, k.rows);
    }
  }

  lemma {:induction false} DotOfScaled(x: Matrix, sx: real, i: int, y: Matrix, sy: real, j: int, n: nat, scale: real)
    ensures Scaled(Dot(x, i, y, j, n), Scaled(Scaled(scale, sx), sy)) ==
        Scaled(Dot(Dequantized(x, sx), i, Dequantized(y, sy), j, n), scale)
  {
    if n > 0 {
      DotOfScaled(x, sx, i, y, sy, j, n - 1, scale);
      ScaledTerm(Dot(x, i, y, j, n - 1), Dot(Dequantized(x, sx), i, Dequantized(y, sy), j, n - 1), x(i, n - 1),
          y(j, n - 1), sx, sy, scale);
      hide Scaled;
      assert Dequantized(x, sx)(i, n - 1) == Scaled(sx, x(i, n - 1)) &&
          Dequantized(y, sy)(j, n - 1) == Scaled(sy, y(j, n - 1));
    }
  }

  lemma {:induction false} ScaledTerm(s: real, t: real, x: real, y: real, sx: real, sy: real, scale: real)
    requires Scaled(s, Scaled(Scaled(scale, sx), sy)) == Scaled(t, scale)
    ensures Scaled(s + Scaled(x, y), Scaled(Scaled(scale, sx), sy)) ==
        Scaled(t + Scaled(Scaled(sx, x), Scaled(sy, y)), scale)
  {
    var f := Scaled(Scaled(scale, sx), sy);
    assert (s + x * y) * f == s * f + (x * y) * f;
    assert (x * y) * ((scale * sx) * sy) == ((sx * x) * (sy * y)) * scale;
  }

  // ---- one program: loop, normalise, masked store ---------------------------------------------

  /** Rows first .. first + blockM - 1 of slab (b, h), clipped to the sequence. */
  predicate InBlock(b: int, h: int, r: int, b0: int, h0: int, first: int, blockM: int) {
    b == b0 && h == h0 && first <= r < first + blockM
  }

  method StoreRow(out: array<real>, l: Layout, batch: nat, heads: nat, rows: nat, cols: nat, b: nat, h: nat, r: nat,
                  vals: seq<real>)
    requires Addressable(l, batch, heads, rows, cols, out.Length) && Injective(l, batch, heads, rows, cols)
    requires b < batch && h < heads && r < rows && |vals| == cols
    modifies out
    ensures forall b', h', r', c :: 0 <= b' < batch && 0 <= h' < heads && 0 <= r' < rows && 0 <= c < cols ==>
              out[l.Offset(b', h', r', c)] ==
                if b' == b && h' == h && r' == r then vals[c]
                else old(out[l.Offset(b', h', r', c)])
  {
    for d := 0 to cols
      invariant forall b', h', r', c :: 0 <= b' < batch && 0 <= h' < heads && 0 <= r' < rows && 0 <= c < cols ==>
                  out[l.Offset(b', h', r', c)] ==
                    if b' == b && h' == h && r' == r && c < d then vals[c]
                    else old(out[l.Offset(b', h', r', c)])
    {
      out[l.Offset(b, h, r, d)] := vals[d];
    }
  }

  /** The masked store of a block: rows past the end of the sequence are dropped. */
  method StoreBlock(out: array<real>, l: Layout, batch: nat, heads: nat, rows: nat, cols: nat, b: nat, h: nat,
                    first: nat, vals: seq<seq<real>>)
    requires Addressable(l, batch, heads, rows, cols, out.Length) && Injective(l, batch, heads, rows, cols)
    requires b < batch && h < heads && forall i :: 0 <= i < |vals| ==> |vals[i]| == cols
    modifies out
    ensures forall b', h', r, c :: 0 <= b' < batch && 0 <= h' < heads && 0 <= r < rows && 0 <= c < cols ==>
              out[l.Offset(b', h', r, c)] ==
                if InBlock(b', h', r, b, h, first, |vals|) then vals[r - first][c]
                else old(out[l.Offset(b', h', r, c)])
  {
    for i := 0 to |vals|
      invariant forall b', h', r, c :: 0 <= b' < batch && 0 <= h' < heads && 0 <= r < rows && 0 <= c < cols ==>
                  out[l.Offset(b', h', r, c)] ==
                    if InBlock(b', h', r, b, h, first, i) then vals[r - first][c]
                    else old(out[l.Offset(b', h', r, c)])
    {
      if first + i < rows {
        StoreRow(out, l, batch, heads, rows, cols, b, h, first + i, vals[i]);
      }
    }
  }

  lemma {:induction false} CdivCovers(a: nat, b: nat)
    requires 0 < b
    ensures Cdiv(a, b) * b >= a
  {
  }

  function Normalize(acc: seq<real>, l: real): (r: seq<real>)
    requires l != 0.0
    ensures |r| == |acc|
    ensures forall d :: 0 <= d < |acc| ==> r[d] == acc[d] / l
  {
    seq(|acc|, d requires 0 <= d < |acc| => acc[d] / l)
  }

  /** The loop of one program over all key blocks, and the normalisation. */
  method ComputeBlock(e: Exponential, p: Program, blockM: nat) returns (vals: seq<seq<real>>)
    requires 0 < p.blockN && 0 < p.keys && p.fp8Max > 0.0
    ensures |vals| == blockM
    ensures forall i :: 0 <= i < blockM ==> |vals[i]| == p.dim
    ensures forall i, d :: 0 <= i < blockM && 0 <= d < p.dim ==> vals[i][d] == p.Direct(e, p.first + i, d)
  {
    hide Program.Invariant, Program.Direct, Program.Step, Program.NextFinite, Cdiv;
    var s := Registers(seq(blockM, _ => NegInf), seq(blockM, _ => 0.0), seq(blockM, _ => seq(p.dim, _ => 0.0)));
    var blocks := Cdiv(p.keys, p.blockN);
    ghost var padded := blocks * p.blockN;
    CdivCovers(p.keys, p.blockN);
    InitialRegisters(e, p, s, blockM, padded);
    for n := 0 to blocks
      invariant Shaped(s, blockM, p.dim)
      invariant p.Invariant(e, s, blockM, n * p.blockN, padded)
    {
      Multiply(n + 1, blocks, p.blockN);
      Multiply(0, n, p.blockN);
      p.StepKept(e, s, blockM, n * p.blockN, padded);
      s := p.Step(e, s, blockM, n * p.blockN);
      assert (n + 1) * p.blockN == n * p.blockN + p.blockN;
    }
    vals := [];
    for i := 0 to blockM
      invariant |vals| == i && forall i' :: 0 <= i' < i ==> |vals[i']| == p.dim
      invariant forall i', d :: 0 <= i' < i && 0 <= d < p.dim ==> vals[i'][d] == p.Direct(e, p.first + i', d)
    {
      forall d | 0 <= d < p.dim
        ensures s.l[i] >= 1.0 && s.acc[i][d] / s.l[i] == p.Direct(e, p.first + i, d)
      {
        p.EndOfRow(e, s, blockM, padded, i, d);
      }
      if p.dim == 0 {
        vals := vals + [[]];
      } else {
        p.EndOfRow(e, s, blockM, padded, i, 0);
        vals := vals + [Normalize(s.acc[i], s.l[i])];
      }
    }
  }

  lemma {:induction false} InitialRegisters(e: Exponential, p: Program, s: Registers, blockM: nat, padded: nat)
    requires Shaped(s, blockM, p.dim)
    requires forall i :: 0 <= i < blockM ==> s.m[i] == NegInf && s.l[i] == 0.0 && forall d :: 0 <= d < p.dim ==>
        s.acc[i][d] == 0.0
    ensures p.Invariant(e, s, blockM, 0, padded)
  {
    forall i | 0 <= i < blockM
      ensures p.RowAt(e, s, i, 0, padded)
    {
    }
  }

  /** One program: every in-range row of its block becomes the expected output, and
      nothing else is written. */
  method RunProgram(e: Exponential, g: Launch, out: array<real>, l: Layout, blockM: nat, blockN: nat, pidM: nat,
                    pidBh: nat)
    requires g.Valid() && 0 < blockM && 0 < blockN && pidBh < g.q.batch * g.q.heads
    requires Addressable(l, g.q.batch, g.q.heads, g.q.rows, g.q.cols, out.Length) &&
        Injective(l, g.q.batch, g.q.heads, g.q.rows, g.q.cols)
    modifies out
    ensures forall b, h, r, c :: 0 <= b < g.q.batch && 0 <= h < g.q.heads && 0 <= r < g.q.rows && 0 <= c < g.q.cols ==>
              out[l.Offset(b, h, r, c)] ==
                if InBlock(b, h, r, pidBh / g.q.heads, pidBh % g.q.heads, pidM * blockM, blockM)
                then g.Expected(e, pidBh, r, c)
                else old(out[l.Offset(b, h, r, c)])
  {
    hide Launch.Expected, Program.Direct, Layout.Offset;
    AtSurjective(pidBh, g.q.batch, g.q.heads);
    Multiply(0, pidM, blockM);
    var first := pidM * blockM;
    var p := g.Operands(pidBh, first, blockN);
    var vals := ComputeBlock(e, p, blockM);
    StoreBlock(out, l, g.q.batch, g.q.heads, g.q.rows, g.q.cols, pidBh / g.q.heads, pidBh % g.q.heads, first, vals);
    forall r, c | first <= r < first + blockM && 0 <= c < g.q.cols
      ensures vals[r - first][c] == g.Expected(e, pidBh, r, c)
    {
      g.FoldedScales(e, pidBh, first, blockN, r, c);
      assert p.first + (r - first) == r;
    }
  }

  // ---- the grid ----------------------------------------------------------------------------------

  datatype Pid = Pid(m: nat, bh: nat)

  predicate InGrid(pid: Pid, rows: nat, blockM: nat, slabs: nat)
    requires 0 < blockM
  {
    pid.m < Cdiv(rows, blockM) && pid.bh < slabs
  }

  ghost predicate IsGridOrder(order: seq<Pid>, rows: nat, blockM: nat, slabs: nat)
    requires 0 < blockM
  {
    && (forall n :: 0 <= n < |order| ==> InGrid(order[n], rows, blockM, slabs))
    && (forall pid :: InGrid(pid, rows, blockM, slabs) ==> pid in order)
  }

  /** Exactly one program of the grid stores row r of slab (b, h), and its block holds
      the row exactly once. */
  lemma {:induction false} RowOwnedOnce(batch: nat, heads: nat, rows: nat, blockM: nat, b: nat, h: nat, r: nat,
                                        pid: Pid)
    requires 0 < blockM && b < batch && h < heads && r < rows
    ensures InGrid(Pid(r / blockM, b * heads + h), rows, blockM, batch * heads)
    ensures InBlock(b, h, r, pid.bh / heads, pid.bh % heads, pid.m * blockM, blockM)
       <==> pid == Pid(r / blockM, b * heads + h)
  {
    AtInBounds(b, batch, heads, h);
    RowBlock(rows, blockM, r, pid.m);
    SlabSplit(heads, b, h, pid.bh);
  }

  lemma {:induction false} RowBlock(rows: nat, blockM: nat, r: nat, m: nat)
    requires 0 < blockM && r < rows
    ensures r / blockM < Cdiv(rows, blockM)
    ensures m * blockM <= r < m * blockM + blockM <==> m == r / blockM
  {
    hide Cdiv;
    CdivCovers(rows, blockM);
    AtSurjective(r, Cdiv(rows, blockM), blockM);
    if m < r / blockM {
      Multiply(m + 1, r / blockM, blockM);
    } else if r / blockM < m {
      Multiply(r / blockM + 1, m, blockM);
    }
  }

  lemma {:induction false} SlabSplit(heads: nat, b: nat, h: nat, bh: nat)
    requires h < heads
    ensures bh / heads == b && bh % heads == h <==> bh == b * heads + h
  {
    AtSurjective(bh, bh + 1, heads) by { Multiply(1, heads, bh + 1); }
    if bh == b * heads + h {
      AtInjective(bh / heads, bh % heads, b, h, heads);
    }
  }

  /** The rows of program pid hold the expected output. */
  ghost predicate ProgramDone(e: Exponential, g: Launch, out: seq<real>, l: Layout, blockM: nat, pid: Pid)
    requires g.Valid() && 0 < blockM && pid.bh < |g.qs|
    requires Addressable(l, g.q.batch, g.q.heads, g.q.rows, g.q.cols, |out|)
  {
    forall b, h, r, c :: 0 <= b < g.q.batch && 0 <= h < g.q.heads && 0 <= r < g.q.rows && 0 <= c < g.q.cols
        && InBlock(b, h, r, pid.bh / g.q.heads, pid.bh % g.q.heads, pid.m * blockM, blockM)
      ==> out[l.Offset(b, h, r, c)] == g.Expected(e, pid.bh, r, c)
  }

  /** Running one more program keeps the ones already done. */
  lemma {:induction false} DoneKept(e: Exponential, g: Launch, out: seq<real>, out': seq<real>, l: Layout,
                                    blockM: nat, pid: Pid, other: Pid)
    requires g.Valid() && 0 < blockM && pid.bh < |g.qs| && other.bh < |g.qs| && |out| == |out'|
    requires Addressable(l, g.q.batch, g.q.heads, g.q.rows, g.q.cols, |out|)
    requires forall b, h, r, c :: 0 <= b < g.q.batch && 0 <= h < g.q.heads && 0 <= r < g.q.rows && 0 <= c < g.q.cols ==>
               out'[l.Offset(b, h, r, c)] ==
                 if InBlock(b, h, r, pid.bh / g.q.heads, pid.bh % g.q.heads, pid.m * blockM, blockM)
                 then g.Expected(e, pid.bh, r, c)
                 else out[l.Offset(b, h, r, c)]
    requires ProgramDone(e, g, out, l, blockM, other)
    ensures ProgramDone(e, g, out', l, blockM, other) && ProgramDone(e, g, out', l, blockM, pid)
  {
    hide Launch.Expected, Layout.Offset, InBlock;
    forall b, h, r, c | 0 <= b < g.q.batch && 0 <= h < g.q.heads && 0 <= r < g.q.rows && 0 <= c < g.q.cols
        && InBlock(b, h, r, other.bh / g.q.heads, other.bh % g.q.heads, other.m * blockM, blockM)
      ensures out'[l.Offset(b, h, r, c)] == g.Expected(e, other.bh, r, c)
    {
      RowOwnedOnce(g.q.batch, g.q.heads, g.q.rows, blockM, b, h, r, pid);
      RowOwnedOnce(g.q.batch, g.q.heads, g.q.rows, blockM, b, h, r, other);
    }
  }

  /** The launch: the programs of the grid in any order. */
  method RunGrid(e: Exponential, g: Launch, out: array<real>, l: Layout, blockM: nat, blockN: nat, order: seq<Pid>)
    requires g.Valid() && 0 < blockM && 0 < blockN && IsGridOrder(order, g.q.rows, blockM, g.q.batch * g.q.heads)
    requires Addressable(l, g.q.batch, g.q.heads, g.q.rows, g.q.cols, out.Length) &&
        Injective(l, g.q.batch, g.q.heads, g.q.rows, g.q.cols)
    modifies out
    ensures forall b: nat, h: nat, r: nat, c: nat :: b < g.q.batch && h < g.q.heads && r < g.q.rows && c < g.q.cols ==>
              GridElement(e, g, out[..], l, b, h, r, c)
  {
    hide ProgramDone, InBlock, Layout.Offset, Launch.Expected, InGrid, Cdiv, GridElement;
    for n := 0 to |order|
      invariant forall m :: 0 <= m < n ==> order[m].bh < |g.qs| && ProgramDone(e, g, out[..], l, blockM, order[m])
    {
      var pid := order[n];
      PidInBounds(pid, g.q.rows, blockM, g.q.batch * g.q.heads);
      ghost var before := out[..];
      RunProgram(e, g, out, l, blockM, blockN, pid.m, pid.bh);
      forall m | 0 <= m < n
        ensures ProgramDone(e, g, out[..], l, blockM, order[m])
      {
        DoneKept(e, g, before, out[..], l, blockM, pid, order[m]);
      }
      JustDone(e, g, before, out[..], l, blockM, pid);
    }
    forall b: nat, h: nat, r: nat, c: nat | b < g.q.batch && h < g.q.heads && r < g.q.rows && c < g.q.cols
      ensures GridElement(e, g, out[..], l, b, h, r, c)
    {
      var owner := Pid(r / blockM, b * g.q.heads + h);
      RowOwnedOnce(g.q.batch, g.q.heads, g.q.rows, blockM, b, h, r, owner);
      assert owner in order;
      ElementOfDone(e, g, out[..], l, blockM, b, h, r, c);
    }
  }

  /** Element (b, h, r, c) of the output is softmax attention over the dequantised
      tensors. */
  ghost predicate GridElement(e: Exponential, g: Launch, out: seq<real>, l: Layout, b: nat, h: nat, r: nat, c: nat)
    requires g.Valid()
  {
    && b * g.q.heads + h < |g.qs| && 0 <= l.Offset(b, h, r, c) < |out|
    && out[l.Offset(b, h, r, c)] == g.Expected(e, b * g.q.heads + h, r, c)
  }

  lemma {:induction false} PidInBounds(pid: Pid, rows: nat, blockM: nat, slabs: nat)
    requires 0 < blockM && InGrid(pid, rows, blockM, slabs)
    ensures pid.bh < slabs
  {
  }

  lemma {:induction false} JustDone(e: Exponential, g: Launch, out: seq<real>, out': seq<real>, l: Layout,
                                    blockM: nat, pid: Pid)
    requires g.Valid() && 0 < blockM && pid.bh < |g.qs| && |out| == |out'|
    requires Addressable(l, g.q.batch, g.q.heads, g.q.rows, g.q.cols, |out|)
    requires forall b, h, r, c :: 0 <= b < g.q.batch && 0 <= h < g.q.heads && 0 <= r < g.q.rows && 0 <= c < g.q.cols ==>
               out'[l.Offset(b, h, r, c)] ==
                 if InBlock(b, h, r, pid.bh / g.q.heads, pid.bh % g.q.heads, pid.m * blockM, blockM)
                 then g.Expected(e, pid.bh, r, c)
                 else out[l.Offset(b, h, r, c)]
    ensures ProgramDone(e, g, out', l, blockM, pid)
  {
    hide Launch.Expected, Layout.Offset, InBlock;
  }

  lemma {:induction false} ElementOfDone(e: Exponential, g: Launch, out: seq<real>, l: Layout, blockM: nat, b: nat,
                                         h: nat, r: nat, c: nat)
    requires g.Valid() && 0 < blockM && b < g.q.batch && h < g.q.heads && r < g.q.rows && c < g.q.cols
    requires Addressable(l, g.q.batch, g.q.heads, g.q.rows, g.q.cols, |out|)
    requires b * g.q.heads + h < |g.qs| && ProgramDone(e, g, out, l, blockM, Pid(r / blockM, b * g.q.heads + h))
    ensures GridElement(e, g, out, l, b, h, r, c)
  {
    hide Launch.Expected, Layout.Offset;
    RowOwnedOnce(g.q.batch, g.q.heads, g.q.rows, blockM, b, h, r, Pid(r / blockM, b * g.q.heads + h));
  }

  // ---- quantisation and the public entry point -------------------------------------------------------

  const FP8_E4M3_MAX := 240.0

  /** One dequantisation scale per (batch, head) slab of `size` elements. */
  function PerSlabScale(x: seq<real>, slabs: nat, size: nat): (s: seq<real>)
    requires |x| == slabs * size
    ensures |s| == slabs
    ensures forall i :: 0 <= i < slabs ==> s[i] == SlabScale(x, slabs, size, i)
  {
    seq(slabs, i requires 0 <= i < slabs => SlabScale(x, slabs, size, i))
  }

  function SlabScale(x: seq<real>, slabs: nat, size: nat, i: nat): (s: real)
    requires |x| == slabs * size && i < slabs
    ensures s > 0.0
  {
    MaxReal(SlabMagnitude(x, slabs, size, i), 0.000001) / (0.95 * FP8_E4M3_MAX)
  }

  function SlabMagnitude(x: seq<real>, slabs: nat, size: nat, i: nat): (m: real)
    requires |x| == slabs * size && i < slabs
    ensures m >= 0.0
  {
    Multiply(0, i, size);
    Multiply(i + 1, slabs, size);
    AbsMax(x, i * size, i * size + size)
  }

  /** With scale t, slab i and the floor of 1e-6 fit in 95% of the FP8 range. */
  ghost predicate Covers(x: seq<real>, slabs: nat, size: nat, i: nat, t: real)
    requires |x| == slabs * size
  {
    0.000001 <= 228.0 * t && forall j :: 0 <= j < |x| && i * size <= j < i * size + size ==> Abs(x[j]) <= 228.0 * t
  }

  /** Each slab's scale is positive, covers the slab, and is the least that does. */
  lemma {:induction false} ScaleIsLeast(x: seq<real>, slabs: nat, size: nat, i: nat)
    requires |x| == slabs * size && i < slabs
    ensures var scale := PerSlabScale(x, slabs, size)[i];
            && scale > 0.0 && Covers(x, slabs, size, i, scale)
            && forall t :: Covers(x, slabs, size, i, t) ==> scale <= t
  {
    Multiply(0, i, size);
    Multiply(i + 1, slabs, size);
    AbsMaxIsMaximum(x, i * size, i * size + size);
    assert 0.95 * FP8_E4M3_MAX == 228.0;
  }

  function ClampReal(x: real, lo: real, hi: real): real {
    if x < lo then lo else if x > hi then hi else x
  }

  /** Scales every element into the FP8 range; the cast itself is the identity. */
  function QuantizeFp8(x: seq<real>, scales: seq<real>, slabs: nat, size: nat): (y: seq<real>)
    requires |x| == slabs * size && |scales| == slabs && 0 < size && forall i :: 0 <= i < slabs ==> scales[i] > 0.0
    ensures |y| == |x|
    ensures forall j :: 0 <= j < |x| ==> 0 <= j / size < slabs
    ensures forall j :: 0 <= j < |x| ==>
        y[j] == ClampReal(Scaled(x[j], 1.0 / scales[j / size]), -FP8_E4M3_MAX, FP8_E4M3_MAX)
  {
    SlabIndices(slabs, size);
    seq(|x|, j requires 0 <= j < |x| => ClampReal(Scaled(x[j], 1.0 / scales[j / size]), -FP8_E4M3_MAX, FP8_E4M3_MAX))
  }

  lemma {:induction false} SlabIndices(slabs: nat, size: nat)
    requires 0 < size
    ensures forall j :: 0 <= j < slabs * size ==> 0 <= j / size < slabs
  {
    forall j | 0 <= j < slabs * size
      ensures 0 <= j / size < slabs
    {
      AtSurjective(j, slabs, size);
    }
  }

  /** The clamp never bites: with the slab's own scale every element lands within 228,
      below the FP8 maximum of 240, and dequantising gives it back. */
  lemma {:induction false} QuantizeRoundTrip(x: seq<real>, slabs: nat, size: nat, j: nat)
    requires |x| == slabs * size && 0 < size && j < |x|
    ensures var scales := PerSlabScale(x, slabs, size);
            var y := QuantizeFp8(x, scales, slabs, size);
            && 0 <= j / size < slabs
            && Abs(y[j]) <= 228.0 && Scaled(scales[j / size], y[j]) == x[j]
  {
    hide AbsMax, QuantizeFp8;
    AtSurjective(j, slabs, size);
    var i := j / size;
    Multiply(0, i, size);
    Multiply(i + 1, slabs, size);
    AbsMaxIsMaximum(x, i * size, i * size + size);
    var amax := MaxReal(SlabMagnitude(x, slabs, size, i), 0.000001);
    InRange228(x[j], amax, SlabScale(x, slabs, size, i));
  }

  lemma {:induction false} InRange228(x: real, amax: real, scale: real)
    requires amax > 0.0 && Abs(x) <= amax && scale == amax / (0.95 * FP8_E4M3_MAX)
    ensures Abs(Scaled(x, 1.0 / scale)) <= 228.0
    ensures Scaled(scale, Scaled(x, 1.0 / scale)) == x
  {
    var f := 1.0 / scale;
    assert amax == 228.0 * scale && f * scale == 1.0;
    assert f * amax == 228.0 * (f * scale);
    ScaledMonotone(f, x, amax);
    ScaledMonotone(f, -amax, x);
    assert Scaled(scale, Scaled(x, f)) == x * (f * scale);
  }

  /** Strides of a contiguous (batch, heads, rows, cols) tensor. */
  function Contiguous(heads: nat, rows: nat, cols: nat): Layout {
    Layout(heads * (rows * cols), rows * cols, cols, 1)
  }

  lemma {:induction false} ContiguousOffset(heads: nat, rows: nat, cols: nat, b: int, h: int, r: int, c: int)
    ensures Contiguous(heads, rows, cols).Offset(b, h, r, c) == At(At(b * heads + h, rows, r), cols, c)
  {
    assert b * (heads * (rows * cols)) == ((b * heads) * rows) * cols;
    assert h * (rows * cols) == (h * rows) * cols;
    assert ((b * heads + h) * rows + r) * cols == ((b * heads) * rows) * cols + (h * rows) * cols + r * cols;
  }

  lemma {:induction false} ContiguousInBounds(batch: nat, heads: nat, rows: nat, cols: nat, b: int, h: int, r: int,
                                              c: int)
    requires 0 <= b < batch && 0 <= h < heads && 0 <= r < rows && 0 <= c < cols
    ensures 0 <= Contiguous(heads, rows, cols).Offset(b, h, r, c) < ((batch * heads) * rows) * cols
    ensures 0 <= b * heads + h < batch * heads && 0 <= At(b * heads + h, rows, r) < (batch * heads) * rows
  {
    ContiguousOffset(heads, rows, cols, b, h, r, c);
    AtInBounds(b, batch, heads, h);
    AtInBounds(b * heads + h, batch * heads, rows, r);
    AtInBounds(At(b * heads + h, rows, r), (batch * heads) * rows, cols, c);
  }

  lemma {:induction false} ContiguousIsLayout(batch: nat, heads: nat, rows: nat, cols: nat)
    ensures Addressable(Contiguous(heads, rows, cols), batch, heads, rows, cols, ((batch * heads) * rows) * cols)
    ensures Injective(Contiguous(heads, rows, cols), batch, heads, rows, cols)
  {
    hide Contiguous, Layout.Offset;
    var l := Contiguous(heads, rows, cols);
    forall b, h, r, c | 0 <= b < batch && 0 <= h < heads && 0 <= r < rows && 0 <= c < cols
      ensures 0 <= l.Offset(b, h, r, c) < ((batch * heads) * rows) * cols
    {
      ContiguousInBounds(batch, heads, rows, cols, b, h, r, c);
    }
    forall b, h, r, c, b', h', r', c' |
      && 0 <= b < batch && 0 <= h < heads && 0 <= r < rows && 0 <= c < cols
      && 0 <= b' < batch && 0 <= h' < heads && 0 <= r' < rows && 0 <= c' < cols
      && l.Offset(b, h, r, c) == l.Offset(b', h', r', c')
      ensures b == b' && h == h' && r == r' && c == c'
    {
      ContiguousOffset(heads, rows, cols, b, h, r, c);
      ContiguousOffset(heads, rows, cols, b', h', r', c');
      AtInjective(At(b * heads + h, rows, r), c, At(b' * heads + h', rows, r'), c', cols);
      AtInjective(b * heads + h, r, b' * heads + h', r', rows);
      AtInjective(b, h, b', h', heads);
    }
  }

  /** A contiguous input, quantised slab by slab. */
  function QuantizedTensor(x: seq<real>, batch: nat, heads: nat, rows: nat, cols: nat): Tensor
    requires |x| == (batch * heads) * (rows * cols) && 0 < rows * cols
  {
    Tensor(QuantizeFp8(x, PerSlabScale(x, batch * heads, rows * cols), batch * heads, rows * cols),
        Contiguous(heads, rows, cols), batch, heads, rows, cols)
  }

  lemma {:induction false} SizeOf(batch: nat, heads: nat, rows: nat, cols: nat)
    ensures (batch * heads) * (rows * cols) == ((batch * heads) * rows) * cols
    ensures 0 < rows && 0 < cols ==> 0 < rows * cols
  {
    if 0 < rows && 0 < cols {
      Multiply(1, rows, cols);
    }
  }

  /** Element (r, c) of a dequantised slab is the original element. */
  lemma {:induction false} DequantizedElement(x: seq<real>, batch: nat, heads: nat, rows: nat, cols: nat, bh: nat,
                                              r: nat, c: nat)
    requires |x| == (batch * heads) * (rows * cols) && 0 < rows * cols && bh < batch * heads && r < rows &&
        c < cols && 0 < heads
    ensures Dequantized(QuantizedTensor(x, batch, heads, rows, cols).Slab(bh / heads, bh % heads),
        PerSlabScale(x, batch * heads, rows * cols)[bh])(r, c)
         == View(x, cols)(At(bh, rows, r), c)
  {
    hide QuantizeFp8, PerSlabScale, Scaled, Contiguous, Layout.Offset;
    SizeOf(batch, heads, rows, cols);
    AtSurjective(bh, batch, heads);
    var b, h := bh / heads, bh % heads;
    var j := Contiguous(heads, rows, cols).Offset(b, h, r, c);
    ContiguousOffset(heads, rows, cols, b, h, r, c);
    ContiguousInBounds(batch, heads, rows, cols, b, h, r, c);
    SlabOf(rows, cols, bh, r, c);
    QuantizeRoundTrip(x, batch * heads, rows * cols, j);
    assert QuantizedTensor(x, batch, heads, rows, cols).Load(b, h, r, c) ==
        QuantizedTensor(x, batch, heads, rows, cols).mem[j];
  }

  lemma {:induction false} SlabOf(rows: nat, cols: nat, bh: nat, r: nat, c: nat)
    requires r < rows && c < cols
    ensures At(At(bh, rows, r), cols, c) / (rows * cols) == bh
  {
    var size, x := rows * cols, At(r, cols, c);
    AtInBounds(r, rows, cols, c);
    assert At(At(bh, rows, r), cols, c) == At(bh, size, x);
    var y := At(bh, size, x);
    Multiply(0, bh, size);
    Multiply(bh + 1, bh + 1, size);
    AtSurjective(y, bh + 1, size);
    AtInjective(y / size, y % size, bh, x, size);
  }

  lemma {:induction false} DotCongruent(x: Matrix, i: int, y: Matrix, j: int, x': Matrix, i': int, y': Matrix,
                                        j': int, n: nat)
    requires forall d :: 0 <= d < n ==> x(i, d) == x'(i', d) && y(j, d) == y'(j', d)
    ensures Dot(x, i, y, j, n) == Dot(x', i', y', j', n)
  {
    hide Scaled;
    if n > 0 {
      DotCongruent(x, i, y, j, x', i', y', j', n - 1);
      assert x(i, n - 1) == x'(i', n - 1) && y(j, n - 1) == y'(j', n - 1);
    }
  }

  function LaunchOf(q: seq<real>, k: seq<real>, v: seq<real>, batch: nat, heads: nat, rows: nat, cols: nat,
                    scale: real, causal: bool): Launch
    requires |q| == |k| == |v| == (batch * heads) * (rows * cols) && 0 < rows * cols
  {
    var slabs, size := batch * heads, rows * cols;
    Launch(QuantizedTensor(q, batch, heads, rows, cols), QuantizedTensor(k, batch, heads, rows, cols),
        QuantizedTensor(v, batch, heads, rows, cols),
           PerSlabScale(q, slabs, size), PerSlabScale(k, slabs, size), PerSlabScale(v, slabs, size), scale,
               FP8_E4M3_MAX, causal)
  }

  lemma {:induction false} LaunchIsValid(q: seq<real>, k: seq<real>, v: seq<real>, batch: nat, heads: nat, rows: nat,
                                         cols: nat, scale: real, causal: bool)
    requires |q| == |k| == |v| == (batch * heads) * (rows * cols) && 0 < rows && 0 < cols && 0 < heads &&
        0 < rows * cols
    ensures LaunchOf(q, k, v, batch, heads, rows, cols, scale, causal).Valid()
  {
    hide QuantizeFp8, PerSlabScale, Addressable;
    SizeOf(batch, heads, rows, cols);
    ContiguousIsLayout(batch, heads, rows, cols);
  }

  /** Attention over the dequantised tensors is attention over the inputs. */
  lemma {:induction false} ExpectedIsAttention(e: Exponential, q: seq<real>, k: seq<real>, v: seq<real>, batch: nat,
                                               heads: nat, rows: nat, cols: nat, scale: real, causal: bool,
                                               bh: nat, r: nat, d: nat)
    requires |q| == |k| == |v| == (batch * heads) * (rows * cols) && 0 < rows && 0 < cols && 0 < heads &&
        0 < rows * cols
    requires bh < batch * heads && r < rows && d < cols
    requires 0 <= At(bh, rows, r) && LaunchOf(q, k, v, batch, heads, rows, cols, scale, causal).Valid()
    ensures LaunchOf(q, k, v, batch, heads, rows, cols, scale, causal).Expected(e, bh, r, d)
         == AttentionAt(e, q, At(bh, rows, r), k, v, bh, rows, cols, r, scale, causal, d)
  {
    hide QuantizedTensor, PerSlabScale, Dequantized, Attend, Dot, View, Scaled;
    var g := LaunchOf(q, k, v, batch, heads, rows, cols, scale, causal);
    TensorShape(q, batch, heads, rows, cols);
    TensorShape(k, batch, heads, rows, cols);
    var b, h := bh / heads, bh % heads;
    var dq, dk, dv := Dequantized(g.q.Slab(b, h), g.qs[bh]), Dequantized(g.k.Slab(b, h), g.ks[bh]),
        Dequantized(g.v.Slab(b, h), g.vs[bh]);
    var raw := RawScores(dq, r, dk, 0, cols, scale);
    var direct := RawScores(View(q, cols), At(bh, rows, r), View(k, cols), At(bh, rows, 0), cols, scale);
    KeyZeroAllowed(raw, causal, r, rows);
    KeyZeroAllowed(direct, causal, r, rows);
    forall j | 0 <= j < rows
      ensures raw(j) == direct(j)
    {
      RowElements(q, batch, heads, rows, cols, bh, r);
      RowElements(k, batch, heads, rows, cols, bh, j);
      DotCongruent(dq, r, dk, j, View(q, cols), At(bh, rows, r), View(k, cols), At(bh, rows, 0) + j, cols);
      assert raw(j) == Scaled(Dot(dq, r, dk, 0 + j, cols), scale);
    }
    assert ScoreRow(raw, causal, r, rows) == ScoreRow(direct, causal, r, rows);
    forall j | 0 <= j < rows
      ensures Column(dv, 0, d, rows)[j] == Column(View(v, cols), At(bh, rows, 0), d, rows)[j]
    {
      RowElements(v, batch, heads, rows, cols, bh, j);
    }
    assert Column(dv, 0, d, rows) == Column(View(v, cols), At(bh, rows, 0), d, rows);
  }

  lemma {:induction false} TensorShape(x: seq<real>, batch: nat, heads: nat, rows: nat, cols: nat)
    requires |x| == (batch * heads) * (rows * cols) && 0 < rows * cols
    ensures var t := QuantizedTensor(x, batch, heads, rows, cols);
            t.batch == batch && t.heads == heads && t.rows == rows && t.cols == cols
  {
  }

  lemma {:induction false} RowElements(x: seq<real>, batch: nat, heads: nat, rows: nat, cols: nat, bh: nat, r: nat)
    requires |x| == (batch * heads) * (rows * cols) && 0 < rows * cols && bh < batch * heads && r < rows && 0 < heads
    ensures forall c :: 0 <= c < cols ==>
              Dequantized(QuantizedTensor(x, batch, heads, rows, cols).Slab(bh / heads, bh % heads),
                  PerSlabScale(x, batch * heads, rows * cols)[bh])(r, c)
              == View(x, cols)(At(bh, rows, 0) + r, c)
    ensures At(bh, rows, r) == At(bh, rows, 0) + r
  {
    hide QuantizedTensor, PerSlabScale, Dequantized, View;
    forall c | 0 <= c < cols
      ensures Dequantized(QuantizedTensor(x, batch, heads, rows, cols).Slab(bh / heads, bh % heads),
          PerSlabScale(x, batch * heads, rows * cols)[bh])(r, c)
           == View(x, cols)(At(bh, rows, 0) + r, c)
    {
      DequantizedElement(x, batch, heads, rows, cols, bh, r, c);
    }
  }

  /** fp8_flash_attention on contiguous inputs: for every tile shape and every order of
      the programs, every element of the output is softmax attention; ok tells whether
      the head dim is one of the compiled ones. */
  method FlashAttention(e: Exponential, q: seq<real>, k: seq<real>, v: seq<real>, batch: nat, heads: nat, rows: nat,
                        cols: nat, scale: real, causal: bool,
                        blockM: nat, blockN: nat, order: seq<Pid>) returns (ok: bool, out: array<real>)
    requires |q| == |k| == |v| == ((batch * heads) * rows) * cols && 0 < rows && 0 < heads
    requires 0 < blockM && 0 < blockN && IsGridOrder(order, rows, blockM, batch * heads)
    ensures ok == (cols in {32, 64, 128, 256})
    ensures ok ==> out.Length == |q|
    ensures ok ==> forall b: nat, h: nat, r: nat, c: nat :: b < batch && h < heads && r < rows && c < cols ==>
              OutputAttends(e, q, k, v, heads, rows, cols, scale, causal, out[..], b, h, r, c)
  {
    hide IsGridOrder, OutputAttends, Addressable, Injective, QuantizedTensor, PerSlabScale, Contiguous, GridElement;
    ok := cols in {32, 64, 128, 256};
    if !ok {
      out := new real[0];
      return;
    }
    out := new real[|q|];
    SizeOf(batch, heads, rows, cols);
    TensorShape(q, batch, heads, rows, cols);
    LaunchIsValid(q, k, v, batch, heads, rows, cols, scale, causal);
    ContiguousIsLayout(batch, heads, rows, cols);
    RunGrid(e, LaunchOf(q, k, v, batch, heads, rows, cols, scale, causal), out, Contiguous(heads, rows, cols),
        blockM, blockN, order);
    forall b: nat, h: nat, r: nat, c: nat | b < batch && h < heads && r < rows && c < cols
      ensures OutputAttends(e, q, k, v, heads, rows, cols, scale, causal, out[..], b, h, r, c)
    {
      StoredElement(e, q, k, v, batch, heads, rows, cols, scale, causal, out[..], b, h, r, c);
    }
  }

  lemma {:induction false} StoredElement(e: Exponential, q: seq<real>, k: seq<real>, v: seq<real>, batch: nat,
                                         heads: nat, rows: nat, cols: nat, scale: real, causal: bool,
                                         out: seq<real>, b: nat, h: nat, r: nat, c: nat)
    requires |q| == |k| == |v| == (batch * heads) * (rows * cols) && 0 < rows && 0 < cols && 0 < heads &&
        0 < rows * cols
    requires b < batch && h < heads && r < rows && c < cols
    requires LaunchOf(q, k, v, batch, heads, rows, cols, scale, causal).Valid()
    requires GridElement(e, LaunchOf(q, k, v, batch, heads, rows, cols, scale, causal), out,
        Contiguous(heads, rows, cols), b, h, r, c)
    ensures OutputAttends(e, q, k, v, heads, rows, cols, scale, causal, out, b, h, r, c)
  {
    hide QuantizedTensor, PerSlabScale, AttentionAt, AttentionElement, Launch.Expected, Layout.Offset, Contiguous;
    hide Addressable;
    TensorShape(q, batch, heads, rows, cols);
    ContiguousOffset(heads, rows, cols, b, h, r, c);
    ContiguousInBounds(batch, heads, rows, cols, b, h, r, c);
    ExpectedIsAttention(e, q, k, v, batch, heads, rows, cols, scale, causal, b * heads + h, r, c);
    RowOffset(heads, rows, cols, b, h, r, c);
    AttentionAtIsElement(e, q, k, v, heads, rows, cols, scale, causal, b, h, r, c);
  }
}

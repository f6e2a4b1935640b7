/** The quantisation passes of the AMX INT8 kernel. */
module AmxInt8Quant {
  import opened Amx
  import opened AmxInt8Tiles
  import opened Matrices
  import opened Quantization
  import opened Reals

  /** Magnitude and scale of row r, and the lanes its elements become. */
  function RowMax(a: seq<real>, dim: nat, r: int): (m: real)
    ensures m >= 0.0
  {
    if 0 <= At(r, dim, 0) && At(r, dim, 0) + dim <= |a| then AbsMax(a, At(r, dim, 0), At(r, dim, 0) + dim) else 0.0
  }

  function RowScale(a: seq<real>, dim: nat, r: int): (s: real)
    ensures s > 0.0
  {
    ScaleFor(RowMax(a, dim, r))
  }

  ghost function QuantView(a: seq<real>, dim: nat): IntMatrix {
    (r: int, d: int) => Quantize(View(a, dim)(r, d), RowScale(a, dim, r))
  }

  lemma {:induction false} QuantViewLanes(a: seq<real>, dim: nat)
    ensures LaneMatrix(QuantView(a, dim))
  {
    forall r, d
      ensures IsLane(QuantView(a, dim)(r, d))
    {
      assert QuantView(a, dim)(r, d) == Quantize(View(a, dim)(r, d), RowScale(a, dim, r));
    }
  }

  /** Every quantised row approximates its source, all-zero rows included. */
  lemma {:induction false} RowApproximates(a: seq<real>, dim: nat, r: int, bound: real)
    requires 0 <= At(r, dim, 0) && At(r, dim, 0) + dim <= |a| && RowMax(a, dim, r) <= bound
    ensures Approximates(QuantView(a, dim), r, RowScale(a, dim, r), View(a, dim), bound, dim)
  {
    hide ScaleFor, Quantize, Dequantize, AbsMax;
    AbsMaxIsMaximum(a, At(r, dim, 0), At(r, dim, 0) + dim);
    forall d | 0 <= d < dim
      ensures && Abs(Dequantize(QuantView(a, dim)(r, d), RowScale(a, dim, r)) - View(a, dim)(r, d)) <= bound / 254.0
              && Abs(Dequantize(QuantView(a, dim)(r, d), RowScale(a, dim, r))) <= bound &&
                  Abs(View(a, dim)(r, d)) <= bound
    {
      assert QuantView(a, dim)(r, d) == Quantize(View(a, dim)(r, d), RowScale(a, dim, r));
      assert View(a, dim)(r, d) == a[At(r, dim, d)];
      QuantizeError(View(a, dim)(r, d), RowMax(a, dim, r));
    }
  }

  /** The lanes of a rows x dim buffer are rows r0, r0 + 1, ... of x. */
  ghost predicate HoldsRows(lanes: seq<int>, x: IntMatrix, r0: int, rows: nat, dim: nat) {
    && |lanes| == rows * dim
    && forall i, d :: 0 <= i < rows && 0 <= d < dim ==>
         0 <= At(i, dim, d) < |lanes| && lanes[At(i, dim, d)] == x(r0 + i, d)
  }

  /** Pass 1: the largest magnitude of a range, 16 lanes at a time. */
  method RangeAbsMax(a: seq<real>, off: nat, dim: nat) returns (m: real)
    requires dim % 16 == 0 && off + dim <= |a|
    ensures m == AbsMax(a, off, off + dim)
  {
    m := 0.0;
    assert AbsMax(a, off, off) == 0.0;
    hide AbsMax;
    var d := 0;
    while d < dim
      invariant 0 <= d <= dim && d % 16 == 0
      invariant m == AbsMax(a, off, off + d)
    {
      var local := AbsMax(a, off + d, off + d + 16);
      AbsMaxSplit(a, off, off + d, off + d + 16);
      if local > m {
        m := local;
      }
      d := d + 16;
    }
  }

  /** Pass 2: quantises a range with one scale, 16 lanes at a time. */
  method QuantizeRange(a: seq<real>, off: nat, dim: nat, scale: real, dst: array<int>, at: nat)
    requires dim % 16 == 0 && off + dim <= |a| && at + dim <= dst.Length && scale > 0.0
    modifies dst
    ensures forall x :: 0 <= x < dst.Length
              ==> dst[x] == if at <= x < at + dim then Quantize(a[off + (x - at)], scale) else old(dst[x])
  {
    hide Quantize;
    var d := 0;
    while d < dim
      invariant 0 <= d <= dim && d % 16 == 0
      invariant forall x :: 0 <= x < dst.Length
                  ==> dst[x] == if at <= x < at + d then Quantize(a[off + (x - at)], scale) else old(dst[x])
    {
      var lanes := seq(16, c requires 0 <= c < 16 => Quantize(a[off + d + c], scale));
      assert forall c :: 0 <= c < 16 ==> lanes[c] == Quantize(a[off + d + c], scale);
      StoreLanes(dst, at + d, lanes);
      d := d + 16;
    }
  }

  /** Row i of quantize_rows: scale, then lanes. */
  method QuantizeRow(a: seq<real>, r0: nat, i: nat, rows: nat, dim: nat, dst: array<int>, scales: array<real>)
    requires 0 < dim && dim % 16 == 0 && i < rows && (r0 + rows) * dim <= |a|
    requires dst.Length == rows * dim && scales.Length == rows
    modifies dst, scales
    ensures scales[..] == old(scales[..])[i := RowScale(a, dim, r0 + i)]
    ensures forall i', d :: 0 <= i' < rows && 0 <= d < dim && 0 <= At(i', dim, d) < dst.Length
              ==> dst[At(i', dim, d)] == if i' == i then QuantView(a, dim)(r0 + i, d) else old(dst[At(i', dim, d)])
  {
    hide Quantize, ScaleFor;
    Multiply(0, r0 + i, dim);
    Multiply(r0 + i + 1, r0 + rows, dim);
    Multiply(0, i, dim);
    Multiply(i + 1, rows, dim);
    var off, at := At(r0 + i, dim, 0), At(i, dim, 0);
    var m := RangeAbsMax(a, off, dim);
    var scale := ScaleFor(m);
    scales[i] := scale;
    QuantizeRange(a, off, dim, scale, dst, at);
    forall i', d | 0 <= i' < rows && 0 <= d < dim && 0 <= At(i', dim, d) < dst.Length
      ensures dst[At(i', dim, d)] == if i' == i then QuantView(a, dim)(r0 + i, d) else old(dst[At(i', dim, d)])
    {
      RowRange(i, i', d, dim);
      assert QuantView(a, dim)(r0 + i, d) == Quantize(View(a, dim)(r0 + i, d), RowScale(a, dim, r0 + i));
      assert At(r0 + i, dim, d) == off + d && At(i, dim, d) == at + d;
    }
  }

  /** quantize_rows_bf16_to_int8 and quantize_rows_fp32_to_int8. */
  method QuantizeRows(a: seq<real>, r0: nat, rows: nat, dim: nat, dst: array<int>, scales: array<real>)
    requires 0 < dim && dim % 16 == 0 && (r0 + rows) * dim <= |a|
    requires dst.Length == rows * dim && scales.Length == rows
    modifies dst, scales
    ensures HoldsRows(dst[..], QuantView(a, dim), r0, rows, dim)
    ensures forall i :: 0 <= i < rows ==> scales[i] == RowScale(a, dim, r0 + i)
  {
    hide RowScale, QuantView;
    for i := 0 to rows
      invariant forall i' :: 0 <= i' < i ==> scales[i'] == RowScale(a, dim, r0 + i')
      invariant forall i', d :: 0 <= i' < i && 0 <= d < dim && 0 <= At(i', dim, d) < dst.Length
                  ==> dst[At(i', dim, d)] == QuantView(a, dim)(r0 + i', d)
    {
      QuantizeRow(a, r0, i, rows, dim, dst, scales);
    }
    forall i, d | 0 <= i < rows && 0 <= d < dim
      ensures 0 <= At(i, dim, d) < rows * dim
    {
      AtInBounds(i, rows, dim, d);
    }
  }

  /** The V tile: one scale for all of its rows. */
  method QuantizeTile(a: seq<real>, r0: nat, rows: nat, dim: nat, dst: array<int>) returns (scale: real)
    requires 0 < dim && dim % 16 == 0 && (r0 + rows) * dim <= |a| && dst.Length == rows * dim
    modifies dst
    ensures scale == ScaleFor(BlockMax(a, r0, rows, dim))
    ensures HoldsRows(dst[..], BlockView(a, r0, rows, dim), r0, rows, dim)
  {
    hide Quantize, ScaleFor;
    Multiply(0, r0, dim);
    Multiply(0, rows, dim);
    var m := 0.0;
    for n := 0 to rows
      invariant 0 <= At(r0, dim, 0) <= At(r0 + n, dim, 0) <= |a|
      invariant m == AbsMax(a, At(r0, dim, 0), At(r0 + n, dim, 0))
    {
      Multiply(r0 + n + 1, r0 + rows, dim);
      Multiply(r0, r0 + n, dim);
      var local := RangeAbsMax(a, At(r0 + n, dim, 0), dim);
      AbsMaxSplit(a, At(r0, dim, 0), At(r0 + n, dim, 0), At(r0 + n + 1, dim, 0));
      if local > m {
        m := local;
      }
    }
    scale := ScaleFor(m);
    for n := 0 to rows
      invariant forall i, d :: 0 <= i < n && 0 <= d < dim && 0 <= At(i, dim, d) < dst.Length
                  ==> dst[At(i, dim, d)] == BlockView(a, r0, rows, dim)(r0 + i, d)
    {
      QuantizeBlockRow(a, r0, n, rows, dim, scale, dst);
    }
    forall i, d | 0 <= i < rows && 0 <= d < dim
      ensures 0 <= At(i, dim, d) < rows * dim
    {
      AtInBounds(i, rows, dim, d);
    }
  }

  method QuantizeBlockRow(a: seq<real>, r0: nat, n: nat, rows: nat, dim: nat, scale: real, dst: array<int>)
    requires 0 < dim && dim % 16 == 0 && n < rows && (r0 + rows) * dim <= |a| && dst.Length == rows * dim
    requires scale == ScaleFor(BlockMax(a, r0, rows, dim))
    modifies dst
    ensures forall i, d :: 0 <= i < rows && 0 <= d < dim && 0 <= At(i, dim, d) < dst.Length
              ==> dst[At(i, dim, d)] == if i == n then
                  BlockView(a, r0, rows, dim)(r0 + n, d) else old(dst[At(i, dim, d)])
  {
    hide Quantize, ScaleFor;
    Multiply(0, r0 + n, dim);
    Multiply(r0 + n + 1, r0 + rows, dim);
    Multiply(0, n, dim);
    Multiply(n + 1, rows, dim);
    var off, at := At(r0 + n, dim, 0), At(n, dim, 0);
    QuantizeRange(a, off, dim, scale, dst, at);
    forall i, d | 0 <= i < rows && 0 <= d < dim && 0 <= At(i, dim, d) < dst.Length
      ensures dst[At(i, dim, d)] == if i == n then BlockView(a, r0, rows, dim)(r0 + n, d) else old(dst[At(i, dim, d)])
    {
      RowRange(n, i, d, dim);
      assert BlockView(a, r0, rows, dim)(r0 + n, d) == Quantize(View(a, dim)(r0 + n, d), scale);
      assert At(r0 + n, dim, d) == off + d && At(n, dim, d) == at + d;
    }
  }

  /** Magnitude of rows r0 .. r0 + rows - 1, and the lanes they become with one scale. */
  function BlockMax(a: seq<real>, r0: int, rows: nat, dim: nat): (m: real)
    ensures m >= 0.0
  {
    if 0 <= At(r0, dim, 0) <= At(r0 + rows, dim, 0) <= |a| then AbsMax(a, At(r0, dim, 0), At(r0 + rows, dim, 0))
    else 0.0
  }

  ghost function BlockView(a: seq<real>, r0: int, rows: nat, dim: nat): IntMatrix {
    (r: int, d: int) => Quantize(View(a, dim)(r, d), ScaleFor(BlockMax(a, r0, rows, dim)))
  }
}

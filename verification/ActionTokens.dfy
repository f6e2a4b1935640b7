/** Uniform binning of continuous actions into tokens, and back. Values are exact reals. */
module ActionTokens {
  import opened Rounding

  datatype Result<T> = Ok(value: T) | BadBins(bins: int)

  // ---- one channel -----------------------------------------------------------------------------

  function SafeSpan(low: real, high: real): (span: real)
    ensures span != 0.0
  {
    if high - low == 0.0 then 1.0 else high - low
  }

  function Max(x: real, y: real): real {
    if x >= y then x else y
  }

  function Min(x: real, y: real): real {
    if x <= y then x else y
  }

  /** Saturation; with low above high everything lands on high. */
  function Clip(x: real, low: real, high: real): real {
    Min(Max(x, low), high)
  }

  function Fraction(x: real, low: real, high: real): real {
    (Clip(x, low, high) - low) / SafeSpan(low, high)
  }

  /** Where x falls on the scale from 0 to bins - 1, before rounding. */
  function Position(x: real, low: real, high: real, bins: int): real
    requires bins >= 2
  {
    Fraction(x, low, high) * (bins - 1) as real
  }

  function Encode(x: real, low: real, high: real, bins: int): int
    requires bins >= 2
  {
    var index := RoundHalfEven(Position(x, low, high, bins));
    if index < 0 then 0 else if index > bins - 1 then bins - 1 else index
  }

  function Decode(token: int, low: real, high: real, bins: int): real
    requires bins >= 2
  {
    low + token as real / (bins - 1) as real * (high - low)
  }

  // ---- the unit interval ---------------------------------------------------------------------------

  /** With low < high the fraction is the position of the clipped value; otherwise every value is at
      one end. */
  lemma {:induction false} FractionIsPosition(x: real, low: real, high: real)
    ensures 0.0 <= Fraction(x, low, high) <= 1.0
    ensures low + Fraction(x, low, high) * (high - low) == Clip(x, low, high)
    ensures low == high ==> Fraction(x, low, high) == 0.0
    ensures low > high ==> Fraction(x, low, high) == 1.0
  {
    var f, d := Fraction(x, low, high), high - low;
    if low < high {
      Quotient(Clip(x, low, high) - low, d);
    } else if low > high {
      assert Clip(x, low, high) == high;
      Quotient(d, d);
    }
  }

  lemma {:induction false} Quotient(a: real, d: real)
    requires d != 0.0
    ensures a / d * d == a
    ensures a == d ==> a / d == 1.0
    ensures 0.0 <= a <= d ==> 0.0 <= a / d <= 1.0
  {
  }

  lemma {:induction false} QuotientMonotone(a: real, b: real, d: real)
    requires a <= b && d > 0.0
    ensures a / d <= b / d
  {
    Quotient(a, d);
    Quotient(b, d);
    DivideOut(a / d, b / d, d);
  }

  lemma {:induction false} DivideOut(p: real, q: real, d: real)
    requires d > 0.0 && p * d <= q * d
    ensures p <= q
  {
    if p > q {
      PositiveProduct(p - q, d);
    }
  }

  lemma {:induction false} PositiveProduct(a: real, b: real)
    requires a > 0.0 && b > 0.0
    ensures a * b > 0.0
  {
  }

  lemma {:induction false} FractionMonotone(x: real, y: real, low: real, high: real)
    requires x <= y
    ensures Fraction(x, low, high) <= Fraction(y, low, high)
  {
    if low < high {
      QuotientMonotone(Clip(x, low, high) - low, Clip(y, low, high) - low, high - low);
    } else {
      FractionIsPosition(x, low, high);
      FractionIsPosition(y, low, high);
    }
  }

  lemma {:induction false} Stretch(f: real, n: real)
    requires 0.0 <= f <= 1.0 && n >= 0.0
    ensures 0.0 <= f * n <= n
  {
  }

  lemma {:induction false} StretchMonotone(f: real, g: real, n: real)
    requires f <= g && n >= 0.0
    ensures f * n <= g * n
  {
  }

  lemma {:induction false} PositionInRange(x: real, low: real, high: real, bins: int)
    requires bins >= 2
    ensures 0.0 <= Position(x, low, high, bins) <= (bins - 1) as real
  {
    FractionIsPosition(x, low, high);
    Stretch(Fraction(x, low, high), (bins - 1) as real);
    hide Fraction;
  }

  lemma {:induction false} PositionMonotone(x: real, y: real, low: real, high: real, bins: int)
    requires bins >= 2 && x <= y
    ensures Position(x, low, high, bins) <= Position(y, low, high, bins)
  {
    FractionMonotone(x, y, low, high);
    StretchMonotone(Fraction(x, low, high), Fraction(y, low, high), (bins - 1) as real);
    hide Fraction;
  }

  /** The final clamp never acts: rounding a position stays within the tokens. */
  lemma {:induction false} EncodeInRange(x: real, low: real, high: real, bins: int)
    requires bins >= 2
    ensures 0 <= Encode(x, low, high, bins) <= bins - 1
    ensures Encode(x, low, high, bins) == RoundHalfEven(Position(x, low, high, bins))
  {
    hide Position, RoundHalfEven;
    PositionInRange(x, low, high, bins);
    RoundWithin(Position(x, low, high, bins), 0, bins - 1);
  }

  /** Encoding is monotone, for any two range ends. */
  lemma {:induction false} EncodeMonotone(x: real, y: real, low: real, high: real, bins: int)
    requires bins >= 2 && x <= y
    ensures Encode(x, low, high, bins) <= Encode(y, low, high, bins)
  {
    PositionMonotone(x, y, low, high, bins);
    EncodeInRange(x, low, high, bins);
    EncodeInRange(y, low, high, bins);
    hide Position, RoundHalfEven, Encode;
    RoundMonotone(Position(x, low, high, bins), Position(y, low, high, bins));
  }

  /** Out-of-range actions saturate at the end tokens. */
  lemma {:induction false} EncodeSaturates(x: real, low: real, high: real, bins: int)
    requires bins >= 2 && low < high
    ensures x <= low ==> Encode(x, low, high, bins) == 0
    ensures x >= high ==> Encode(x, low, high, bins) == bins - 1
  {
    var n := (bins - 1) as real;
    EncodeInRange(x, low, high, bins);
    if x <= low {
      assert Fraction(x, low, high) == 0.0 / (high - low) == 0.0;
      NearestIsUnique(0.0 * n, 0);
    } else if x >= high {
      Quotient(high - low, high - low);
      assert Fraction(x, low, high) == 1.0 && 1.0 * n == n;
      NearestIsUnique(n, bins - 1);
    }
  }

  // ---- round trips -------------------------------------------------------------------------------------

  lemma {:induction false} DecodeInside(token: int, low: real, high: real, bins: int)
    requires bins >= 2 && 0 <= token < bins && low < high
    ensures Fraction(Decode(token, low, high, bins), low, high) == token as real / (bins - 1) as real
  {
    var q, d := token as real / (bins - 1) as real, high - low;
    Quotient(token as real, (bins - 1) as real);
    Stretch(q, d);
    assert Clip(low + q * d, low, high) == low + q * d;
    Cancel(q, d);
  }

  lemma {:induction false} Cancel(q: real, d: real)
    requires d != 0.0
    ensures q * d / d == q
  {
  }

  /** The tokens that come back: all valid ones of a proper range, and of a degenerate range the one
      that every action encodes to. */
  predicate Survives(token: int, low: real, high: real, bins: int) {
    if low < high then 0 <= token < bins else token == (if low == high then 0 else bins - 1)
  }

  /** Any integer survives decoding and encoding exactly when it is such a token. */
  lemma {:induction false} TokenRoundTripIff(token: int, low: real, high: real, bins: int)
    requires bins >= 2
    ensures Encode(Decode(token, low, high, bins), low, high, bins) == token <==> Survives(token, low, high, bins)
  {
    var x, n := Decode(token, low, high, bins), (bins - 1) as real;
    EncodeInRange(x, low, high, bins);
    if low < high && 0 <= token < bins {
      DecodeInside(token, low, high, bins);
      Quotient(token as real, n);
      NearestIsUnique(token as real, token);
    } else if low >= high {
      DegenerateEncode(x, low, high, bins);
    }
  }

  lemma {:induction false} DegenerateEncode(x: real, low: real, high: real, bins: int)
    requires bins >= 2 && low >= high
    ensures Encode(x, low, high, bins) == if low == high then 0 else bins - 1
  {
    FractionIsPosition(x, low, high);
    EncodeInRange(x, low, high, bins);
    var n := (bins - 1) as real;
    NearestIsUnique(0.0 * n, 0);
    NearestIsUnique(1.0 * n, bins - 1);
  }

  /** error is to the width d what e is to the n bins. */
  predicate Proportional(error: real, d: real, e: real, n: real) {
    error * n == e * d
  }

  /** At most half of one of bins - 1 parts of a width d, of either sign. */
  predicate WithinHalfBin(error: real, d: real, bins: int) {
    var width := if d >= 0.0 then d else -d;
    -width <= error * (2 * (bins - 1)) as real <= width
  }

  /** In units of one bin over the whole width, the error is the rounding error. */
  lemma {:induction false} ErrorIsRounding(token: int, x: real, low: real, high: real, bins: int)
    requires bins >= 2
    ensures Proportional(Decode(token, low, high, bins) - Clip(x, low, high), high - low,
                         token as real - Position(x, low, high, bins), (bins - 1) as real)
  {
    var n, d, f, q := (bins - 1) as real, high - low, Fraction(x, low, high), token as real / (bins - 1) as real;
    FractionIsPosition(x, low, high);
    Quotient(token as real, n);
    hide Fraction, Clip;
    Factor(q, f, d, n);
  }

  lemma {:induction false} Factor(q: real, f: real, d: real, n: real)
    ensures (q * d - f * d) * n == (q * n - f * n) * d
  {
  }

  lemma {:induction false} HalfWidth(e: real, d: real)
    requires -0.5 <= e <= 0.5
    ensures var width := if d >= 0.0 then d else -d; -width <= 2.0 * (e * d) <= width
  {
  }

  lemma {:induction false} HalfBin(error: real, e: real, d: real, bins: int)
    requires -0.5 <= e <= 0.5 && Proportional(error, d, e, (bins - 1) as real)
    ensures WithinHalfBin(error, d, bins)
  {
    HalfWidth(e, d);
    assert (2 * (bins - 1)) as real == 2.0 * (bins - 1) as real;
    assert error * (2.0 * (bins - 1) as real) == 2.0 * (error * (bins - 1) as real);
  }

  /** y is within half a bin of x, or of the end that x lies beyond; low above high leaves only high. */
  predicate NearClipped(y: real, x: real, low: real, high: real, bins: int) {
    WithinHalfBin(y - (if high < low || high < x then high else if x < low then low else x), high - low, bins)
  }

  lemma {:induction false} ClipMeans(x: real, low: real, high: real)
    ensures Clip(x, low, high) == if high < low || high < x then high else if x < low then low else x
  {
  }

  /** Decoding an encoded action gives an action within the range back to within half a bin, and otherwise
      the end of the range that it lies beyond, for any two range ends. */
  lemma {:induction false} ActionRoundTrip(x: real, low: real, high: real, bins: int)
    requires bins >= 2
    ensures NearClipped(Decode(Encode(x, low, high, bins), low, high, bins), x, low, high, bins)
  {
    var token := Encode(x, low, high, bins);
    EncodeInRange(x, low, high, bins);
    ErrorIsRounding(token, x, low, high, bins);
    var e := token as real - Position(x, low, high, bins);
    assert -0.5 <= e <= 0.5;
    ClipMeans(x, low, high);
    hide Encode, Decode, Clip, Position, RoundHalfEven, Proportional, WithinHalfBin;
    HalfBin(Decode(token, low, high, bins) - Clip(x, low, high), e, high - low, bins);
  }

  /** Encoding after one round trip changes nothing more, degenerate ranges included. */
  lemma {:induction false} EncodeIsStable(x: real, low: real, high: real, bins: int)
    requires bins >= 2
    ensures var token := Encode(x, low, high, bins);
            Encode(Decode(token, low, high, bins), low, high, bins) == token
  {
    EncodeInRange(x, low, high, bins);
    TokenRoundTripIff(Encode(x, low, high, bins), low, high, bins);
    if low >= high {
      DegenerateEncode(x, low, high, bins);
    }
  }

  /** Tokens decode to the uniform grid over the range: the end tokens to its ends, and consecutive tokens
      one of bins - 1 equal parts apart. */
  lemma {:induction false} DecodeGrid(token: int, low: real, high: real, bins: int)
    requires bins >= 2
    ensures Decode(0, low, high, bins) == low && Decode(bins - 1, low, high, bins) == high
    ensures (Decode(token + 1, low, high, bins) - Decode(token, low, high, bins)) * (bins - 1) as real == high - low
  {
    var n, d := (bins - 1) as real, high - low;
    Quotient(n, n);
    Quotient(0.0, n);
    Cancel(0.0, n);
    Quotient(token as real, n);
    Quotient((token + 1) as real, n);
    Factor((token + 1) as real / n, token as real / n, d, n);
  }

  /** A zero-width channel decodes every token to low. */
  lemma {:induction false} ConstantChannel(token: int, low: real, bins: int)
    requires bins >= 2
    ensures Decode(token, low, low, bins) == low
  {
    assert token as real / (bins - 1) as real * 0.0 == 0.0;
  }

  // ---- batches: rows of channels, ranges per channel -------------------------------------------------------

  /** Every row has one value per channel. */
  predicate Shaped<T>(rows: seq<seq<T>>, channels: nat) {
    forall r :: 0 <= r < |rows| ==> |rows[r]| == channels
  }

  function EncodeRow(row: seq<real>, low: seq<real>, high: seq<real>, bins: int): (tokens: seq<int>)
    requires bins >= 2 && |row| == |low| == |high|
    ensures |tokens| == |row|
    ensures forall k :: 0 <= k < |row| ==> tokens[k] == Encode(row[k], low[k], high[k], bins)
  {
    seq(|row|, k requires 0 <= k < |row| => Encode(row[k], low[k], high[k], bins))
  }

  function DecodeRow(tokens: seq<int>, low: seq<real>, high: seq<real>, bins: int): (row: seq<real>)
    requires bins >= 2 && |tokens| == |low| == |high|
    ensures |row| == |tokens|
    ensures forall k :: 0 <= k < |row| ==> row[k] == Decode(tokens[k], low[k], high[k], bins)
  {
    seq(|tokens|, k requires 0 <= k < |tokens| => Decode(tokens[k], low[k], high[k], bins))
  }

  function Discretize(actions: seq<seq<real>>, low: seq<real>, high: seq<real>, bins: int): Result<seq<seq<int>>>
    requires |low| == |high| && Shaped(actions, |low|)
  {
    if bins < 2 then BadBins(bins)
    else Ok(seq(|actions|, r requires 0 <= r < |actions| => EncodeRow(actions[r], low, high, bins)))
  }

  function Undiscretize(tokens: seq<seq<int>>, low: seq<real>, high: seq<real>, bins: int): Result<seq<seq<real>>>
    requires |low| == |high| && Shaped(tokens, |low|)
  {
    if bins < 2 then BadBins(bins)
    else Ok(seq(|tokens|, r requires 0 <= r < |tokens| => DecodeRow(tokens[r], low, high, bins)))
  }

  /** Fewer than two bins is an error of both directions. Otherwise the batch round trip keeps the
      shape and brings each value back to within half a bin of its clipped value, and tokenizing the
      result again gives the same tokens. */
  lemma {:induction false} BatchRoundTrip(actions: seq<seq<real>>, low: seq<real>, high: seq<real>, bins: int)
    requires |low| == |high| && Shaped(actions, |low|)
    ensures bins < 2 <==> Discretize(actions, low, high, bins) == BadBins(bins)
    ensures bins >= 2 ==>
              var tokens := Discretize(actions, low, high, bins).value;
              && Shaped(tokens, |low|)
              && var back := Undiscretize(tokens, low, high, bins).value;
                 && Shaped(back, |low|) && |back| == |actions|
                 && Discretize(back, low, high, bins) == Ok(tokens)
                 && forall r, k :: 0 <= r < |back| && 0 <= k < |low| ==>
                     NearClipped(back[r][k], actions[r][k], low[k], high[k], bins)
  {
    if bins >= 2 {
      var tokens := Discretize(actions, low, high, bins).value;
      assert forall r :: 0 <= r < |actions| ==> tokens[r] == EncodeRow(actions[r], low, high, bins);
      var back := Undiscretize(tokens, low, high, bins).value;
      assert forall r :: 0 <= r < |actions| ==> back[r] == DecodeRow(tokens[r], low, high, bins);
      var again := Discretize(back, low, high, bins).value;
      hide Encode, Decode;
      forall r | 0 <= r < |actions|
        ensures again[r] == tokens[r]
        ensures forall k :: 0 <= k < |low| ==> NearClipped(back[r][k], actions[r][k], low[k], high[k], bins)
      {
        RowRoundTrip(actions[r], low, high, bins);
      }
      assert again == tokens;
    }
  }

  lemma {:induction false} RowRoundTrip(row: seq<real>, low: seq<real>, high: seq<real>, bins: int)
    requires bins >= 2 && |row| == |low| == |high|
    ensures var tokens := EncodeRow(row, low, high, bins);
            var back := DecodeRow(tokens, low, high, bins);
            && EncodeRow(back, low, high, bins) == tokens
            && forall k :: 0 <= k < |row| ==> NearClipped(back[k], row[k], low[k], high[k], bins)
  {
    var tokens := EncodeRow(row, low, high, bins);
    var back := DecodeRow(tokens, low, high, bins);
    forall k | 0 <= k < |row|
      ensures EncodeRow(back, low, high, bins)[k] == tokens[k] && NearClipped(back[k], row[k], low[k], high[k], bins)
    {
      EncodeIsStable(row[k], low[k], high[k], bins);
      ActionRoundTrip(row[k], low[k], high[k], bins);
      hide Encode, Decode, NearClipped;
    }
  }

  /** A row of integers comes back exactly when each of its channels does. */
  lemma {:induction false} TokensRoundTrip(tokens: seq<int>, low: seq<real>, high: seq<real>, bins: int)
    requires bins >= 2 && |tokens| == |low| == |high|
    ensures EncodeRow(DecodeRow(tokens, low, high, bins), low, high, bins) == tokens
       <==> forall k :: 0 <= k < |tokens| ==> Survives(tokens[k], low[k], high[k], bins)
  {
    var again := EncodeRow(DecodeRow(tokens, low, high, bins), low, high, bins);
    forall k | 0 <= k < |tokens|
      ensures again[k] == tokens[k] <==> Survives(tokens[k], low[k], high[k], bins)
    {
      TokenRoundTripIff(tokens[k], low[k], high[k], bins);
    }
  }
}

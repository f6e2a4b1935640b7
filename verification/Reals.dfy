/** Exact real arithmetic shared by the kernels. */
module Reals {

  /** A product, named so that proofs can treat it as a unit. */
  function Scaled(f: real, x: real): real {
    f * x
  }

  lemma {:induction false} ScaledMonotone(f: real, x: real, y: real)
    requires f >= 0.0 && x <= y
    ensures Scaled(f, x) <= Scaled(f, y)
  {
  }

  lemma {:induction false} ScaledDifference(f: real, x: real, y: real)
    ensures Scaled(f, x) - Scaled(f, y) == Scaled(f, x - y)
  {
  }

  lemma {:induction false} ScaledSum(f: real, x: real, y: real)
    ensures Scaled(f, x + y) == Scaled(f, x) + Scaled(f, y)
  {
  }
}

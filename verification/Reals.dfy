/** Real arithmetic shared by the quantiser, the estimator and the allocator. */
module Reals {

  function Abs(x: real): real { if x < 0.0 then -x else x }

  function Min(x: real, y: real): real { if y < x then y else x }

  function Max(x: real, y: real): real { if x < y then y else x }

  lemma {:induction false} NonNegative(x: real, y: real)
    requires x >= 0.0 && y >= 0.0
    ensures x * y >= 0.0
  {
  }

  /** Comparing a quotient is comparing with a multiple. */
  lemma {:induction false} Quotient(x: real, d: real, c: real)
    requires d > 0.0
    ensures x / d > c <==> x > c * d
  {
    var q := x / d;
    assert x == q * d;
    if q > c {
      assert (q - c) * d > 0.0;
      assert (q - c) * d == q * d - c * d;
    } else {
      NonNegative(c - q, d);
      assert (c - q) * d == c * d - q * d;
    }
  }
}

/** Exact-real arithmetic used by the quantiser: round half to even, clamp, and scalar codes. */
module Rounding {
  import opened Reals

  /** torch.round: to the nearest integer, halves to the even neighbour. */
  function Round(x: real): int {
    var f := x.Floor;
    var d := x - f as real;
    if d < 0.5 then f
    else if d > 0.5 then f + 1
    else if f % 2 == 0 then f
    else f + 1
  }

  function Clamp(x: int, lo: int, hi: int): int
    requires lo <= hi
  {
    if x < lo then lo else if x > hi then hi else x
  }

  lemma {:induction false} RoundNearest(x: real)
    ensures Abs(Round(x) as real - x) <= 0.5
  {
  }

  lemma {:induction false} RoundMonotone(x: real, y: real)
    requires x <= y
    ensures Round(x) <= Round(y)
  {
    if x.Floor == y.Floor {
    } else {
      assert x.Floor < y.Floor;
    }
  }

  lemma {:induction false} RoundInt(n: int)
    ensures Round(n as real) == n
  {
  }

  /** Halfway between two integers the even one is taken. */
  lemma {:induction false} HalvesToEven(n: int)
    ensures Round(n as real + 0.5) % 2 == 0
  {
    assert (n as real + 0.5).Floor == n;
  }

  /** Rounding and then clamping to 0..n loses at most one half anywhere in [-1/2, n + 1/2]. */
  lemma {:induction false} ClampedRound(x: real, n: nat)
    requires -0.5 <= x <= n as real + 0.5
    ensures Abs(Clamp(Round(x), 0, n) as real - x) <= 0.5
  {
    RoundNearest(x);
  }
}

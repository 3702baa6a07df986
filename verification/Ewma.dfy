/** Exponentially weighted moving averages, plain and with a cap on each step (backend/ewma.py). */
module Ewma {
  import opened Options
  import opened Reals

  function Blend(alpha: real, x: real, v: real): real {
    alpha * x + (1.0 - alpha) * v
  }

  /** One capped step from `v` toward sample `x`. */
  function Capped(alpha: real, maxChange: real, x: real, v: real): real {
    var raw := Blend(alpha, x, v);
    if Abs(raw - v) > maxChange * Abs(v) then
      v + (if raw > v then 1.0 else -1.0) * maxChange * Abs(v)
    else raw
  }

  /** The value after a non-empty run of capped updates; the first sample seeds it. */
  function CappedRun(alpha: real, maxChange: real, xs: seq<real>): real
    requires xs != []
  {
    if |xs| == 1 then xs[0]
    else Capped(alpha, maxChange, xs[|xs| - 1], CappedRun(alpha, maxChange, xs[..|xs| - 1]))
  }

  class EWMA {
    const alpha: real
    var value: Option<real>

    constructor (alpha: real)
      ensures this.alpha == alpha && value == None
    {
      this.alpha, value := alpha, None;
    }

    method Update(x: real) returns (v: real)
      modifies this
      ensures v == (if old(value).None? then x else Blend(alpha, x, old(value).value)) && value == Some(v)
    {
      if value.None? {
        value := Some(x);
      } else {
        value := Some(alpha * x + (1.0 - alpha) * value.value);
      }
      return value.value;
    }

    method UpdateClamped(x: real, maxChange: real) returns (v: real)
      modifies this
      ensures v == (if old(value).None? then x else Capped(alpha, maxChange, x, old(value).value)) && value == Some(v)
    {
      if value.None? {
        value := Some(x);
        return x;
      }
      var cur := value.value;
      var raw := alpha * x + (1.0 - alpha) * cur;
      var delta := Abs(raw - cur);
      if delta > maxChange * Abs(cur) {
        var direction := if raw > cur then 1.0 else -1.0;
        value := Some(cur + direction * maxChange * Abs(cur));
      } else {
        value := Some(raw);
      }
      return value.value;
    }

    method Reset()
      modifies this
      ensures value == None
    {
      value := None;
    }
  }

  /** The example in the source's documentation, which announces 86 million, comes out at 94 million. */
  method DocumentedExample() returns (v: real)
    ensures v == 94000000.0
  {
    var ewma := new EWMA(0.3);
    v := ewma.Update(100000000.0);
    v := ewma.Update(80000000.0);
  }

  // ---- One step ----

  lemma {:induction false} Product(a: real, x: real)
    ensures 0.0 <= a <= 1.0 && x >= 0.0 ==> 0.0 <= a * x <= x
  {
    if 0.0 <= a <= 1.0 && x >= 0.0 {
      NonNegative(a, x);
      NonNegative(1.0 - a, x);
      assert (1.0 - a) * x == x - a * x;
    }
  }

  /** An update is a fraction of the way from the old value to the sample. */
  lemma {:induction false} BlendAsStep(alpha: real, x: real, v: real) returns (d: real)
    requires 0.0 <= alpha <= 1.0
    ensures Blend(alpha, x, v) == v + d
    ensures x >= v ==> 0.0 <= d <= x - v
    ensures x <= v ==> x - v <= d <= 0.0
  {
    BlendIdentity(alpha, x, v);
    if x >= v {
      d := Fraction(alpha, x - v);
    } else {
      d := Fraction(alpha, v - x);
      d := -d;
    }
  }

  lemma {:induction false} BlendIdentity(alpha: real, x: real, v: real)
    ensures Blend(alpha, x, v) == v + alpha * (x - v)
    ensures Blend(alpha, x, v) == v - alpha * (v - x)
  {
  }

  lemma {:induction false} Fraction(a: real, x: real) returns (p: real)
    requires 0.0 <= a <= 1.0 && x >= 0.0
    ensures p == a * x && 0.0 <= p <= x
  {
    p := a * x;
    Product(a, x);
  }

  /** A plain update stays between the sample and the old value. */
  lemma {:induction false} BlendBetween(alpha: real, x: real, v: real)
    requires 0.0 <= alpha <= 1.0
    ensures x <= v ==> x <= Blend(alpha, x, v) <= v
    ensures v <= x ==> v <= Blend(alpha, x, v) <= x
  {
    var d := BlendAsStep(alpha, x, v);
  }

  /** A capped step is the plain update, cut off `maxChange` of the old value above and below it. */
  lemma {:induction false} CappedMeaning(alpha: real, maxChange: real, x: real, v: real)
    requires v >= 0.0 && maxChange >= 0.0
    ensures var raw, b, r := Blend(alpha, x, v), maxChange * v, Capped(alpha, maxChange, x, v);
            b >= 0.0 && r == if raw > v + b then v + b else if raw < v - b then v - b else raw
  {
    NonNegative(maxChange, v);
    assert -1.0 * maxChange * v == -(maxChange * v);
  }

  /** Each step moves the value by at most the cap, toward the sample, and keeps it positive. */
  lemma {:induction false} CappedStep(alpha: real, maxChange: real, x: real, v: real)
    requires 0.0 <= alpha <= 1.0 && 0.0 <= maxChange < 1.0 && x > 0.0 && v > 0.0
    ensures var r := Capped(alpha, maxChange, x, v);
            && Abs(r - v) <= maxChange * v && r > 0.0
            && (x <= v ==> x <= r <= v) && (v <= x ==> v <= r <= x)
  {
    CappedMeaning(alpha, maxChange, x, v);
    BlendBetween(alpha, x, v);
  }

  lemma {:induction false} BlendMonotone(alpha: real, x: real, y: real, v: real, w: real)
    requires 0.0 <= alpha <= 1.0 && x <= y && v <= w
    ensures Blend(alpha, x, v) <= Blend(alpha, y, w)
  {
    NonNegative(alpha, y - x);
    NonNegative(1.0 - alpha, w - v);
    assert alpha * (y - x) == alpha * y - alpha * x;
    assert (1.0 - alpha) * (w - v) == (1.0 - alpha) * w - (1.0 - alpha) * v;
  }

  /** Larger sample and larger old value give a larger new value. */
  lemma {:induction false} CappedMonotone(alpha: real, maxChange: real, x: real, y: real, v: real, w: real)
    requires 0.0 <= alpha <= 1.0 && 0.0 <= maxChange < 1.0 && x <= y && 0.0 <= v <= w
    ensures Capped(alpha, maxChange, x, v) <= Capped(alpha, maxChange, y, w)
  {
    CappedMeaning(alpha, maxChange, x, v);
    CappedMeaning(alpha, maxChange, y, w);
    BlendMonotone(alpha, x, y, v, w);
    NonNegative(maxChange, w - v);
    NonNegative(1.0 - maxChange, w - v);
    assert maxChange * (w - v) == maxChange * w - maxChange * v;
    assert (1.0 - maxChange) * (w - v) == (w - v) - maxChange * (w - v);
  }

  // ---- Whole runs ----

  ghost predicate Positive(xs: seq<real>) {
    forall i :: 0 <= i < |xs| ==> xs[i] > 0.0
  }

  /** The value always lies between the smallest and the largest sample seen. */
  lemma {:induction false} RunWithinRange(alpha: real, maxChange: real, xs: seq<real>, lo: real, hi: real)
    requires 0.0 <= alpha <= 1.0 && 0.0 <= maxChange < 1.0 && xs != [] && Positive(xs)
    requires forall i :: 0 <= i < |xs| ==> lo <= xs[i] <= hi
    ensures lo <= CappedRun(alpha, maxChange, xs) <= hi && CappedRun(alpha, maxChange, xs) > 0.0
  {
    if |xs| > 1 {
      RunWithinRange(alpha, maxChange, xs[..|xs| - 1], lo, hi);
      CappedStep(alpha, maxChange, xs[|xs| - 1], CappedRun(alpha, maxChange, xs[..|xs| - 1]));
    }
  }

  /** A stream that is larger sample by sample gives larger values throughout. */
  lemma {:induction false} RunMonotone(alpha: real, maxChange: real, xs: seq<real>, ys: seq<real>)
    requires 0.0 <= alpha <= 1.0 && 0.0 <= maxChange < 1.0 && xs != [] && |xs| == |ys| && Positive(xs)
    requires forall i :: 0 <= i < |xs| ==> xs[i] <= ys[i]
    ensures 0.0 < CappedRun(alpha, maxChange, xs) <= CappedRun(alpha, maxChange, ys)
  {
    if |xs| > 1 {
      var n := |xs| - 1;
      RunMonotone(alpha, maxChange, xs[..n], ys[..n]);
      CappedStep(alpha, maxChange, xs[n], CappedRun(alpha, maxChange, xs[..n]));
      CappedMonotone(alpha, maxChange, xs[n], ys[n],
                     CappedRun(alpha, maxChange, xs[..n]), CappedRun(alpha, maxChange, ys[..n]));
    }
  }

  lemma {:induction false} RunPositive(alpha: real, maxChange: real, xs: seq<real>)
    requires 0.0 <= alpha <= 1.0 && 0.0 <= maxChange < 1.0 && xs != [] && Positive(xs)
    ensures CappedRun(alpha, maxChange, xs) > 0.0
  {
    if |xs| > 1 {
      RunPositive(alpha, maxChange, xs[..|xs| - 1]);
      CappedStep(alpha, maxChange, xs[|xs| - 1], CappedRun(alpha, maxChange, xs[..|xs| - 1]));
    }
  }

  /** Consecutive values of a run differ by at most the cap. */
  lemma {:induction false} RunStepBound(alpha: real, maxChange: real, xs: seq<real>)
    requires 0.0 <= alpha <= 1.0 && 0.0 <= maxChange < 1.0 && |xs| >= 2 && Positive(xs)
    ensures Near(maxChange, CappedRun(alpha, maxChange, xs[..|xs| - 1]), CappedRun(alpha, maxChange, xs))
  {
    RunPositive(alpha, maxChange, xs[..|xs| - 1]);
    OneNear(alpha, maxChange, xs[|xs| - 1], CappedRun(alpha, maxChange, xs[..|xs| - 1]));
  }

  /** `after` is within `maxChange` of `before`, relative to `before`. */
  ghost predicate Near(maxChange: real, before: real, after: real) {
    Abs(after - before) <= maxChange * before
  }

  lemma {:induction false} OneNear(alpha: real, maxChange: real, x: real, v: real)
    requires 0.0 <= alpha <= 1.0 && 0.0 <= maxChange < 1.0 && x > 0.0 && v > 0.0
    ensures Near(maxChange, v, Capped(alpha, maxChange, x, v))
  {
    CappedStep(alpha, maxChange, x, v);
  }
}

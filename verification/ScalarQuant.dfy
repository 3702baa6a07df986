/** One number at a time: scale, zero point, code and reconstructed value (backend/adaptive_quant.py). */
module ScalarQuant {
  import opened Reals
  import opened Rounding

  const TINY: real := 0.0000000001

  // ---- Symmetric INT8 ----

  function SymScale(absMax: real): (s: real)
    ensures s > 0.0
  {
    var s := absMax / 127.0;
    if s < TINY then 1.0 else s
  }

  function SymCode(f: real, scale: real): (c: int)
    requires scale > 0.0
    ensures -128 <= c <= 127
  {
    Clamp(Round(f / scale), -128, 127)
  }

  // ---- Asymmetric INT4 / INT2 with top code `n` ----

  function AsymScale(lo: real, hi: real, n: nat): (s: real)
    requires n > 0
    ensures s > 0.0
  {
    Max((hi - lo) / n as real, TINY)
  }

  function AsymZero(lo: real, scale: real, n: nat): (z: int)
    requires scale > 0.0
    ensures 0 <= z <= n
  {
    Clamp(Round(-lo / scale), 0, n)
  }

  function AsymCode(f: real, scale: real, zero: int, n: nat): (c: int)
    requires scale > 0.0
    ensures 0 <= c <= n
  {
    Clamp(Round(f / scale + zero as real), 0, n)
  }

  // ---- Division by a positive scale ----

  lemma {:induction false} MulCancel(x: real, y: real, s: real)
    requires s > 0.0 && x * s == y * s
    ensures x == y
  {
    assert (x - y) * s == 0.0;
  }

  lemma {:induction false} DivLe(x: real, y: real, s: real)
    requires s > 0.0
    ensures x <= y * s <==> x / s <= y
  {
    var q := x / s;
    assert q * s == x;
    if q <= y { assert (y - q) * s >= 0.0; } else { assert (q - y) * s > 0.0; }
  }

  lemma {:induction false} DivGe(x: real, y: real, s: real)
    requires s > 0.0
    ensures x >= y * s <==> x / s >= y
  {
    var q := x / s;
    assert q * s == x;
    if q >= y { assert (q - y) * s >= 0.0; } else { assert (y - q) * s > 0.0; }
  }

  /** An error of at most half a code is an error of at most half a scale. */
  lemma {:induction false} HalfStep(c: real, u: real, s: real)
    requires s > 0.0 && Abs(c - u) <= 0.5
    ensures Abs(c * s - u * s) <= s / 2.0
  {
    assert c * s - u * s == (c - u) * s;
    NonNegative(0.5 - (c - u), s);
    NonNegative(0.5 + (c - u), s);
    assert (0.5 - (c - u)) * s == 0.5 * s - (c - u) * s;
    assert (0.5 + (c - u)) * s == 0.5 * s + (c - u) * s;
  }

  // ---- INT8 ----

  /** Every value within the tensor's range is recovered to within half a scale, from a code in -127..127. */
  lemma {:induction false} SymError(f: real, absMax: real)
    requires Abs(f) <= absMax
    ensures var s := SymScale(absMax); var c := SymCode(f, s);
            -127 <= c <= 127 && Abs(c as real * s - f) <= s / 2.0
  {
    var s := SymScale(absMax);
    assert absMax <= 127.0 * s;
    DivLe(f, 127.0, s);
    DivGe(f, -127.0, s);
    var u := f / s;
    assert u * s == f;
    RoundNearest(u);
    RoundMonotone(u, 127.0);
    RoundMonotone(-127.0, u);
    RoundInt(127);
    RoundInt(-127);
    HalfStep(SymCode(f, s) as real, u, s);
  }

  /** The extreme value gets an extreme code, unless the whole tensor is below the threshold. */
  lemma {:induction false} SymExtreme(f: real, absMax: real)
    requires Abs(f) == absMax
    ensures var s := SymScale(absMax); var c := SymCode(f, s);
            if absMax / 127.0 < TINY then c == 0 && s == 1.0 else Abs(c as real) == 127.0 && s == absMax / 127.0
  {
    var s := SymScale(absMax);
    var u := f / s;
    assert u * s == f;
    if absMax / 127.0 < TINY {
      assert u == f;
    } else {
      assert absMax == 127.0 * s;
      if f >= 0.0 {
        assert f == 127.0 * s;
        MulCancel(u, 127.0, s);
        RoundInt(127);
      } else {
        assert f == -127.0 * s;
        MulCancel(u, -127.0, s);
        RoundInt(-127);
      }
    }
  }

  /** Coding an exact multiple of the scale returns the multiplier. */
  lemma {:induction false} SymCodeOfMultiple(c: int, s: real)
    requires s > 0.0 && -128 <= c <= 127
    ensures SymCode(c as real * s, s) == c
  {
    var u := c as real * s / s;
    assert u * s == c as real * s;
    MulCancel(u, c as real, s);
    RoundInt(c);
  }

  // ---- INT4 / INT2 ----

  ghost predicate WithinHalf(f: real, scale: real, zero: int, n: nat)
    requires scale > 0.0
  {
    Abs((AsymCode(f, scale, zero, n) as real - zero as real) * scale - f) <= scale / 2.0
  }

  /** The range of a slice reaches at most n + 1/2 steps from zero on either side. */
  ghost predicate ReachesZero(lo: real, hi: real, n: nat)
    requires n > 0
  {
    var s := AsymScale(lo, hi, n);
    -(n as real + 0.5) * s <= lo && hi <= (n as real + 0.5) * s
  }

  lemma {:induction false} SpanLe(lo: real, hi: real, n: nat)
    requires n > 0 && lo <= hi
    ensures hi - lo <= n as real * AsymScale(lo, hi, n)
  {
    var m := n as real;
    var q := (hi - lo) / m;
    assert q * m == hi - lo;
    var s := AsymScale(lo, hi, n);
    assert (s - q) * m >= 0.0;
  }

  /** Before clamping, the code of a value in range lies in [-1/2, n + 1/2].  Here a, u, b are lo, f, hi in steps. */
  lemma {:induction false} UnitRange(a: real, u: real, b: real, n: nat)
    requires n > 0 && a <= u <= b && b - a <= n as real
    requires -(n as real + 0.5) <= a && b <= n as real + 0.5
    ensures var z := Clamp(Round(-a), 0, n) as real; -0.5 <= u + z <= n as real + 0.5
  {
    RoundNearest(-a);
    RoundInt(n);
    RoundInt(0);
    if -a <= 0.0 {
      RoundMonotone(-a, 0.0);
    } else {
      RoundMonotone(0.0, -a);
      if -a <= n as real { RoundMonotone(-a, n as real); } else { RoundMonotone(n as real, -a); }
    }
  }

  lemma {:induction false} SpanInSteps(lo: real, hi: real, m: real, s: real)
    requires s > 0.0 && hi - lo <= m * s
    ensures hi / s - lo / s <= m
  {
    var a, b := lo / s, hi / s;
    assert a * s == lo && b * s == hi;
    var d := m - (b - a);
    assert d * s == m * s - (hi - lo);
    if d < 0.0 { MulNegative(d, s); }
  }

  lemma {:induction false} MulNegative(x: real, y: real)
    requires x < 0.0 && y > 0.0
    ensures x * y < 0.0
  {
  }

  lemma {:induction false} NegDiv(x: real, s: real)
    requires s > 0.0
    ensures -x / s == -(x / s)
  {
    var q := x / s;
    assert q * s == x;
    assert -q * s == -x;
    MulCancel(-x / s, -q, s);
  }

  /** The slice measured in steps of its scale. */
  lemma {:induction false} InSteps(f: real, lo: real, hi: real, n: nat) returns (a: real, u: real, b: real)
    requires n > 0 && lo <= f <= hi && ReachesZero(lo, hi, n)
    ensures var s := AsymScale(lo, hi, n);
            a == lo / s && u == f / s && b == hi / s && AsymZero(lo, s, n) == Clamp(Round(-a), 0, n)
    ensures a <= u <= b && b - a <= n as real
    ensures -(n as real + 0.5) <= a && b <= n as real + 0.5
  {
    var s := AsymScale(lo, hi, n);
    var m := n as real;
    a, u, b := lo / s, f / s, hi / s;
    DivMonotone(lo, f, s);
    DivMonotone(f, hi, s);
    SpanLe(lo, hi, n);
    SpanInSteps(lo, hi, m, s);
    DivGe(lo, -(m + 0.5), s);
    DivLe(hi, m + 0.5, s);
    NegDiv(lo, s);
  }

  lemma {:induction false} DivMonotone(x: real, y: real, s: real)
    requires s > 0.0 && x <= y
    ensures x / s <= y / s
  {
    assert y / s * s == y;
    DivLe(x, y / s, s);
  }

  lemma {:induction false} CodeNear(f: real, u: real, s: real, z: int, n: nat)
    requires s > 0.0 && u == f / s
    requires -0.5 <= u + z as real <= n as real + 0.5
    ensures WithinHalf(f, s, z, n)
  {
    var c := AsymCode(f, s, z, n);
    ClampedRound(u + z as real, n);
    assert u * s == f;
    HalfStep(c as real - z as real, u, s);
  }

  lemma {:induction false} AsymGood(f: real, lo: real, hi: real, n: nat)
    requires n > 0 && lo <= f <= hi && ReachesZero(lo, hi, n)
    ensures var s := AsymScale(lo, hi, n); WithinHalf(f, s, AsymZero(lo, s, n), n)
  {
    var s := AsymScale(lo, hi, n);
    var a, u, b := InSteps(f, lo, hi, n);
    UnitRange(a, u, b, n);
    CodeNear(f, u, s, AsymZero(lo, s, n), n);
  }

  lemma {:induction false} AsymBadHigh(lo: real, hi: real, n: nat)
    requires n > 0 && lo <= hi && hi > (n as real + 0.5) * AsymScale(lo, hi, n)
    ensures var s := AsymScale(lo, hi, n); !WithinHalf(hi, s, AsymZero(lo, s, n), n)
  {
    var s := AsymScale(lo, hi, n);
    SpanLe(lo, hi, n);
    assert (n as real + 0.5) * s == n as real * s + 0.5 * s;
    assert lo > 0.0;
    DivLe(-lo, 0.0, s);
    RoundMonotone(-lo / s, 0.0);
    RoundInt(0);
    var z := AsymZero(lo, s, n);
    assert z == 0;
    TooFar(AsymCode(hi, s, z, n) as real, n as real, s, hi);
  }

  lemma {:induction false} TooFar(c: real, n: real, s: real, hi: real)
    requires s > 0.0 && c <= n && hi > (n + 0.5) * s
    ensures hi - (c - 0.0) * s > s / 2.0
  {
    NonNegative(n - c, s);
    assert (n - c) * s == n * s - c * s;
    assert (n + 0.5) * s == n * s + 0.5 * s;
  }

  lemma {:induction false} AsymBadLow(lo: real, hi: real, n: nat)
    requires n > 0 && lo <= hi && lo < -(n as real + 0.5) * AsymScale(lo, hi, n)
    ensures var s := AsymScale(lo, hi, n); !WithinHalf(lo, s, AsymZero(lo, s, n), n)
  {
    var s := AsymScale(lo, hi, n);
    var m := n as real;
    assert -(m + 0.5) * s == -m * s - 0.5 * s;
    assert -lo >= m * s;
    DivGe(-lo, m, s);
    RoundMonotone(m, -lo / s);
    RoundInt(n);
    var z := AsymZero(lo, s, n);
    assert z == n;
    var c := AsymCode(lo, s, z, n);
    assert c as real * s >= 0.0;
    assert (c as real - z as real) * s == c as real * s - m * s;
  }

  /** Both end points of a slice survive to within half a scale exactly when the range reaches near zero. */
  lemma {:induction false} AsymExact(lo: real, hi: real, n: nat)
    requires n > 0 && lo <= hi
    ensures var s := AsymScale(lo, hi, n); var z := AsymZero(lo, s, n);
            WithinHalf(lo, s, z, n) && WithinHalf(hi, s, z, n) <==> ReachesZero(lo, hi, n)
  {
    var s := AsymScale(lo, hi, n);
    if ReachesZero(lo, hi, n) {
      AsymGood(lo, lo, hi, n);
      AsymGood(hi, lo, hi, n);
    } else if hi > (n as real + 0.5) * s {
      AsymBadHigh(lo, hi, n);
    } else {
      AsymBadLow(lo, hi, n);
    }
  }

  // ---- Without naming the scale ----

  /** What an INT4 or INT2 element becomes in a slice from `lo` to `hi`. */
  function AsymTrip(f: real, lo: real, hi: real, n: nat): real
    requires n > 0
  {
    var s := AsymScale(lo, hi, n);
    var z := AsymZero(lo, s, n);
    (AsymCode(f, s, z, n) as real - z as real) * s
  }

  /** The `n` steps of a slice span its range exactly, or are as small as steps get. */
  lemma {:induction false} StepsSpan(lo: real, hi: real, n: nat)
    requires n > 0
    ensures hi - lo >= n as real * 0.0000000001 ==> n as real * AsymScale(lo, hi, n) == hi - lo
    ensures hi - lo <= n as real * 0.0000000001 ==> AsymScale(lo, hi, n) == 0.0000000001
  {
    var m := n as real;
    var q := (hi - lo) / m;
    assert q * m == hi - lo;
    DivLe(hi - lo, TINY, m);
    DivGe(hi - lo, TINY, m);
  }

  /** Half a step, and reaching near zero, of a range that is not tiny. */
  lemma {:induction false} StepsMeaning(lo: real, hi: real, m: real, s: real)
    requires m > 0.0 && s > 0.0 && m * s == hi - lo
    ensures s / 2.0 == (hi - lo) / (2.0 * m)
    ensures hi <= (m + 0.5) * s <==> (2.0 * m + 1.0) * lo <= hi
    ensures -(m + 0.5) * s <= lo <==> lo <= (2.0 * m + 1.0) * hi
  {
    HalfOf(s, m, hi - lo);
    assert (m + 0.5) * s == hi - lo + 0.5 * s;
    TwiceLe(lo, s, m);
    TwiceLe(-hi, s, m);
    assert (2.0 * m + 1.0) * lo == 2.0 * m * lo + lo;
    assert (2.0 * m + 1.0) * hi == 2.0 * m * hi + hi;
    assert 2.0 * m * (-hi) == -(2.0 * m * hi);
    assert -(m + 0.5) * s == -((m + 0.5) * s);
  }

  lemma {:induction false} HalfOf(s: real, m: real, r: real)
    requires m > 0.0 && m * s == r
    ensures s / 2.0 == r / (2.0 * m)
  {
    var d := 2.0 * m;
    var q := r / d;
    assert q * d == r;
    assert s / 2.0 * d == m * s;
    MulCancel(q, s / 2.0, d);
  }

  lemma {:induction false} TwiceLe(x: real, s: real, m: real)
    requires m > 0.0
    ensures x <= 0.5 * s <==> 2.0 * m * x <= m * s
  {
    var d := 0.5 * s - x;
    assert 2.0 * m * d == m * s - 2.0 * m * x;
    if d >= 0.0 { NonNegative(2.0 * m, d); } else { MulNegative(d, 2.0 * m); }
  }

  /** `f` comes back to within `bound` from a slice from `lo` to `hi`. */
  ghost predicate Returns(f: real, lo: real, hi: real, n: nat, bound: real)
    requires n > 0
  {
    Abs(AsymTrip(f, lo, hi, n) - f) <= bound
  }

  /** Neither end is more than 2n + 1 times as far from zero, on the same side, as the other. */
  predicate Balanced(lo: real, hi: real, n: nat) {
    (2.0 * n as real + 1.0) * lo <= hi && lo <= (2.0 * n as real + 1.0) * hi
  }

  lemma {:induction false} ReturnsInSteps(f: real, lo: real, hi: real, n: nat)
    requires n > 0
    ensures var s := AsymScale(lo, hi, n);
            Returns(f, lo, hi, n, s / 2.0) <==> WithinHalf(f, s, AsymZero(lo, s, n), n)
  {
  }

  lemma {:induction false} ReachMeaning(lo: real, hi: real, n: nat)
    requires n > 0 && lo <= hi && hi - lo >= n as real * 0.0000000001
    ensures AsymScale(lo, hi, n) / 2.0 == (hi - lo) / (2.0 * n as real)
    ensures ReachesZero(lo, hi, n) <==> Balanced(lo, hi, n)
  {
    StepsSpan(lo, hi, n);
    StepsMeaning(lo, hi, n as real, AsymScale(lo, hi, n));
  }

  /** Both ends of a range come back to within a 2n-th of the range exactly when it is balanced. */
  lemma {:induction false} AsymAbsolute(lo: real, hi: real, n: nat)
    requires n > 0 && lo <= hi && hi - lo >= n as real * 0.0000000001
    ensures var b := (hi - lo) / (2.0 * n as real);
            Returns(lo, lo, hi, n, b) && Returns(hi, lo, hi, n, b) <==> Balanced(lo, hi, n)
  {
    ReachMeaning(lo, hi, n);
    AsymExact(lo, hi, n);
    ReturnsInSteps(lo, lo, hi, n);
    ReturnsInSteps(hi, lo, hi, n);
  }

  /** An INT8 element comes back to within a 254th of the largest magnitude; if that is tiny, to within all of it. */
  lemma {:induction false} SymAbsolute(f: real, absMax: real)
    requires Abs(f) <= absMax
    ensures var s := SymScale(absMax);
            Abs(SymCode(f, s) as real * s - f) <= if absMax >= 0.0000000127 then absMax / 254.0 else absMax
  {
    SymError(f, absMax);
    if absMax < 0.0000000127 { assert f / 1.0 == f; }
  }
}

/**
  Adaptive quantisation (backend/adaptive_quant.py) over exact reals.

  A tensor is a sequence of token columns; a column lists the batch, head and channel entries of
  one token, channel fastest.  INT8 shares one scale per tensor; INT4 and INT2 use one scale and
  zero point per channel for keys and per token for values.
 */
module Quantizer {
  import opened PrecisionLevels
  import opened Reals
  import opened Rounding
  import opened ScalarQuant
  import opened Options
  import opened Layers

  type Tensor = seq<seq<real>>

  /** Which elements share a scale. */
  datatype Axis = Whole | PerChannel(headDim: nat) | PerToken

  datatype Scales = Scales(axis: Axis, scale: seq<real>, zero: seq<int>)

  datatype Meta = Passthrough | Scaled(precision: Precision, k: Scales, v: Scales)

  /** Keys and values of one layer. */
  datatype KV = KV(k: Tensor, v: Tensor)

  /** A layer as it travels: (possibly quantised) keys and values, and metadata if any is attached. */
  datatype Layer = Layer(k: Tensor, v: Tensor, meta: Option<Meta>)

  // ---- Shapes ----

  ghost predicate Rectangular(x: Tensor, width: nat) {
    forall t :: 0 <= t < |x| ==> |x[t]| == width
  }

  function SliceOf(axis: Axis, t: nat, i: nat): nat
    requires axis.PerChannel? ==> axis.headDim > 0
  {
    match axis
    case Whole => 0
    case PerChannel(d) => i % d
    case PerToken => t
  }

  function SliceCount(axis: Axis, tokens: nat): nat {
    match axis
    case Whole => 1
    case PerChannel(d) => d
    case PerToken => tokens
  }

  /** The axis fits the tensor: at least one token, and every slice is inhabited. */
  ghost predicate Fits(x: Tensor, axis: Axis) {
    && |x| > 0 && |x[0]| > 0 && Rectangular(x, |x[0]|)
    && (axis.PerChannel? ==> 0 < axis.headDim <= |x[0]|)
  }

  // ---- Minimum and maximum of a slice ----

  function RowSlice(row: seq<real>, axis: Axis, t: nat, s: nat, i: nat): seq<real>
    requires axis.PerChannel? ==> axis.headDim > 0
    requires i <= |row|
    decreases |row| - i
  {
    if i == |row| then []
    else (if SliceOf(axis, t, i) == s then [row[i]] else []) + RowSlice(row, axis, t, s, i + 1)
  }

  function Slice(x: Tensor, axis: Axis, s: nat, t: nat): seq<real>
    requires axis.PerChannel? ==> axis.headDim > 0
    requires t <= |x|
    decreases |x| - t
  {
    if t == |x| then [] else RowSlice(x[t], axis, t, s, 0) + Slice(x, axis, s, t + 1)
  }

  lemma {:induction false} RowSliceMembers(row: seq<real>, axis: Axis, t: nat, s: nat, i: nat)
    requires axis.PerChannel? ==> axis.headDim > 0
    requires i <= |row|
    ensures forall j :: i <= j < |row| && SliceOf(axis, t, j) == s ==> row[j] in RowSlice(row, axis, t, s, i)
    ensures forall y :: y in RowSlice(row, axis, t, s, i) ==>
              exists j :: i <= j < |row| && SliceOf(axis, t, j) == s && row[j] == y
    decreases |row| - i
  {
    if i < |row| {
      RowSliceMembers(row, axis, t, s, i + 1);
    }
  }

  ghost predicate ElementOf(x: Tensor, axis: Axis, s: nat, t: nat, i: nat)
    requires axis.PerChannel? ==> axis.headDim > 0
  {
    t < |x| && i < |x[t]| && SliceOf(axis, t, i) == s
  }

  lemma {:induction false} SliceMembers(x: Tensor, axis: Axis, s: nat, t: nat)
    requires axis.PerChannel? ==> axis.headDim > 0
    requires t <= |x|
    ensures forall u: nat, i: nat :: t <= u && ElementOf(x, axis, s, u, i) ==> x[u][i] in Slice(x, axis, s, t)
    ensures forall y :: y in Slice(x, axis, s, t) ==>
              exists u: nat, i: nat :: ElementOf(x, axis, s, u, i) && x[u][i] == y
    decreases |x| - t
  {
    if t < |x| {
      SliceMembers(x, axis, s, t + 1);
      RowSliceMembers(x[t], axis, t, s, 0);
      forall y | y in Slice(x, axis, s, t)
        ensures exists u: nat, i: nat :: ElementOf(x, axis, s, u, i) && x[u][i] == y
      {
        if y in RowSlice(x[t], axis, t, s, 0) {
          var j :| 0 <= j < |x[t]| && SliceOf(axis, t, j) == s && x[t][j] == y;
          assert ElementOf(x, axis, s, t, j);
        } else {
          assert y in Slice(x, axis, s, t + 1);
        }
      }
    }
  }

  lemma {:induction false} SliceInhabited(x: Tensor, axis: Axis, s: nat)
    requires Fits(x, axis) && s < SliceCount(axis, |x|)
    ensures Slice(x, axis, s, 0) != []
  {
    SliceMembers(x, axis, s, 0);
    match axis {
      case Whole => assert ElementOf(x, axis, s, 0, 0);
      case PerChannel(d) => assert ElementOf(x, axis, s, 0, s);
      case PerToken => assert ElementOf(x, axis, s, s, 0);
    }
  }

  function Min(s: seq<real>): (m: real)
    requires s != []
    ensures m in s && forall y :: y in s ==> m <= y
  {
    if |s| == 1 then s[0]
    else
      var m := Min(s[1..]);
      assert s == [s[0]] + s[1..];
      if s[0] < m then s[0] else m
  }

  function Maximum(s: seq<real>): (m: real)
    requires s != []
    ensures m in s && forall y :: y in s ==> y <= m
  {
    if |s| == 1 then s[0]
    else
      var m := Maximum(s[1..]);
      assert s == [s[0]] + s[1..];
      if s[0] > m then s[0] else m
  }

  function AbsMax(s: seq<real>): (m: real)
    requires s != []
    ensures (exists y :: y in s && m == Abs(y)) && forall y :: y in s ==> Abs(y) <= m
  {
    if |s| == 1 then Abs(s[0])
    else
      var m := AbsMax(s[1..]);
      assert s == [s[0]] + s[1..];
      assert s[0] in s;
      if Abs(s[0]) > m then Abs(s[0]) else m
  }

  function Lowest(x: Tensor, axis: Axis, s: nat): real
    requires Fits(x, axis) && s < SliceCount(axis, |x|)
  {
    SliceInhabited(x, axis, s);
    Min(Slice(x, axis, s, 0))
  }

  function Highest(x: Tensor, axis: Axis, s: nat): real
    requires Fits(x, axis) && s < SliceCount(axis, |x|)
  {
    SliceInhabited(x, axis, s);
    Maximum(Slice(x, axis, s, 0))
  }

  function Magnitude(x: Tensor): real
    requires Fits(x, Whole)
  {
    SliceInhabited(x, Whole, 0);
    AbsMax(Slice(x, Whole, 0, 0))
  }

  // ---- Quantisation ----

  function TopCode(p: Precision): nat
    requires p.INT4? || p.INT2?
  {
    if p.INT4? then 15 else 3
  }

  function ScaleAt(sc: Scales, t: nat, i: nat): real {
    if sc.axis.PerChannel? && sc.axis.headDim == 0 then 1.0
    else
      var s := SliceOf(sc.axis, t, i);
      if s < |sc.scale| then sc.scale[s] else 1.0
  }

  function ZeroAt(sc: Scales, t: nat, i: nat): int {
    if sc.axis.PerChannel? && sc.axis.headDim == 0 then 0
    else
      var s := SliceOf(sc.axis, t, i);
      if s < |sc.zero| then sc.zero[s] else 0
  }

  /** INT8 uses one symmetric scale for the whole tensor, whatever the axis; INT4 and INT2 one pair per slice. */
  function MakeScales(x: Tensor, p: Precision, axis: Axis): (sc: Scales)
    requires Fits(x, axis) && p != FP16
    ensures forall t, i :: ScaleAt(sc, t, i) > 0.0
  {
    if p.INT8? then Scales(Whole, [SymScale(Magnitude(x))], [0])
    else
      var n := TopCode(p);
      var count := SliceCount(axis, |x|);
      var scale := seq(count, s requires 0 <= s < count => AsymScale(Lowest(x, axis, s), Highest(x, axis, s), n));
      Scales(axis, scale, seq(count, s requires 0 <= s < count => AsymZero(Lowest(x, axis, s), scale[s], n)))
  }

  function Code(f: real, p: Precision, scale: real, zero: int): int
    requires p != FP16 && scale > 0.0
  {
    if p.INT8? then SymCode(f, scale) else AsymCode(f, scale, zero, TopCode(p))
  }

  function Codes(x: Tensor, p: Precision, sc: Scales): (q: Tensor)
    requires p != FP16 && forall t, i :: ScaleAt(sc, t, i) > 0.0
    ensures |q| == |x|
  {
    seq(|x|, t requires 0 <= t < |x| =>
      seq(|x[t]|, i requires 0 <= i < |x[t]| => Code(x[t][i], p, ScaleAt(sc, t, i), ZeroAt(sc, t, i)) as real))
  }

  function Restore(q: Tensor, p: Precision, sc: Scales): (x: Tensor)
    ensures |x| == |q|
  {
    seq(|q|, t requires 0 <= t < |q| =>
      seq(|q[t]|, i requires 0 <= i < |q[t]| => Decoded(q[t][i], p, ScaleAt(sc, t, i), ZeroAt(sc, t, i))))
  }

  function Decoded(q: real, p: Precision, scale: real, zero: int): real {
    if p.INT4? || p.INT2? then (q - zero as real) * scale else q * scale
  }

  ghost predicate Within(x: Tensor, y: Tensor, t: nat, i: nat, bound: real) {
    && t < |x| && t < |y| && i < |x[t]| && i < |y[t]|
    && Abs(y[t][i] - x[t][i]) <= bound
  }

  ghost predicate WithinHalfScale(x: Tensor, y: Tensor, sc: Scales, t: nat, i: nat) {
    && t < |x| && t < |y| && i < |x[t]| && i < |y[t]|
    && Abs(y[t][i] - x[t][i]) <= ScaleAt(sc, t, i) / 2.0
  }

  /** What one element becomes, code and reconstruction. */
  lemma {:induction false} ElementTrip(x: Tensor, p: Precision, sc: Scales, t: nat, i: nat)
    requires p != FP16 && (forall t, i :: ScaleAt(sc, t, i) > 0.0) && t < |x| && i < |x[t]|
    ensures var q := Codes(x, p, sc); var y := Restore(q, p, sc);
            var c := Code(x[t][i], p, ScaleAt(sc, t, i), ZeroAt(sc, t, i));
            && |q[t]| == |x[t]| && |y[t]| == |x[t]| && q[t][i] == c as real
            && y[t][i] == Decoded(c as real, p, ScaleAt(sc, t, i), ZeroAt(sc, t, i))
  {
  }

  lemma {:induction false} MagnitudeBound(x: Tensor, t: nat, i: nat)
    requires Fits(x, Whole) && t < |x| && i < |x[t]|
    ensures Abs(x[t][i]) <= Magnitude(x)
  {
    SliceMembers(x, Whole, 0, 0);
    assert ElementOf(x, Whole, 0, t, i);
    SliceInhabited(x, Whole, 0);
  }

  lemma {:induction false} MagnitudeReached(x: Tensor) returns (t: nat, i: nat)
    requires Fits(x, Whole)
    ensures t < |x| && i < |x[t]| && Abs(x[t][i]) == Magnitude(x)
  {
    SliceMembers(x, Whole, 0, 0);
    SliceInhabited(x, Whole, 0);
    var all := Slice(x, Whole, 0, 0);
    assert Magnitude(x) == AbsMax(all);
    var e :| e in all && AbsMax(all) == Abs(e);
    t, i :| ElementOf(x, Whole, 0, t, i) && x[t][i] == e;
  }

  /** The INT8 round trip of one number. */
  function SymTrip(f: real, scale: real): real
    requires scale > 0.0
  {
    SymCode(f, scale) as real * scale
  }

  lemma {:induction false} Int8Element(f: real, m: real, scale: real, zero: int)
    requires Abs(f) <= m && scale == SymScale(m)
    ensures var c := Code(f, INT8, scale, zero);
            && -127 <= c <= 127 && Abs(Decoded(c as real, INT8, scale, zero) - f) <= scale / 2.0
            && Abs(Decoded(c as real, INT8, scale, zero) - f) <= Int8Bound(m)
  {
    SymError(f, m);
    SymAbsolute(f, m);
  }

  /** A 254th of the largest magnitude; if that is tiny everything becomes zero. */
  function Int8Bound(magnitude: real): real {
    if magnitude >= 0.0000000127 then magnitude / 254.0 else magnitude
  }

  /** Every INT8 element comes back to within half the scale, from an integer code in -127..127. */
  lemma {:induction false} Int8Error(x: Tensor, axis: Axis, t: nat, i: nat)
    requires Fits(x, axis) && t < |x| && i < |x[t]|
    ensures var sc := MakeScales(x, INT8, axis); var q := Codes(x, INT8, sc);
            && WithinHalfScale(x, Restore(q, INT8, sc), sc, t, i) && -127.0 <= q[t][i] <= 127.0
            && Within(x, Restore(q, INT8, sc), t, i, Int8Bound(Magnitude(x)))
  {
    var sc := MakeScales(x, INT8, axis);
    MagnitudeBound(x, t, i);
    ElementTrip(x, INT8, sc, t, i);
    Int8Element(x[t][i], Magnitude(x), ScaleAt(sc, t, i), ZeroAt(sc, t, i));
  }

  lemma {:induction false} SameCodes(x: Tensor, p: Precision, sc: Scales)
    requires p == INT8 && forall t, i :: ScaleAt(sc, t, i) > 0.0
    ensures var q := Codes(x, p, sc); Codes(Restore(q, p, sc), p, sc) == q
  {
    var q := Codes(x, p, sc);
    forall t, i | 0 <= t < |x| && 0 <= i < |x[t]| ensures Codes(Restore(q, p, sc), p, sc)[t][i] == q[t][i] {
      SameCode(x, p, sc, t, i);
    }
    SameTensor(Codes(Restore(q, p, sc), p, sc), q);
  }

  lemma {:induction false} SymElement(x: Tensor, s: real, t: nat, i: nat)
    requires s > 0.0 && ElementOf(x, Whole, 0, t, i)
    ensures var sc := Scales(Whole, [s], [0]); var y := Restore(Codes(x, INT8, sc), INT8, sc);
            y[t][i] == SymTrip(x[t][i], s)
  {
    ElementTrip(x, INT8, Scales(Whole, [s], [0]), t, i);
  }

  lemma {:induction false} SameScale(x: Tensor, axis: Axis)
    requires Fits(x, axis)
    ensures var sc := MakeScales(x, INT8, axis); var y := Restore(Codes(x, INT8, sc), INT8, sc);
            Fits(y, axis) && MakeScales(y, INT8, axis) == sc
  {
    var s := SymScale(Magnitude(x));
    var sc := Scales(Whole, [s], [0]);
    assert MakeScales(x, INT8, axis) == sc;
    var y := Restore(Codes(x, INT8, sc), INT8, sc);
    forall t: nat, i: nat | ElementOf(x, Whole, 0, t, i) ensures y[t][i] == SymTrip(x[t][i], s) {
      SymElement(x, s, t, i);
    }
    SameMagnitude(x, y, s);
  }

  /** Quantising a dequantised INT8 tensor reproduces its scale and all of its codes. */
  lemma {:induction false} Int8Idempotent(x: Tensor, axis: Axis)
    requires Fits(x, axis)
    ensures var sc := MakeScales(x, INT8, axis); var q := Codes(x, INT8, sc); var y := Restore(q, INT8, sc);
            Fits(y, axis) && MakeScales(y, INT8, axis) == sc && Codes(y, INT8, sc) == q
  {
    SameScale(x, axis);
    SameCodes(x, INT8, MakeScales(x, INT8, axis));
  }

  lemma {:induction false} SameCode(x: Tensor, p: Precision, sc: Scales, t: nat, i: nat)
    requires p == INT8 && (forall t, i :: ScaleAt(sc, t, i) > 0.0) && t < |x| && i < |x[t]|
    ensures var q := Codes(x, p, sc); Codes(Restore(q, p, sc), p, sc)[t][i] == q[t][i]
  {
    var y := Restore(Codes(x, p, sc), p, sc);
    ElementTrip(x, p, sc, t, i);
    ElementTrip(y, p, sc, t, i);
    CodeAgain(x[t][i], ScaleAt(sc, t, i), ZeroAt(sc, t, i));
  }

  /** The INT8 code of a reconstructed value is the code it came from. */
  lemma {:induction false} CodeAgain(f: real, scale: real, zero: int)
    requires scale > 0.0
    ensures var c := Code(f, INT8, scale, zero); Code(Decoded(c as real, INT8, scale, zero), INT8, scale, zero) == c
  {
    SymCodeOfMultiple(SymCode(f, scale), scale);
  }

  lemma {:induction false} SameTensor(x: Tensor, y: Tensor)
    requires |x| == |y| && forall t :: 0 <= t < |x| ==> |x[t]| == |y[t]|
    requires forall t, i :: 0 <= t < |x| && 0 <= i < |x[t]| ==> x[t][i] == y[t][i]
    ensures x == y
  {
    forall t | 0 <= t < |x| ensures x[t] == y[t] {}
  }

  /** The extreme element of `x` stays extreme after a round trip, so the scale is found again. */
  lemma {:induction false} SameMagnitude(x: Tensor, y: Tensor, s: real)
    requires Fits(x, Whole) && s == SymScale(Magnitude(x))
    requires |y| == |x| && forall t :: 0 <= t < |x| ==> |y[t]| == |x[t]|
    requires forall t: nat, i: nat :: ElementOf(x, Whole, 0, t, i) ==> y[t][i] == SymTrip(x[t][i], s)
    ensures Fits(y, Whole) && SymScale(Magnitude(y)) == s
  {
    var m, m' := Magnitude(x), Magnitude(y);
    var t, i := MagnitudeReached(x);
    var u, j := MagnitudeReached(y);
    MagnitudeBound(y, t, i);
    MagnitudeBound(x, u, j);
    assert ElementOf(x, Whole, 0, t, i) && ElementOf(x, Whole, 0, u, j);
    MagnitudeKept(m, m', x[t][i], x[u][j]);
  }

  /** `e` is extreme in the original and `d` is the element whose round trip is extreme. */
  lemma {:induction false} MagnitudeKept(m: real, m': real, e: real, d: real)
    requires Abs(e) == m && Abs(d) <= m
    requires Abs(SymTrip(e, SymScale(m))) <= m' == Abs(SymTrip(d, SymScale(m)))
    ensures SymScale(m') == SymScale(m)
  {
    var s := SymScale(m);
    SymExtreme(e, m);
    SymError(d, m);
    CodeBound(SymCode(e, s), s);
    CodeBound(SymCode(d, s), s);
    if m / 127.0 < TINY {
      SymTiny(d, m);
    } else {
      assert m' == 127.0 * s;
    }
  }

  lemma {:induction false} CodeBound(c: int, s: real)
    requires s > 0.0 && -127 <= c <= 127
    ensures Abs(c as real * s) <= 127.0 * s
    ensures Abs(c as real) == 127.0 ==> Abs(c as real * s) == 127.0 * s
  {
    NonNegative(127.0 - c as real, s);
    NonNegative(127.0 + c as real, s);
    assert (127.0 - c as real) * s == 127.0 * s - c as real * s;
    assert (127.0 + c as real) * s == 127.0 * s + c as real * s;
  }

  lemma {:induction false} SymTiny(f: real, absMax: real)
    requires Abs(f) <= absMax && absMax / 127.0 < TINY
    ensures SymCode(f, SymScale(absMax)) == 0
  {
    assert f / 1.0 == f;
  }

  lemma {:induction false} SliceRange(x: Tensor, axis: Axis, t: nat, i: nat)
    requires Fits(x, axis) && t < |x| && i < |x[t]|
    ensures var s := SliceOf(axis, t, i);
            s < SliceCount(axis, |x|) && Lowest(x, axis, s) <= x[t][i] <= Highest(x, axis, s)
  {
    var s := SliceOf(axis, t, i);
    SliceMembers(x, axis, s, 0);
    assert ElementOf(x, axis, s, t, i);
    SliceInhabited(x, axis, s);
  }

  lemma {:induction false} SliceEnds(x: Tensor, axis: Axis, s: nat) returns (t: nat, i: nat, u: nat, j: nat)
    requires Fits(x, axis) && s < SliceCount(axis, |x|)
    ensures ElementOf(x, axis, s, t, i) && x[t][i] == Lowest(x, axis, s)
    ensures ElementOf(x, axis, s, u, j) && x[u][j] == Highest(x, axis, s)
  {
    SliceMembers(x, axis, s, 0);
    SliceInhabited(x, axis, s);
    var all := Slice(x, axis, s, 0);
    assert Lowest(x, axis, s) == Min(all) && Highest(x, axis, s) == Maximum(all);
    t, i :| ElementOf(x, axis, s, t, i) && x[t][i] == Min(all);
    u, j :| ElementOf(x, axis, s, u, j) && x[u][j] == Maximum(all);
  }

  lemma {:induction false} AsymElement(x: Tensor, p: Precision, axis: Axis, t: nat, i: nat)
    requires Fits(x, axis) && (p.INT4? || p.INT2?) && t < |x| && i < |x[t]|
    requires SliceOf(axis, t, i) < SliceCount(axis, |x|)
    ensures var s := SliceOf(axis, t, i); var sc := MakeScales(x, p, axis);
            WithinHalfScale(x, Restore(Codes(x, p, sc), p, sc), sc, t, i) <==>
            WithinHalf(x[t][i], sc.scale[s], sc.zero[s], TopCode(p))
  {
    var s := SliceOf(axis, t, i);
    var sc := MakeScales(x, p, axis);
    ElementTrip(x, p, sc, t, i);
    AsymScalar(x[t][i], p, sc.scale[s], sc.zero[s]);
  }

  lemma {:induction false} AsymScalar(f: real, p: Precision, scale: real, zero: int)
    requires (p.INT4? || p.INT2?) && scale > 0.0
    ensures Abs(Decoded(Code(f, p, scale, zero) as real, p, scale, zero) - f) <= scale / 2.0 <==>
            WithinHalf(f, scale, zero, TopCode(p))
  {
  }

  /** In steps of the slice's own scale. */
  lemma {:induction false} AsymErrorInSteps(x: Tensor, p: Precision, axis: Axis, s: nat)
    requires Fits(x, axis) && (p.INT4? || p.INT2?) && s < SliceCount(axis, |x|)
    ensures var sc := MakeScales(x, p, axis); var y := Restore(Codes(x, p, sc), p, sc);
            (forall t: nat, i: nat :: ElementOf(x, axis, s, t, i) ==> WithinHalfScale(x, y, sc, t, i))
            <==> ReachesZero(Lowest(x, axis, s), Highest(x, axis, s), TopCode(p))
  {
    var sc := MakeScales(x, p, axis);
    var y := Restore(Codes(x, p, sc), p, sc);
    var lo, hi, n := Lowest(x, axis, s), Highest(x, axis, s), TopCode(p);
    var t', i', u', j' := SliceEnds(x, axis, s);
    if ReachesZero(lo, hi, n) {
      forall t: nat, i: nat | ElementOf(x, axis, s, t, i) ensures WithinHalfScale(x, y, sc, t, i) {
        SliceRange(x, axis, t, i);
        AsymElement(x, p, axis, t, i);
        AsymGood(x[t][i], lo, hi, n);
      }
    } else {
      SliceRange(x, axis, t', i');
      AsymElement(x, p, axis, t', i');
      AsymElement(x, p, axis, u', j');
      AsymExact(lo, hi, n);
    }
  }

  /** A 30th of the slice's range at INT4, a 6th at INT2, and next to nothing for a tiny range. */
  function SliceBound(lo: real, hi: real, p: Precision): real {
    if p.INT4? then if hi - lo >= 0.0000000015 then (hi - lo) / 30.0 else 0.00000000005
    else if hi - lo >= 0.0000000003 then (hi - lo) / 6.0
    else 0.00000000005
  }

  /** Neither end is more than 31 times (at INT2: 7 times) as far from zero, on the same side, as the other. */
  predicate NearZero(lo: real, hi: real, p: Precision) {
    if p.INT4? then
      if hi - lo >= 0.0000000015 then 31.0 * lo <= hi && lo <= 31.0 * hi
      else -0.00000000155 <= lo && hi <= 0.00000000155
    else if hi - lo >= 0.0000000003 then 7.0 * lo <= hi && lo <= 7.0 * hi
    else -0.00000000035 <= lo && hi <= 0.00000000035
  }

  lemma {:induction false} BoundMeaning(lo: real, hi: real, p: Precision)
    requires p.INT4? || p.INT2?
    ensures AsymScale(lo, hi, TopCode(p)) / 2.0 == SliceBound(lo, hi, p)
    ensures ReachesZero(lo, hi, TopCode(p)) <==> NearZero(lo, hi, p)
  {
    StepsSpan(lo, hi, TopCode(p));
  }

  /** The range of a slice is 15 of its steps at INT4 and 3 at INT2; the magnitude of a tensor is 127 at INT8. */
  lemma {:induction false} ScalesMeaning(x: Tensor, p: Precision, axis: Axis)
    requires Fits(x, axis) && p != FP16
    ensures var sc := MakeScales(x, p, axis);
            if p.INT8? then
              |sc.scale| == 1 && if Magnitude(x) >= 0.0000000127 then 127.0 * sc.scale[0] == Magnitude(x)
                                 else sc.scale[0] == 1.0
            else
              |sc.scale| == SliceCount(axis, |x|) &&
              forall s :: 0 <= s < |sc.scale| ==>
                var steps, range := if p.INT4? then 15.0 else 3.0, Highest(x, axis, s) - Lowest(x, axis, s);
                if range >= steps * 0.0000000001 then steps * sc.scale[s] == range else sc.scale[s] == 0.0000000001
  {
    var sc := MakeScales(x, p, axis);
    if !p.INT8? {
      forall s | 0 <= s < |sc.scale|
        ensures sc.scale[s] / 2.0 == SliceBound(Lowest(x, axis, s), Highest(x, axis, s), p)
      {
        BoundMeaning(Lowest(x, axis, s), Highest(x, axis, s), p);
      }
    }
  }

  lemma {:induction false} WithinByScale(x: Tensor, y: Tensor, p: Precision, axis: Axis, s: nat, t: nat, i: nat)
    requires Fits(x, axis) && (p.INT4? || p.INT2?) && s < SliceCount(axis, |x|) && ElementOf(x, axis, s, t, i)
    ensures WithinHalfScale(x, y, MakeScales(x, p, axis), t, i) <==>
            Within(x, y, t, i, SliceBound(Lowest(x, axis, s), Highest(x, axis, s), p))
  {
    BoundMeaning(Lowest(x, axis, s), Highest(x, axis, s), p);
  }

  /**
    INT4 and INT2: all elements of a slice come back to within a 30th, or a 6th, of the slice's range exactly when the
    range reaches near zero, which every range that contains zero does.
   */
  lemma {:induction false} AsymErrorExact(x: Tensor, p: Precision, axis: Axis, s: nat)
    requires Fits(x, axis) && (p.INT4? || p.INT2?) && s < SliceCount(axis, |x|)
    ensures var sc := MakeScales(x, p, axis); var y := Restore(Codes(x, p, sc), p, sc);
            var lo, hi := Lowest(x, axis, s), Highest(x, axis, s);
            && ((forall t: nat, i: nat :: ElementOf(x, axis, s, t, i) ==> Within(x, y, t, i, SliceBound(lo, hi, p)))
                <==> NearZero(lo, hi, p))
            && (lo <= 0.0 <= hi ==> NearZero(lo, hi, p))
  {
    var sc := MakeScales(x, p, axis);
    var y := Restore(Codes(x, p, sc), p, sc);
    AsymErrorInSteps(x, p, axis, s);
    BoundMeaning(Lowest(x, axis, s), Highest(x, axis, s), p);
    forall t: nat, i: nat | ElementOf(x, axis, s, t, i)
      ensures WithinHalfScale(x, y, sc, t, i) <==>
              Within(x, y, t, i, SliceBound(Lowest(x, axis, s), Highest(x, axis, s), p))
    {
      WithinByScale(x, y, p, axis, s, t, i);
    }
  }

  // ---- Layers ----

  /** All precisions met before the first `p` are rarer than `p`. */
  ghost predicate MetFirst(groups: seq<Precision>, p: Precision) {
    exists i :: 0 <= i < |groups| && groups[i] == p
      && forall j :: 0 <= j < i ==> multiset(groups)[groups[j]] < multiset(groups)[p]
  }

  /** The most frequent precision among a layer's groups; the one met first wins a tie. */
  function MostCommon(groups: seq<Precision>): (p: Precision)
    requires groups != []
    ensures p in groups && MetFirst(groups, p)
    ensures forall q :: multiset(groups)[q] <= multiset(groups)[p]
  {
    assert groups[0] == groups[0];
    MostCommonFrom(groups, groups[0], 1)
  }

  function MostCommonFrom(groups: seq<Precision>, best: Precision, i: nat): (p: Precision)
    requires 0 < i <= |groups| && best in groups[..i] && MetFirst(groups, best)
    requires forall q :: q in groups[..i] ==> multiset(groups)[q] <= multiset(groups)[best]
    ensures p in groups && MetFirst(groups, p)
    ensures forall q :: multiset(groups)[q] <= multiset(groups)[p]
    decreases |groups| - i
  {
    if i == |groups| then
      assert groups[..i] == groups;
      assert forall q :: q in multiset(groups) <==> q in groups;
      best
    else
      assert groups[..i + 1] == groups[..i] + [groups[i]];
      assert forall j :: 0 <= j < i ==> groups[j] in groups[..i];
      MostCommonFrom(groups,
                     if multiset(groups)[groups[i]] > multiset(groups)[best] then groups[i] else best,
                     i + 1)
  }

  /** Keys per channel, values per token. */
  ghost predicate WellShaped(kv: KV, headDim: nat) {
    Fits(kv.k, PerChannel(headDim)) && Fits(kv.v, PerToken) && |kv.k| == |kv.v|
  }

  function QuantizeLayer(kv: KV, headDim: nat, p: Precision): (l: Layer)
    requires WellShaped(kv, headDim)
    ensures |l.k| == |kv.k| && |l.v| == |kv.v| && l.meta.Some?
  {
    if p.FP16? then Layer(kv.k, kv.v, Some(Passthrough))
    else
      var sk := MakeScales(kv.k, p, PerChannel(headDim));
      var sv := MakeScales(kv.v, p, PerToken);
      Layer(Codes(kv.k, p, sk), Codes(kv.v, p, sv), Some(Scaled(p, sk, sv)))
  }

  /** Missing metadata counts as FP16: the tensors pass through unchanged. */
  function DequantizeLayer(l: Layer): KV {
    match l.meta
    case None => KV(l.k, l.v)
    case Some(Passthrough) => KV(l.k, l.v)
    case Some(Scaled(p, sk, sv)) => KV(Restore(l.k, p, sk), Restore(l.v, p, sv))
  }

  /** Without metadata the dequantiser takes the tensors as they are, codes included. */
  lemma {:induction false} WithoutMetadata(q: map<LayerId, Layer>, l: LayerId)
    requires l in q && q[l].meta == None
    ensures Dequantize(q)[l] == KV(q[l].k, q[l].v)
  {
  }

  /** Uniform precision of a layer: the most common of its groups, or FP16 if the map has no entry. */
  function LayerPrecision(precisions: map<LayerId, seq<Precision>>, idx: LayerId): Precision {
    if idx in precisions && precisions[idx] != [] then MostCommon(precisions[idx]) else FP16
  }

  ghost predicate CacheShaped(cache: map<LayerId, KV>, headDim: nat) {
    forall l :: l in cache ==> WellShaped(cache[l], headDim)
  }

  function Quantize(cache: map<LayerId, KV>, headDim: nat,
                    precisions: map<LayerId, seq<Precision>>): (q: map<LayerId, Layer>)
    requires CacheShaped(cache, headDim)
    ensures q.Keys == cache.Keys
  {
    map l | l in cache :: QuantizeLayer(cache[l], headDim, LayerPrecision(precisions, l))
  }

  function Dequantize(q: map<LayerId, Layer>): (cache: map<LayerId, KV>)
    ensures cache.Keys == q.Keys
  {
    map l | l in q :: DequantizeLayer(q[l])
  }

  /** `y` recovers `x`: exactly at FP16, else to within a fixed fraction of the range wherever that reaches zero. */
  ghost predicate Recovers(x: Tensor, y: Tensor, p: Precision, axis: Axis)
    requires Fits(x, axis)
  {
    if p.FP16? then y == x
    else
      forall t: nat, i: nat :: t < |x| && i < |x[t]| && Recoverable(x, p, axis, SliceOf(axis, t, i)) ==>
        Within(x, y, t, i, ErrorBound(x, p, axis, SliceOf(axis, t, i)))
  }

  ghost predicate Recoverable(x: Tensor, p: Precision, axis: Axis, s: nat)
    requires Fits(x, axis)
  {
    s < SliceCount(axis, |x|) &&
    ((p.INT4? || p.INT2?) ==> NearZero(Lowest(x, axis, s), Highest(x, axis, s), p))
  }

  ghost function ErrorBound(x: Tensor, p: Precision, axis: Axis, s: nat): real
    requires Fits(x, axis) && s < SliceCount(axis, |x|) && p != FP16
  {
    if p.INT8? then Int8Bound(Magnitude(x)) else SliceBound(Lowest(x, axis, s), Highest(x, axis, s), p)
  }

  lemma {:induction false} TensorRecovers(x: Tensor, p: Precision, axis: Axis)
    requires Fits(x, axis) && p != FP16
    ensures var sc := MakeScales(x, p, axis); Recovers(x, Restore(Codes(x, p, sc), p, sc), p, axis)
  {
    var sc := MakeScales(x, p, axis);
    var y := Restore(Codes(x, p, sc), p, sc);
    forall t: nat, i: nat | t < |x| && i < |x[t]| && Recoverable(x, p, axis, SliceOf(axis, t, i))
      ensures Within(x, y, t, i, ErrorBound(x, p, axis, SliceOf(axis, t, i)))
    {
      if p.INT8? {
        Int8Error(x, axis, t, i);
      } else {
        AsymErrorExact(x, p, axis, SliceOf(axis, t, i));
        assert ElementOf(x, axis, SliceOf(axis, t, i), t, i);
      }
    }
  }

  /** Quantise then dequantise a whole cache: every layer is recovered at its own precision. */
  lemma {:induction false} CacheRecovers(cache: map<LayerId, KV>, headDim: nat,
                              precisions: map<LayerId, seq<Precision>>, l: LayerId)
    requires CacheShaped(cache, headDim) && l in cache
    ensures var out := Dequantize(Quantize(cache, headDim, precisions)); var p := LayerPrecision(precisions, l);
            && out.Keys == cache.Keys
            && Recovers(cache[l].k, out[l].k, p, PerChannel(headDim))
            && Recovers(cache[l].v, out[l].v, p, PerToken)
            && (l !in precisions || precisions[l] == [] ==> out[l] == cache[l])
            && (l in precisions && precisions[l] != [] ==> p == MostCommon(precisions[l]))
  {
    var p := LayerPrecision(precisions, l);
    if p != FP16 {
      TensorRecovers(cache[l].k, p, PerChannel(headDim));
      TensorRecovers(cache[l].v, p, PerToken);
    }
  }
}

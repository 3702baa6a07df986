/** The bandwidth estimator behind the budget: window, transfer average, confidence (backend/network_probe.py). */
module NetworkProbe {
  import opened Options
  import opened Reals
  import Seqs
  import opened Sorting
  import opened Ewma
  import opened NetworkState

  const COLD_BW: real := 15000000.0
  const COLD_START_MARGIN: real := 0.7
  const DIVERGENCE_THRESHOLD: real := 2.5
  const BW_WINDOW_SIZE: nat := 10
  const TRANSFER_BW_ALPHA: real := 0.5
  const RTT_ALPHA: real := 0.5
  const EWMA_MAX_CHANGE: real := 0.2
  const MIN_CALIB_BYTES: int := 1048576
  const MIN_CALIB_ELAPSED: real := 0.1
  const CONFIDENCE_DECAY_SEC: real := 120.0

  /** What the client learns from the network; sizes and clock readings are inputs. */
  datatype Event =
    | Transfer(bytes: int, elapsed: real, ratio: real, now: real)
    | Calibration(bytes: int, elapsed: real)
    | BandwidthProbe(size: nat, elapsed: real)
    | RttProbe(rtt: real)

  datatype Estimator = Estimator(window: seq<real>, transfer: Option<real>, rtt: Option<real>, transfers: nat,
                                 probes: nat, lastTransfer: real, calibrated: bool, history: seq<State>)

  const FRESH: Estimator := Estimator([], None, None, 0, 0, 0.0, false, [])

  function Identity(): real -> real {
    (x: real) => x
  }

  /** The last ten elements, or all of them. */
  function LastTen(xs: seq<real>): (r: seq<real>)
    ensures |r| == if |xs| < 10 then |xs| else 10
    ensures r == xs[|xs| - |r|..]
  {
    if |xs| <= BW_WINDOW_SIZE then xs else xs[|xs| - BW_WINDOW_SIZE..]
  }

  function Lowest(window: seq<real>): real
    requires window != []
  {
    Sort(window, Identity())[0]
  }

  /** The middle of the window, which the state machine is fed; the cold-start value when there is none. */
  function Median(window: seq<real>): real {
    if window == [] then COLD_BW else Sort(window, Identity())[|window| / 2]
  }

  /** How much of the confidence is left after `idle` seconds: two minutes are free, five more erode all of it. */
  function Decay(idle: real): (d: real)
    ensures 0.0 <= d <= 1.0
    ensures idle <= CONFIDENCE_DECAY_SEC ==> d == 1.0
  {
    if idle > CONFIDENCE_DECAY_SEC then Max(0.0, 1.0 - (idle - CONFIDENCE_DECAY_SEC) / 300.0) else 1.0
  }

  /** Five transfers, or fifteen probes, give full confidence. */
  function Gained(e: Estimator): real {
    Max(Min(e.transfers as real / 5.0, 1.0), Min(e.probes as real / 15.0, 1.0))
  }

  function Confidence(e: Estimator, now: real): real {
    if e.lastTransfer > 0.0 then Left(Gained(e), Decay(now - e.lastTransfer)) else Gained(e)
  }

  function Left(gained: real, decay: real): real { gained * decay }

  /** From 0.7 without confidence to 0.8 with full confidence. */
  function Margin(e: Estimator, now: real): real {
    COLD_START_MARGIN + Confidence(e, now) * (0.8 - 0.7)
  }

  /** Window minimum against transfer average, with the divergence branch of the code. */
  function Base(lowest: real, transfer: real): real {
    if lowest > 2.5 * Max(transfer, 1.0) then transfer else Min(lowest, transfer)
  }

  function BaseOf(window: seq<real>, transfer: real): real {
    if window == [] then transfer else Base(Lowest(window), transfer)
  }

  function Scale(base: real, margin: real): real { base * margin }

  /** The estimate under a given margin, which only counts once there is a transfer. */
  function Estimate(window: seq<real>, transfer: Option<real>, margin: real): real {
    if transfer.None? then
      if window == [] then COLD_BW * COLD_START_MARGIN
      else (if Lowest(window) == 0.0 then COLD_BW else Lowest(window)) * COLD_START_MARGIN
    else
      Scale(BaseOf(window, transfer.value), margin)
  }

  function EffectiveBw(e: Estimator, now: real): real {
    Estimate(e.window, e.transfer, Margin(e, now))
  }

  // ---- One event ----

  function Blended(alpha: real, x: real, old_: Option<real>): real {
    if old_.None? then x else Blend(alpha, x, old_.value)
  }

  function CappedFrom(x: real, old_: Option<real>): real {
    if old_.None? then x else Capped(TRANSFER_BW_ALPHA, EWMA_MAX_CHANGE, x, old_.value)
  }

  function OrElse(x: real, y: real): real { if x == 0.0 then y else x }

  /** The bandwidth an event measures, if it is taken into account at all. */
  function Measured(ev: Event): Option<real> {
    match ev
    case Transfer(bytes, elapsed, ratio, _) =>
      if elapsed <= MIN_CALIB_ELAPSED || bytes < MIN_CALIB_BYTES then None
      else Some(bytes as real * ratio / elapsed)
    case Calibration(bytes, elapsed) =>
      if elapsed <= 0.0 || bytes < MIN_CALIB_BYTES then None else Some(bytes as real / elapsed)
    case BandwidthProbe(size, elapsed) =>
      if elapsed > 0.0 then Some(size as real / elapsed) else None
    case RttProbe(_) => None
  }

  /** A measured bandwidth enters the window. */
  function Seen(e: Estimator, x: real): Estimator {
    e.(window := LastTen(e.window + [x]))
  }

  /** A recorded transfer of measured bandwidth `x`. */
  function Absorbed(e: Estimator, x: real, now: real): Estimator {
    Seen(e, x).(transfer := Some(CappedFrom(x, e.transfer)), transfers := e.transfers + 1,
               lastTransfer := now, calibrated := true)
  }

  /** The state machine votes on a new sample: the window's median, with a round-trip time. */
  function Voted(e: Estimator, rtt: real): Estimator {
    e.(history := e.history + [Classify(Median(e.window), rtt)])
  }

  /** A successful probe of measured bandwidth `x`. */
  function Observed(e: Estimator, x: real): Estimator {
    Voted(Seen(e, x).(probes := e.probes + 1), if e.rtt.None? then 0.0 else e.rtt.value)
  }

  function Step(e: Estimator, ev: Event): Estimator {
    var x := Measured(ev);
    match ev
    case Transfer(_, _, _, now) => if x.None? then e else Absorbed(e, x.value, now)
    case Calibration(_, _) => if x.None? then e else Seen(e, x.value).(calibrated := true)
    case BandwidthProbe(_, _) => if x.None? then e else Observed(e, x.value)
    case RttProbe(rtt) =>
      var smooth := Blended(RTT_ALPHA, rtt, e.rtt);
      Voted(e.(rtt := Some(smooth)), OrElse(smooth, rtt))
  }

  function Run(events: seq<Event>): Estimator {
    if events == [] then FRESH else Step(Run(events[..|events| - 1]), events[|events| - 1])
  }

  // ---- Implementation ----

  datatype Snapshot = Snapshot(bandwidth: real, rtt: real, state: State, budget: real)

  class NetworkProbeClient {
    var window: seq<real>
    const transferEwma: EWMA
    const rttEwma: EWMA
    const machine: NetworkStateMachine
    var transfers: nat
    var probes: nat
    var lastTransfer: real
    var calibrated: bool

    ghost function Parts(): set<object> {
      {this, transferEwma, rttEwma, machine}
    }

    ghost predicate Valid()
      reads Parts()
    {
      && machine.Valid() && transferEwma != rttEwma
      && transferEwma.alpha == TRANSFER_BW_ALPHA && rttEwma.alpha == RTT_ALPHA
    }

    ghost function View(): Estimator
      reads Parts()
    {
      Estimator(window, transferEwma.value, rttEwma.value, transfers, probes, lastTransfer, calibrated, machine.history)
    }

    constructor ()
      ensures Valid() && View() == FRESH && fresh(Parts())
    {
      window := [];
      transferEwma := new EWMA(TRANSFER_BW_ALPHA);
      rttEwma := new EWMA(RTT_ALPHA);
      machine := new NetworkStateMachine();
      transfers, probes, lastTransfer, calibrated := 0, 0, 0.0, false;
    }

    method GetEffectiveBw(now: real) returns (bw: real)
      requires Valid()
      ensures bw == EffectiveBw(View(), now)
    {
      var transfer := transferEwma.value;
      if window == [] && transfer.None? {
        return COLD_BW * COLD_START_MARGIN;
      }
      if transfer.None? {
        var lowest := Lowest(window);
        return (if lowest == 0.0 then COLD_BW else lowest) * COLD_START_MARGIN;
      }
      var base := ChooseBase(transfer.value);
      var margin := SafetyMargin(now);
      return Scale(base, margin);
    }

    method ChooseBase(transfer: real) returns (base: real)
      ensures base == BaseOf(window, transfer)
    {
      base := transfer;
      if window != [] {
        base := CrossCheck(Lowest(window), transfer);
      }
    }

    static method CrossCheck(lowest: real, transfer: real) returns (base: real)
      ensures base == Base(lowest, transfer)
    {
      Quotient(lowest, Max(transfer, 1.0), 2.5);
      var ratio := lowest / Max(transfer, 1.0);
      if ratio > DIVERGENCE_THRESHOLD {
        base := transfer;
      } else {
        base := Min(lowest, transfer);
      }
    }

    method SafetyMargin(now: real) returns (margin: real)
      ensures margin == Margin(View(), now)
    {
      var confidence := Max(Min(transfers as real / 5.0, 1.0), Min(probes as real / 15.0, 1.0));
      if lastTransfer > 0.0 {
        var elapsed := now - lastTransfer;
        if elapsed > CONFIDENCE_DECAY_SEC {
          var decay := Max(0.0, 1.0 - (elapsed - CONFIDENCE_DECAY_SEC) / 300.0);
          confidence := confidence * decay;
        }
      }
      return COLD_START_MARGIN + confidence * (0.8 - 0.7);
    }

    method GetSnapshot(now: real) returns (s: Snapshot)
      requires Valid()
      ensures s.bandwidth == EffectiveBw(View(), now) && s.budget == s.bandwidth * TARGET_TRANSFER_TIME
      ensures s.rtt == (if View().rtt.Some? then View().rtt.value else 0.0) && s.state == After(View().history)
    {
      var bw := GetEffectiveBw(now);
      var rtt := if rttEwma.value.Some? then rttEwma.value.value else 0.0;
      s := Snapshot(bw, rtt, machine.state, bw * TARGET_TRANSFER_TIME);
    }

    method CalibrateWithTransfer(bytes: int, elapsed: real)
      requires Valid()
      modifies Parts()
      ensures Valid() && View() == Step(old(View()), Calibration(bytes, elapsed))
    {
      if elapsed <= 0.0 || bytes < MIN_CALIB_BYTES {
        return;
      }
      window := LastTen(window + [bytes as real / elapsed]);
      calibrated := true;
    }

    method RecordTransfer(bytes: int, elapsed: real, ratio: real, now: real)
      requires Valid()
      modifies Parts()
      ensures Valid() && View() == Step(old(View()), Transfer(bytes, elapsed, ratio, now))
    {
      var measured := Measured(Transfer(bytes, elapsed, ratio, now));
      if measured.None? {
        return;
      }
      Absorb(measured.value, now);
    }

    method Absorb(measured: real, now: real)
      requires Valid()
      modifies Parts()
      ensures Valid() && View() == Absorbed(old(View()), measured, now)
    {
      window := LastTen(window + [measured]);
      var _ := transferEwma.UpdateClamped(measured, EWMA_MAX_CHANGE);
      transfers := transfers + 1;
      lastTransfer := now;
      calibrated := true;
    }

    /** The measurement half of a bandwidth probe that reached the server. */
    method ProbeBandwidth(size: nat, elapsed: real)
      requires Valid()
      modifies Parts()
      ensures Valid() && View() == Step(old(View()), BandwidthProbe(size, elapsed))
    {
      var measured := Measured(BandwidthProbe(size, elapsed));
      if measured.Some? {
        Observe(measured.value);
      }
    }

    method Observe(measured: real)
      requires Valid()
      modifies Parts()
      ensures Valid() && View() == Observed(old(View()), measured)
    {
      window := LastTen(window + [measured]);
      probes := probes + 1;
      Vote(if rttEwma.value.None? then 0.0 else rttEwma.value.value);
    }

    /** The measurement half of an answered round-trip probe. */
    method ProbeRtt(rtt: real)
      requires Valid()
      modifies Parts()
      ensures Valid() && View() == Step(old(View()), RttProbe(rtt))
    {
      var smooth := rttEwma.Update(rtt);
      Vote(if smooth == 0.0 then rtt else smooth);
    }

    /** The state machine classifies the median bandwidth with a round-trip time. */
    method Vote(rtt: real)
      requires Valid()
      modifies machine
      ensures Valid() && View() == Voted(old(View()), rtt)
    {
      var bw := GetBwForStateMachine();
      var _ := machine.Update(bw, rtt);
    }

    /** A measured bandwidth with at most half of the window below it and less than half above it. */
    method GetBwForStateMachine() returns (bw: real)
      ensures bw == Median(window)
      ensures if window == [] then bw == COLD_BW else Halves(window, bw)
    {
      MedianHalves(window);
      if window != [] {
        return Sort(window, Identity())[|window| / 2];
      }
      return COLD_BW;
    }
  }

  // ---- The median ----

  ghost predicate Halves(window: seq<real>, m: real) {
    && m in window
    && 2 * Seqs.Count(window, (x: real) => x < m) <= |window|
    && 2 * Seqs.Count(window, (x: real) => x > m) < |window|
  }

  lemma {:induction false} CountAtMost(xs: seq<real>, p: real -> bool, k: nat)
    requires k <= |xs| && forall i :: k <= i < |xs| ==> !p(xs[i])
    ensures Seqs.Count(xs, p) <= k
  {
    if xs != [] { CountAtMost(xs[..|xs| - 1], p, if k == |xs| then k - 1 else k); }
  }

  lemma {:induction false} CountAfter(xs: seq<real>, p: real -> bool, k: nat)
    requires k <= |xs| && forall i :: 0 <= i < k ==> !p(xs[i])
    ensures Seqs.Count(xs, p) <= |xs| - k
  {
    if xs != [] { CountAfter(xs[..|xs| - 1], p, if k == |xs| then k - 1 else k); }
  }

  /** What the state machine is fed is a median of the measurements, whatever their order. */
  lemma {:induction false} MedianHalves(window: seq<real>)
    ensures window != [] ==> Halves(window, Median(window))
  {
    if window != [] {
      var sorted, m := Sort(window, Identity()), Median(window);
      var below, above, none := (x: real) => x < m, (x: real) => x > m, (x: real) => 0.0;
      SortSorted(window, Identity());
      SortMembers(window, Identity());
      assert m in sorted;
      forall i, j | 0 <= i < j < |sorted| ensures sorted[i] <= sorted[j] {
        assert Identity()(sorted[i]) <= Identity()(sorted[j]);
      }
      Seqs.SumPermuted(sorted, window, none, below);
      Seqs.SumPermuted(sorted, window, none, above);
      CountAtMost(sorted, below, |window| / 2);
      CountAfter(sorted, above, |window| / 2 + 1);
    }
  }

  // ---- What the estimate is made of ----

  lemma {:induction false} LowestIsLeast(window: seq<real>)
    requires window != []
    ensures Lowest(window) in window && forall i :: 0 <= i < |window| ==> Lowest(window) <= window[i]
  {
    var sorted := Sort(window, Identity());
    SortSorted(window, Identity());
    SortMembers(window, Identity());
    assert sorted[0] in sorted;
    forall i | 0 <= i < |window| ensures sorted[0] <= window[i] {
      assert window[i] in sorted;
      var j :| 0 <= j < |sorted| && sorted[j] == window[i];
      assert Identity()(sorted[0]) <= Identity()(sorted[j]);
    }
  }

  /** The divergence branch never changes the value: it is always the smaller of the two. */
  lemma {:induction false} DivergenceIdle(lowest: real, transfer: real)
    ensures Base(lowest, transfer) == Min(lowest, transfer)
  {
  }

  lemma {:induction false} MarginInRange(e: Estimator, now: real)
    ensures 0.7 <= Margin(e, now) <= 0.8
  {
    OnlyLoses(e, now);
    GainedRises(e, e);
    assert Left(0.0, Decay(now - e.lastTransfer)) == 0.0;
    LeftRises(0.0, Gained(e), Decay(now - e.lastTransfer), Decay(now - e.lastTransfer));
  }

  // ---- Confidence ----

  lemma {:induction false} DecayFalls(idle: real, longer: real)
    requires idle <= longer
    ensures Decay(longer) <= Decay(idle)
  {
  }

  /** Products of numbers from 0 to 1 rise with both factors. */
  lemma {:induction false} ProductRises(a: real, b: real, x: real, y: real)
    requires 0.0 <= a <= b && 0.0 <= x <= y
    ensures a * x <= b * y
  {
    NonNegative(b - a, y);
    NonNegative(a, y - x);
    assert (b - a) * y == b * y - a * y && a * (y - x) == a * y - a * x;
  }

  /** Seconds since the last recorded transfer, if there was one. */
  function Idle(e: Estimator, now: real): Option<real> {
    if e.lastTransfer > 0.0 then Some(now - e.lastTransfer) else None
  }

  /** `f` knows at least as much as `e`: no fewer transfers and probes, and not idle for longer. */
  ghost predicate KnowsMore(f: Estimator, then_: real, e: Estimator, now: real) {
    && f.transfers >= e.transfers && f.probes >= e.probes
    && (Idle(f, then_).None? || (Idle(e, now).Some? && Idle(f, then_).value <= Idle(e, now).value))
  }

  /** More transfers and probes and less idle time never lower the margin. */
  lemma {:induction false} MarginRises(f: Estimator, then_: real, e: Estimator, now: real)
    requires KnowsMore(f, then_, e, now)
    ensures Margin(f, then_) >= Margin(e, now)
  {
    if Idle(f, then_).Some? {
      BothIdle(f, then_, e, now);
    } else {
      OnlyLoses(e, now);
      GainedRises(f, e);
    }
  }

  lemma {:induction false} BothIdle(f: Estimator, then_: real, e: Estimator, now: real)
    requires KnowsMore(f, then_, e, now) && f.lastTransfer > 0.0
    ensures Confidence(f, then_) >= Confidence(e, now)
  {
    var x, y := Decay(now - e.lastTransfer), Decay(then_ - f.lastTransfer);
    DecayFalls(then_ - f.lastTransfer, now - e.lastTransfer);
    GainedRises(f, e);
    LeftRises(Gained(e), Gained(f), x, y);
  }

  lemma {:induction false} LeftRises(a: real, b: real, x: real, y: real)
    requires 0.0 <= a <= b && 0.0 <= x <= y
    ensures Left(a, x) <= Left(b, y)
  {
    ProductRises(a, b, x, y);
  }

  /** Idle time only takes away from what was gained. */
  lemma {:induction false} OnlyLoses(e: Estimator, now: real)
    ensures Confidence(e, now) <= Gained(e)
  {
    var d := Decay(now - e.lastTransfer);
    GainedRises(e, e);
    LeftRises(Gained(e), Gained(e), d, 1.0);
  }

  lemma {:induction false} GainedRises(f: Estimator, e: Estimator)
    requires f.transfers >= e.transfers && f.probes >= e.probes
    ensures 0.0 <= Gained(e) <= Gained(f) <= 1.0
  {
  }

  lemma {:induction false} ScaleRises(base: real, m: real, n: real)
    requires base >= 0.0 && m <= n
    ensures Scale(base, m) <= Scale(base, n)
  {
    NonNegative(base, n - m);
    assert base * (n - m) == base * n - base * m;
  }

  /** Nor do they lower the estimate from the same measurements. */
  lemma {:induction false} EstimateRises(f: Estimator, then_: real, e: Estimator, now: real)
    requires KnowsMore(f, then_, e, now) && f.window == e.window && f.transfer == e.transfer
    requires e.transfer.Some? ==> BaseOf(e.window, e.transfer.value) >= 0.0
    ensures EffectiveBw(f, then_) >= EffectiveBw(e, now)
  {
    MarginRises(f, then_, e, now);
    MarginInRange(e, now);
    if e.transfer.Some? {
      ScaleRises(BaseOf(e.window, e.transfer.value), Margin(e, now), Margin(f, then_));
    }
  }

  /** 0.7 without any knowledge and after seven idle minutes; 0.8 with enough of it and no more than two. */
  lemma {:induction false} MarginEnds(e: Estimator, now: real)
    ensures e.transfers == 0 && e.probes == 0 ==> Margin(e, now) == 0.7
    ensures e.lastTransfer > 0.0 && now - e.lastTransfer >= 420.0 ==> Margin(e, now) == 0.7
    ensures (e.transfers >= 5 || e.probes >= 15) && (e.lastTransfer <= 0.0 || now - e.lastTransfer <= 120.0) ==>
              Margin(e, now) == 0.8
  {
    var gained := Gained(e);
    Product(Decay(now - e.lastTransfer), gained);
    if e.lastTransfer > 0.0 && now - e.lastTransfer >= 420.0 { assert gained * 0.0 == 0.0; }
    if e.lastTransfer > 0.0 && now - e.lastTransfer <= 120.0 { assert gained * 1.0 == gained; }
  }

  /**
    In between it is linear: a transfer is worth 0.02, like three probes, whichever of the two gives more, and full
    confidence erodes evenly between the second and the seventh idle minute.
   */
  lemma {:induction false} MarginRamp(e: Estimator, now: real)
    ensures (e.lastTransfer <= 0.0 || now - e.lastTransfer <= 120.0) && e.probes <= 3 * e.transfers <= 15 ==>
              Margin(e, now) == 0.7 + 0.02 * e.transfers as real
    ensures (e.lastTransfer <= 0.0 || now - e.lastTransfer <= 120.0) && 3 * e.transfers <= e.probes <= 15 ==>
              150.0 * (Margin(e, now) - 0.7) == e.probes as real
    ensures (e.transfers >= 5 || e.probes >= 15) && e.lastTransfer > 0.0 && 120.0 <= now - e.lastTransfer <= 420.0 ==>
              3000.0 * (0.8 - Margin(e, now)) == now - e.lastTransfer - 120.0
  {
    var gained := Gained(e);
    if e.lastTransfer > 0.0 && now - e.lastTransfer <= 120.0 { assert gained * 1.0 == gained; }
    if e.transfers >= 5 || e.probes >= 15 { assert gained == 1.0; }
  }

  /** With both sources at hand the estimate is the smaller one, scaled by the margin. */
  lemma {:induction false} BothSources(window: seq<real>, transfer: real, margin: real)
    requires window != []
    ensures Estimate(window, Some(transfer), margin) == Min(Lowest(window), transfer) * margin
  {
    DivergenceIdle(Lowest(window), transfer);
  }

  /** Positive measurements give an estimate of at most 80% of the lowest one. */
  lemma {:induction false} EstimateBelowLowest(window: seq<real>, transfer: Option<real>, margin: real)
    requires window != [] && Lowest(window) > 0.0 && 0.7 <= margin <= 0.8
    ensures Estimate(window, transfer, margin) <= 0.8 * Lowest(window)
  {
    if transfer.Some? {
      BothSources(window, transfer.value, margin);
      ScaledDown(Min(Lowest(window), transfer.value), margin, Lowest(window));
    }
  }

  lemma {:induction false} ScaledDown(x: real, m: real, y: real)
    requires 0.0 <= m <= 0.8 && x <= y && y > 0.0
    ensures x * m <= 0.8 * y
  {
    NonNegative(m, y - x);
    NonNegative(0.8 - m, y);
    assert m * (y - x) == m * y - x * m;
    assert (0.8 - m) * y == 0.8 * y - m * y;
  }

  // ---- Measurements ----

  /** What counts as a measurement, and of what rate: transfers by the size they had before compression. */
  lemma {:induction false} MeasuredExact(ev: Event)
    ensures match ev
            case Transfer(bytes, elapsed, ratio, _) =>
              && (Measured(ev).Some? <==> elapsed > 0.1 && bytes >= 1048576)
              && (Measured(ev).Some? ==> Measured(ev).value * elapsed == bytes as real * ratio)
            case Calibration(bytes, elapsed) =>
              && (Measured(ev).Some? <==> elapsed > 0.0 && bytes >= 1048576)
              && (Measured(ev).Some? ==> Measured(ev).value * elapsed == bytes as real)
            case BandwidthProbe(size, elapsed) =>
              && (Measured(ev).Some? <==> elapsed > 0.0)
              && (Measured(ev).Some? ==> Measured(ev).value * elapsed == size as real)
            case RttProbe(_) => Measured(ev).None?
  {
  }

  /** Before any transfer the estimate is 70% of the lowest measurement, or of 15 MB/s when there is none. */
  lemma {:induction false} BeforeTransfers(e: Estimator, now: real)
    requires e.transfer.None? && (e.window != [] ==> Lowest(e.window) > 0.0)
    ensures EffectiveBw(e, now) == if e.window == [] then 10500000.0 else 0.7 * Lowest(e.window)
  {
  }

  /** A recorded transfer moves the average halfway to its own rate, but by no more than a fifth. */
  lemma {:induction false} AverageStep(e: Estimator, x: real, now: real)
    requires e.transfer.Some? && e.transfer.value > 0.0 && x > 0.0
    ensures var old_, new_ := e.transfer.value, Absorbed(e, x, now).transfer;
            new_ == Some(if x > 1.4 * old_ then 1.2 * old_ else if x < 0.6 * old_ then 0.8 * old_ else (old_ + x) / 2.0)
  {
  }

  /** A round trip enters its average as one half, and the state machine votes on the new average. */
  lemma {:induction false} RttStep(e: Estimator, x: real)
    requires e.rtt.Some? && e.rtt.value + x > 0.0
    ensures var mean := (e.rtt.value + x) / 2.0;
            Step(e, RttProbe(x)) == e.(rtt := Some(mean), history := e.history + [Classify(Median(e.window), mean)])
  {
  }

  /** A timed probe lets the state machine vote on a median of the measurements, its own among them. */
  lemma {:induction false} ProbeVotes(e: Estimator, size: nat, elapsed: real) returns (bw: real)
    requires elapsed > 0.0 && e.rtt.Some?
    ensures var f := Step(e, BandwidthProbe(size, elapsed));
            && f.window == LastTen(e.window + [size as real / elapsed]) && Halves(f.window, bw)
            && f.history == e.history + [Classify(bw, e.rtt.value)] && f.probes == e.probes + 1
            && f.transfers == e.transfers && f.transfer == e.transfer && f.lastTransfer == e.lastTransfer
  {
    var f := Step(e, BandwidthProbe(size, elapsed));
    MedianHalves(f.window);
    bw := Median(f.window);
  }

  // ---- Whole runs ----

  /** The measurements of a run that were taken into account, oldest first. */
  function Samples(events: seq<Event>): seq<real> {
    if events == [] then []
    else
      var front, m := Samples(events[..|events| - 1]), Measured(events[|events| - 1]);
      if m.Some? then front + [m.value] else front
  }

  /** The recorded transfers among them. */
  function TransferSamples(events: seq<Event>): seq<real> {
    if events == [] then []
    else
      var front, ev := TransferSamples(events[..|events| - 1]), events[|events| - 1];
      if ev.Transfer? && Measured(ev).Some? then front + [Measured(ev).value] else front
  }

  lemma {:induction false} WindowAppend(xs: seq<real>, x: real)
    ensures LastTen(LastTen(xs) + [x]) == LastTen(xs + [x])
  {
  }

  function AverageOf(xs: seq<real>): Option<real> {
    if xs == [] then None else Some(CappedRun(TRANSFER_BW_ALPHA, EWMA_MAX_CHANGE, xs))
  }

  lemma {:induction false} AverageAppend(xs: seq<real>, x: real)
    ensures AverageOf(xs + [x]) == Some(CappedFrom(x, AverageOf(xs)))
  {
    assert (xs + [x])[..|xs|] == xs;
  }

  ghost predicate Contents(e: Estimator, samples: seq<real>, transfers: seq<real>) {
    e.window == LastTen(samples) && e.transfer == AverageOf(transfers) && e.transfers == |transfers|
  }

  lemma {:induction false} StepContents(e: Estimator, ev: Event, samples: seq<real>, transfers: seq<real>,
                              m: Option<real>)
    requires Contents(e, samples, transfers) && m == Measured(ev)
    ensures m.None? ==> Contents(Step(e, ev), samples, transfers)
    ensures m.Some? ==> Contents(Step(e, ev), samples + [m.value],
                                 if ev.Transfer? then transfers + [m.value] else transfers)
  {
    if m.Some? {
      WindowAppend(samples, m.value);
      AverageAppend(transfers, m.value);
    }
  }

  /** After any run: the window is the last ten measurements, the average covers every recorded transfer. */
  lemma {:induction false} RunContents(events: seq<Event>)
    ensures Contents(Run(events), Samples(events), TransferSamples(events))
  {
    if events != [] {
      var front, ev := events[..|events| - 1], events[|events| - 1];
      RunContents(front);
      StepContents(Run(front), ev, Samples(front), TransferSamples(front), Measured(ev));
    }
  }

  /** The timed probes among the events. */
  function TimedProbes(events: seq<Event>): nat {
    if events == [] then 0
    else
      var ev := events[|events| - 1];
      TimedProbes(events[..|events| - 1]) + if ev.BandwidthProbe? && ev.elapsed > 0.0 then 1 else 0
  }

  /** When the last recorded transfer was, or zero. */
  function LastRecorded(events: seq<Event>): real {
    if events == [] then 0.0
    else
      var ev := events[|events| - 1];
      if ev.Transfer? && ev.elapsed > 0.1 && ev.bytes >= 1048576 then ev.now
      else LastRecorded(events[..|events| - 1])
  }

  /** What confidence rests on after any run. */
  lemma {:induction false} RunKnowledge(events: seq<Event>)
    ensures Run(events).probes == TimedProbes(events) && Run(events).lastTransfer == LastRecorded(events)
  {
    if events != [] { RunKnowledge(events[..|events| - 1]); }
  }

  ghost predicate PositiveRun(events: seq<Event>) {
    Positive(Samples(events))
  }

  lemma {:induction false} TransfersAmongSamples(events: seq<Event>)
    ensures |TransferSamples(events)| <= |Samples(events)|
  {
    if events != [] { TransfersAmongSamples(events[..|events| - 1]); }
  }

  lemma {:induction false} LowestPositive(events: seq<Event>)
    requires PositiveRun(events) && Samples(events) != []
    ensures Lowest(LastTen(Samples(events))) > 0.0
  {
    var window := LastTen(Samples(events));
    LowestIsLeast(window);
    var j :| 0 <= j < |window| && window[j] == Lowest(window);
    assert window[j] == Samples(events)[|Samples(events)| - |window| + j];
  }

  lemma {:induction false} BetweenMargins(x: real, m: real, y: real)
    requires 0.7 <= m <= 0.8 && x >= 0.0 && y == x * m
    ensures 0.7 * x <= y <= 0.8 * x
  {
    NonNegative(m - 0.7, x);
    NonNegative(0.8 - m, x);
    assert (m - 0.7) * x == x * m - 0.7 * x;
    assert (0.8 - m) * x == 0.8 * x - x * m;
  }

  lemma {:induction false} EstimateBetween(window: seq<real>, transfer: real, margin: real)
    requires window != [] && Lowest(window) > 0.0 && transfer > 0.0 && 0.7 <= margin <= 0.8
    ensures var x := Min(Lowest(window), transfer); 0.7 * x <= Estimate(window, Some(transfer), margin) <= 0.8 * x
  {
    BothSources(window, transfer, margin);
    BetweenMargins(Min(Lowest(window), transfer), margin, Estimate(window, Some(transfer), margin));
  }

  lemma {:induction false} TransfersPositive(events: seq<Event>)
    requires PositiveRun(events)
    ensures Positive(TransferSamples(events))
  {
    if events != [] {
      var front, ev := events[..|events| - 1], events[|events| - 1];
      assert Samples(front) <= Samples(events);
      TransfersPositive(front);
      if ev.Transfer? && Measured(ev).Some? {
        assert Samples(events)[|Samples(front)|] == Measured(ev).value;
      }
    }
  }

  lemma {:induction false} AveragePositive(xs: seq<real>)
    requires xs != [] && Positive(xs)
    ensures AverageOf(xs).value > 0.0
  {
    RunPositive(TRANSFER_BW_ALPHA, EWMA_MAX_CHANGE, xs);
  }

  /** Once a transfer is recorded: a margin of 0.7 to 0.8 times the lower of window minimum and transfer average. */
  lemma {:induction false} EstimateAfterTransfer(events: seq<Event>, now: real)
    requires PositiveRun(events) && TransferSamples(events) != []
    ensures Samples(events) != []
    ensures var x := Min(Lowest(LastTen(Samples(events))), AverageOf(TransferSamples(events)).value);
            0.7 * x <= EffectiveBw(Run(events), now) <= 0.8 * x
  {
    RunContents(events);
    TransfersAmongSamples(events);
    TransfersPositive(events);
    LowestPositive(events);
    AveragePositive(TransferSamples(events));
    MarginInRange(Run(events), now);
    EstimateBetween(Run(events).window, Run(events).transfer.value, Margin(Run(events), now));
  }

  /** Without any transfer, or with one: never more than 80% of any of the last ten measurements. */
  lemma {:induction false} EstimateIsConservative(events: seq<Event>, now: real, i: nat)
    requires PositiveRun(events) && i < |LastTen(Samples(events))|
    ensures EffectiveBw(Run(events), now) <= 0.8 * LastTen(Samples(events))[i]
  {
    RunContents(events);
    LowestPositive(events);
    MarginInRange(Run(events), now);
    EstimateBelowLowest(Run(events).window, Run(events).transfer, Margin(Run(events), now));
    LowestIsLeast(LastTen(Samples(events)));
  }

  /**
    The snapshot's budget takes at most 1.6 seconds at the slowest of the last ten accepted measurements, where a
    transfer counts with its size before compression.
   */
  lemma {:induction false} BudgetFitsSlowestSample(events: seq<Event>, now: real, i: nat)
    requires PositiveRun(events) && i < |LastTen(Samples(events))|
    ensures EffectiveBw(Run(events), now) * TARGET_TRANSFER_TIME <= 1.6 * LastTen(Samples(events))[i]
  {
    EstimateIsConservative(events, now, i);
  }

  lemma {:induction false} StepHistory(e: Estimator, ev: Event)
    requires NetworkState.Samples(e.history)
    ensures |Step(e, ev).history| <= |e.history| + 1 && NetworkState.Samples(Step(e, ev).history)
  {
  }

  lemma {:induction false} HistoryOfRun(events: seq<Event>)
    ensures |Run(events).history| <= |events|
    ensures NetworkState.Samples(Run(events).history)
  {
    if events != [] {
      HistoryOfRun(events[..|events| - 1]);
      StepHistory(Run(events[..|events| - 1]), events[|events| - 1]);
    }
  }

  /** However probes and transfers interleave, n events cause at most n/3 upgrades of the network state. */
  lemma {:induction false} FewUpgradesPerRun(events: seq<Event>)
    ensures NetworkState.Samples(Run(events).history)
    ensures 3 * Upgrades(Run(events).history, |Run(events).history|) <= |events|
  {
    HistoryOfRun(events);
    FewUpgrades(Run(events).history, |Run(events).history|);
  }
}

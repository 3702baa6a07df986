/** Hysteresis over network conditions: N-of-M voting on a five-slot ring (backend/state_machine.py). */
module NetworkState {

  datatype State = GOOD | DEGRADED | POOR | UNKNOWN

  const BW_GOOD: real := 40000000.0
  const BW_POOR: real := 15000000.0
  const RTT_GOOD: real := 10.0
  const RTT_DEGRADED: real := 20.0
  const DOWNGRADE_VOTES: nat := 2
  const DOWNGRADE_WINDOW: nat := 3
  const UPGRADE_VOTES: nat := 4
  const UPGRADE_WINDOW: nat := 5
  const RING: nat := 5
  const TARGET_TRANSFER_TIME: real := 2.0

  /** One sample, classified: bandwidth alone can make it POOR, both measures must be healthy for GOOD. */
  function Classify(bandwidth: real, rtt: real): (s: State)
    ensures s != UNKNOWN
    ensures s == POOR <==> bandwidth < 15000000.0
    ensures s == GOOD <==> bandwidth >= 40000000.0 && rtt <= 10.0
  {
    if bandwidth < BW_POOR then POOR
    else if bandwidth >= BW_GOOD && rtt <= RTT_GOOD then GOOD
    else if rtt > RTT_DEGRADED then DEGRADED
    else DEGRADED
  }

  function Badness(s: State): nat {
    match s
    case GOOD => 0
    case DEGRADED => 1
    case POOR => 2
    case UNKNOWN => 1
  }

  /** The last `n` elements. */
  function Last(h: seq<State>, n: nat): seq<State> {
    if |h| <= n then h else h[|h| - n..]
  }

  function Count(h: seq<State>, s: State): nat {
    if h == [] then 0 else Count(h[..|h| - 1], s) + if h[|h| - 1] == s then 1 else 0
  }

  function Votes(h: seq<State>, s: State, window: nat): nat {
    Count(Last(h, window), s)
  }

  /** The transition on a new sample `raw`, already appended to the history `h`. */
  function Resolve(state: State, h: seq<State>, raw: State): State {
    if state == UNKNOWN then raw
    else if Badness(raw) > Badness(state) then
      if Votes(h, raw, DOWNGRADE_WINDOW) >= DOWNGRADE_VOTES then raw else state
    else if Badness(raw) < Badness(state) then
      if Votes(h, raw, UPGRADE_WINDOW) >= UPGRADE_VOTES then raw else state
    else state
  }

  /** The state after a whole history of classified samples, voting on that whole history. */
  function After(h: seq<State>): State {
    if h == [] then UNKNOWN else Resolve(After(h[..|h| - 1]), h, h[|h| - 1])
  }

  class NetworkStateMachine {
    var state: State
    var bandwidth: real
    var rtt: real
    var ring: seq<State>
    ghost var history: seq<State>

    /** The ring holds the last five classifications, and voting on it gives what voting on everything would. */
    ghost predicate Valid()
      reads this
    {
      && ring == Last(history, RING) && state == After(history)
      && forall i :: 0 <= i < |history| ==> history[i] != UNKNOWN
    }

    constructor ()
      ensures Valid() && history == [] && state == UNKNOWN
    {
      state, bandwidth, rtt, ring, history := UNKNOWN, 0.0, 0.0, [], [];
    }

    method Update(bw: real, rttMs: real) returns (s: State)
      requires Valid()
      modifies this
      ensures Valid() && history == old(history) + [Classify(bw, rttMs)] && s == state
      ensures bandwidth == bw && rtt == rttMs
    {
      bandwidth, rtt := bw, rttMs;
      var raw := Classify(bw, rttMs);
      RingAppend(history, raw);
      ring := Last(ring + [raw], RING);
      history := history + [raw];
      assert history[..|history| - 1] == old(history);
      s := ResolveState(raw);
    }

    method ResolveState(raw: State) returns (s: State)
      requires ring == Last(history, RING)
      modifies this`state
      ensures state == Resolve(old(state), history, raw) && s == state
    {
      CountIsMultiplicity(Last(history, DOWNGRADE_WINDOW), raw);
      CountIsMultiplicity(Last(history, UPGRADE_WINDOW), raw);
      if state == UNKNOWN {
        state := raw;
        return state;
      }
      if Badness(raw) > Badness(state) {
        var n := CountInWindow(raw, DOWNGRADE_WINDOW);
        if n >= DOWNGRADE_VOTES {
          state := raw;
        }
      } else if Badness(raw) < Badness(state) {
        var n := CountInWindow(raw, UPGRADE_WINDOW);
        if n >= UPGRADE_VOTES {
          state := raw;
        }
      }
      return state;
    }

    /** How often `s` is among the last `window` samples of the whole history, although the ring keeps only five. */
    method CountInWindow(s: State, window: nat) returns (n: nat)
      requires ring == Last(history, RING) && window <= RING
      ensures n == multiset(Last(history, window))[s]
    {
      n := Count(Last(ring, window), s);
      RingVotes(history, s, window);
      CountIsMultiplicity(Last(history, window), s);
    }

    /** Two seconds of bandwidth, never more than the data to send; nothing for a non-positive bandwidth. */
    function BudgetBytes(bw: real, total: real): (b: real)
      ensures bw <= 0.0 ==> b == 0.0
      ensures bw > 0.0 ==> 0.0 <= b <= 2.0 * bw && (total > 0.0 ==> b <= total)
      ensures bw > 0.0 ==> b == 2.0 * bw || (total > 0.0 && b == total)
    {
      if bw <= 0.0 then 0.0
      else
        var budget := bw * TARGET_TRANSFER_TIME;
        if total > 0.0 && total < budget then total else budget
    }
  }

  // ---- The ring loses nothing ----

  lemma {:induction false} RingAppend(h: seq<State>, s: State)
    ensures Last(Last(h, RING) + [s], RING) == Last(h + [s], RING)
  {
  }

  /** Voting on the ring equals voting on the full history. */
  lemma {:induction false} RingVotes(h: seq<State>, s: State, window: nat)
    requires window <= RING
    ensures Votes(Last(h, RING), s, window) == Votes(h, s, window)
  {
    assert Last(Last(h, RING), window) == Last(h, window);
  }

  lemma {:induction false} CountIsMultiplicity(h: seq<State>, s: State)
    ensures Count(h, s) == multiset(h)[s]
  {
    if h != [] {
      CountIsMultiplicity(h[..|h| - 1], s);
      assert h == h[..|h| - 1] + [h[|h| - 1]];
    }
  }

  // ---- Whole runs ----

  ghost predicate Samples(h: seq<State>) {
    forall i :: 0 <= i < |h| ==> h[i] != UNKNOWN
  }

  ghost predicate ChangedAt(h: seq<State>, t: nat)
    requires t < |h|
  {
    After(h[..t + 1]) != After(h[..t])
  }

  /** Sample `t` moves the state to a better one. */
  ghost predicate UpgradedAt(h: seq<State>, t: nat)
    requires t < |h|
  {
    After(h[..t]) != UNKNOWN && Badness(After(h[..t + 1])) < Badness(After(h[..t]))
  }

  ghost predicate DowngradedAt(h: seq<State>, t: nat)
    requires t < |h|
  {
    After(h[..t]) != UNKNOWN && Badness(After(h[..t + 1])) > Badness(After(h[..t]))
  }

  lemma {:induction false} StepFacts(h: seq<State>, t: nat)
    requires Samples(h) && t < |h|
    ensures After(h[..t + 1]) == Resolve(After(h[..t]), h[..t + 1], h[t])
    ensures ChangedAt(h, t) ==> After(h[..t + 1]) == h[t]
    ensures After(h[..t + 1]) != UNKNOWN
    decreases t
  {
    assert h[..t + 1][..t] == h[..t] && h[..t + 1][t] == h[t];
    if t > 0 { StepFacts(h, t - 1); }
  }

  lemma {:induction false} CountBound(h: seq<State>, s: State)
    ensures Count(h, s) <= |h|
  {
    if h != [] { CountBound(h[..|h| - 1], s); }
  }

  lemma {:induction false} CountMiss(h: seq<State>, s: State, i: nat)
    requires i < |h| && h[i] != s
    ensures Count(h, s) <= |h| - 1
  {
    CountBound(h[..|h| - 1], s);
    if i < |h| - 1 { CountMiss(h[..|h| - 1], s, i); }
  }

  lemma {:induction false} CountMissTwo(h: seq<State>, s: State, i: nat, j: nat)
    requires i < j < |h| && h[i] != s && h[j] != s
    ensures Count(h, s) <= |h| - 2
  {
    if j == |h| - 1 { CountMiss(h[..|h| - 1], s, i); } else { CountMissTwo(h[..|h| - 1], s, i, j); }
  }

  /** An upgrade at `t` needs the last five samples with at most one exception. */
  lemma {:induction false} UpgradeNeeds(h: seq<State>, t: nat)
    requires Samples(h) && t < |h| && UpgradedAt(h, t)
    ensures t >= 3
    ensures Count(Last(h[..t + 1], UPGRADE_WINDOW), h[t]) >= UPGRADE_VOTES && After(h[..t + 1]) == h[t]
  {
    StepFacts(h, t);
    CountBound(Last(h[..t + 1], UPGRADE_WINDOW), h[t]);
  }

  /** No state change happens in the two samples before an upgrade. */
  lemma {:induction false} UpgradeAfterQuiet(h: seq<State>, t: nat, u: nat)
    requires Samples(h) && u < t < |h| && UpgradedAt(h, t) && ChangedAt(h, u)
    ensures t - u >= 3
  {
    UpgradeNeeds(h, t);
    if t - u == 1 {
      ChangeBefore(h, t, u);
    } else if t - u == 2 {
      if ChangedAt(h, t - 1) {
        ChangeBefore(h, t, t - 1);
      } else {
        ChangeBefore(h, t, u);
      }
    }
  }

  /** A change at `u` with the state kept until `t` leaves two samples against an upgrade within two steps. */
  lemma {:induction false} ChangeBefore(h: seq<State>, t: nat, u: nat)
    requires Samples(h) && u < t < |h| && t <= u + 2 && ChangedAt(h, u) && After(h[..t]) == After(h[..u + 1])
    ensures !UpgradedAt(h, t)
  {
    StepFacts(h, u);
    StepFacts(h, t);
    if h[t] != h[u] {
      FewVotes(h, t, u);
    }
  }

  /** Too few of the last five samples agree with a sample that disagrees with a change made at most two samples ago. */
  lemma {:induction false} FewVotes(h: seq<State>, t: nat, u: nat)
    requires Samples(h) && u < t < |h| && t <= u + 2 && ChangedAt(h, u) && h[t] != h[u]
    ensures Votes(h[..t + 1], h[t], UPGRADE_WINDOW) < UPGRADE_VOTES
  {
    if t >= 4 {
      var v := SecondVote(h, u, t);
      assert Last(h[..t + 1], UPGRADE_WINDOW) == h[t - 4..t + 1];
      WindowMissTwo(h, h[t], t - 4, t + 1, v, u);
    } else {
      assert Last(h[..t + 1], UPGRADE_WINDOW) == h[0..t + 1];
      WindowMiss(h, h[t], 0, t + 1, u);
    }
  }

  lemma {:induction false} WindowMiss(h: seq<State>, s: State, lo: nat, hi: nat, i: nat)
    requires lo <= i < hi <= |h| && h[i] != s
    ensures Count(h[lo..hi], s) <= hi - lo - 1
  {
    CountMiss(h[lo..hi], s, i - lo);
  }

  lemma {:induction false} WindowMissTwo(h: seq<State>, s: State, lo: nat, hi: nat, i: nat, j: nat)
    requires lo <= i < j < hi <= |h| && h[i] != s && h[j] != s
    ensures Count(h[lo..hi], s) <= hi - lo - 2
  {
    CountMissTwo(h[lo..hi], s, i - lo, j - lo);
  }

  /** A change to a state was itself voted for by an earlier sample of the same window. */
  lemma {:induction false} SecondVote(h: seq<State>, u: nat, t: nat) returns (v: nat)
    requires Samples(h) && u < t < |h| && t <= u + 2 && t >= 4 && ChangedAt(h, u)
    ensures t - 4 <= v < u && h[v] == h[u]
  {
    StepFacts(h, u);
    var w3, w5 := Last(h[..u + 1], DOWNGRADE_WINDOW), Last(h[..u + 1], UPGRADE_WINDOW);
    v := u - 1;
    if h[v] != h[u] {
      v := u - 2;
      assert w3 == h[u - 2..u + 1];
      if h[v] != h[u] {
        assert w3[0] == h[u - 2] && w3[1] == h[u - 1];
        CountMissTwo(w3, h[u], 0, 1);
        var lo := if u >= 4 then u - 4 else 0;
        assert w5 == h[lo..u + 1];
        CountMissTwo(w5, h[u], u - 2 - lo, u - 1 - lo);
      }
    }
  }

  // ---- Counting transitions ----

  ghost function Upgrades(h: seq<State>, n: nat): nat
    requires n <= |h|
  {
    if n == 0 then 0 else Upgrades(h, n - 1) + if UpgradedAt(h, n - 1) then 1 else 0
  }

  ghost function Downgrades(h: seq<State>, n: nat): nat
    requires n <= |h|
  {
    if n == 0 then 0 else Downgrades(h, n - 1) + if DowngradedAt(h, n - 1) then 1 else 0
  }

  /** n samples cause at most n/3 upgrades. */
  lemma {:induction false} FewUpgrades(h: seq<State>, n: nat)
    requires Samples(h) && n <= |h|
    ensures 3 * Upgrades(h, n) <= n
  {
    if n > 0 {
      var t := n - 1;
      if UpgradedAt(h, t) {
        UpgradeNeeds(h, t);
        QuietBefore(h, t);
        FewUpgrades(h, t - 2);
      } else {
        FewUpgrades(h, t);
      }
    }
  }

  lemma {:induction false} QuietBefore(h: seq<State>, t: nat)
    requires Samples(h) && 2 <= t < |h| && UpgradedAt(h, t)
    ensures Upgrades(h, t) == Upgrades(h, t - 2)
  {
    if UpgradedAt(h, t - 1) { UpgradeAfterQuiet(h, t, t - 1); }
    if UpgradedAt(h, t - 2) { UpgradeAfterQuiet(h, t, t - 2); }
  }

  /** Every downgrade beyond the first two must be paid for by an upgrade. */
  lemma {:induction false} FewDowngrades(h: seq<State>, n: nat)
    requires Samples(h) && n <= |h|
    ensures n > 0 ==> Downgrades(h, n) <= Badness(After(h[..n])) + 2 * Upgrades(h, n)
    ensures Downgrades(h, n) <= 2 + 2 * Upgrades(h, n)
  {
    if n > 0 {
      FewDowngrades(h, n - 1);
      StepFacts(h, n - 1);
      if n > 1 { StepFacts(h, n - 2); }
    }
  }

  /** A window whose last k samples agree has k votes. */
  lemma {:induction false} CountTail(h: seq<State>, s: State, k: nat)
    requires k <= |h| && forall i :: |h| - k <= i < |h| ==> h[i] == s
    ensures Count(h, s) >= k
  {
    if k > 0 { CountTail(h[..|h| - 1], s, k - 1); }
  }

  lemma {:induction false} TailVotes(h: seq<State>, s: State, k: nat, window: nat)
    requires k <= |h| && k <= window && forall i :: |h| - k <= i < |h| ==> h[i] == s
    ensures Votes(h, s, window) >= k
  {
    CountTail(Last(h, window), s, k);
  }

  /** Four equal classifications in a row force that state, whatever came before. */
  lemma {:induction false} FourForce(h: seq<State>, s: State, t: nat)
    requires Samples(h) && 3 <= t < |h| && h[t - 3] == h[t - 2] == h[t - 1] == h[t] == s
    ensures After(h[..t + 1]) == s
  {
    StepFacts(h, t);
    StepFacts(h, t - 1);
    TailVotes(h[..t + 1], s, 3, DOWNGRADE_WINDOW);
    TailVotes(h[..t + 1], s, 4, UPGRADE_WINDOW);
    Outvoted(After(h[..t]), h[..t + 1], s);
  }

  lemma {:induction false} Outvoted(state: State, h: seq<State>, s: State)
    requires state != UNKNOWN && s != UNKNOWN
    requires Votes(h, s, DOWNGRADE_WINDOW) >= DOWNGRADE_VOTES && Votes(h, s, UPGRADE_WINDOW) >= UPGRADE_VOTES
    ensures Resolve(state, h, s) == s
  {
    SameBadness(state, s);
  }

  lemma {:induction false} SameBadness(a: State, b: State)
    requires a != UNKNOWN && b != UNKNOWN
    ensures Badness(a) == Badness(b) ==> a == b
  {
  }

  // ---- One transition ----

  /** GOOD is better than DEGRADED, and DEGRADED than POOR. */
  predicate Worse(s: State, t: State) {
    (s == POOR && t == DEGRADED) || (s == POOR && t == GOOD) || (s == DEGRADED && t == GOOD)
  }

  lemma {:induction false} ThreeVotes(w: seq<State>, s: State)
    requires |w| == 3
    ensures Count(w, s) == (if w[0] == s then 1 else 0) + (if w[1] == s then 1 else 0) + (if w[2] == s then 1 else 0)
  {
    assert w[..2][..1] == w[..1] && w[..1][..0] == [];
    assert Count(w, s) == Count(w[..2], s) + if w[2] == s then 1 else 0;
    assert Count(w[..2], s) == Count(w[..1], s) + if w[1] == s then 1 else 0;
    assert Count(w[..1], s) == Count([], s) + if w[0] == s then 1 else 0;
  }

  lemma {:induction false} FirstTwoVotes(w: seq<State>, s: State)
    requires 1 <= |w| <= 2 && w[|w| - 1] == s
    ensures Count(w, s) >= 2 <==> |w| == 2 && w[0] == s
  {
    if |w| == 2 {
      CountBound(w[..1], s);
      assert Count(w[..1], s) == Count([], s) + if w[0] == s then 1 else 0;
    } else {
      CountBound(w, s);
    }
  }

  lemma {:induction false} TwoOfThree(h: seq<State>, s: State, t: nat)
    requires t < |h| && h[t] == s
    ensures Votes(h[..t + 1], s, 3) >= 2 <==> (t >= 1 && h[t - 1] == s) || (t >= 2 && h[t - 2] == s)
  {
    var w := Last(h[..t + 1], 3);
    if t < 2 {
      assert w == h[..t + 1];
      FirstTwoVotes(w, s);
    } else {
      assert w == [h[t - 2], h[t - 1], h[t]];
      ThreeVotes(w, s);
    }
  }

  /** Fast drop: a worse sample is followed exactly when one of the two samples before it says the same. */
  lemma {:induction false} DropExact(h: seq<State>, t: nat)
    requires Samples(h) && t < |h| && Worse(h[t], After(h[..t]))
    ensures After(h[..t + 1]) ==
            if (t >= 1 && h[t - 1] == h[t]) || (t >= 2 && h[t - 2] == h[t]) then h[t] else After(h[..t])
  {
    StepFacts(h, t);
    TwoOfThree(h, h[t], t);
  }

  lemma {:induction false} FiveVotes(w: seq<State>, s: State)
    requires |w| == 5
    ensures Count(w, s) == (if w[0] == s then 1 else 0) + (if w[1] == s then 1 else 0) + (if w[2] == s then 1 else 0) +
                           (if w[3] == s then 1 else 0) + (if w[4] == s then 1 else 0)
  {
    assert w[..4][..3] == w[..3] && w[..3][..2] == w[..2] && w[..2][..1] == w[..1] && w[..1][..0] == [];
    assert Count(w, s) == Count(w[..4], s) + if w[4] == s then 1 else 0;
    assert Count(w[..4], s) == Count(w[..3], s) + if w[3] == s then 1 else 0;
    assert Count(w[..3], s) == Count(w[..2], s) + if w[2] == s then 1 else 0;
    assert Count(w[..2], s) == Count(w[..1], s) + if w[1] == s then 1 else 0;
    assert Count(w[..1], s) == Count([], s) + if w[0] == s then 1 else 0;
  }

  /** Slow rise: a better sample is followed exactly when no two of the four samples before it say otherwise. */
  lemma {:induction false} RiseExact(h: seq<State>, t: nat)
    requires Samples(h) && 4 <= t < |h| && Worse(After(h[..t]), h[t])
    ensures After(h[..t + 1]) ==
            if OneElse(h, t) then h[t] else After(h[..t])
  {
    StepFacts(h, t);
    StepFacts(h, t - 1);
    FourOfFive(h, t);
  }

  lemma {:induction false} FourOfFive(h: seq<State>, t: nat)
    requires 4 <= t < |h|
    ensures Votes(h[..t + 1], h[t], 5) >= 4 <==> OneElse(h, t)
  {
    var w := Last(h[..t + 1], 5);
    assert w == [h[t - 4], h[t - 3], h[t - 2], h[t - 1], h[t]];
    FiveVotes(w, h[t]);
    AtMostOneElse(h[t - 4], h[t - 3], h[t - 2], h[t - 1], h[t], h, t);
  }

  /** No two of the four samples before `t` differ from sample `t`. */
  ghost predicate OneElse(h: seq<State>, t: nat)
    requires 4 <= t < |h|
  {
    forall i, j :: t - 4 <= i < j < t && h[i] != h[t] ==> h[j] == h[t]
  }

  lemma {:induction false} AtMostOneElse(a: State, b: State, c: State, d: State, s: State, h: seq<State>, t: nat)
    requires 4 <= t < |h| && h[t - 4] == a && h[t - 3] == b && h[t - 2] == c && h[t - 1] == d && h[t] == s
    ensures OneElse(h, t) <==>
            (if a == s then 1 else 0) + (if b == s then 1 else 0) + (if c == s then 1 else 0) +
            (if d == s then 1 else 0) >= 3
  {
  }
}

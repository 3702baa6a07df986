/** Budget clamp and layer dropping on the prefill side (prefill_node.py, run_prefill_turn). */
module Prefill {
  import opened Layers
  import opened PrecisionLevels
  import opened Sorting
  import opened Allocator
  import opened Feasibility
  import NetworkProbe
  import NetworkState

  const INT4_HEADROOM: real := 1.3
  const MAX_TRANSFER_TIME: real := 60.0

  // ---- Budget ----

  /** 1.3 times the INT4 size, metadata included. */
  function QualityFloor(int4Total: nat, int4Meta: nat): real {
    (int4Total + int4Meta) as real * INT4_HEADROOM
  }

  /** At least the INT4 size with headroom, at most sixty seconds of bandwidth. */
  function ClampBudget(budget: real, bandwidth: real, int4Total: nat, int4Meta: nat): real {
    var floor := QualityFloor(int4Total, int4Meta);
    var raised := if floor > budget then floor else budget;
    var cap := bandwidth * MAX_TRANSFER_TIME;
    if raised > cap then cap else raised
  }

  function Int4Data(cache: Cache): nat {
    Data(Elements(cache), INT4)
  }

  function Int4Meta(cache: Cache): nat {
    MetadataSize(cache, INT4)
  }

  /** The budget of a turn in quarter bytes, from a snapshot in bytes. */
  method TurnBudget(shapes: seq<Shape>, snapshot: NetworkProbe.Snapshot) returns (budget: real)
    ensures var cache := MeasureAll(shapes);
            budget == ClampBudget(BYTE * snapshot.budget, BYTE * snapshot.bandwidth, Int4Data(cache), Int4Meta(cache))
  {
    var int4Total := TotalBytes(shapes, INT4);
    var int4Meta := MetadataBytes(MeasureAll(shapes), INT4);
    budget := BYTE * snapshot.budget;
    var int4Floor := (int4Total + int4Meta) as real * INT4_HEADROOM;
    if int4Floor > budget {
      budget := int4Floor;
    }
    var maxBudget := BYTE * snapshot.bandwidth * MAX_TRANSFER_TIME;
    if budget > maxBudget {
      budget := maxBudget;
    }
  }

  /** The budget of a turn when the network is estimated at `bandwidth` bytes per second: a snapshot holds both. */
  function BudgetAt(bandwidth: real, int4Total: nat, int4Meta: nat): real {
    ClampBudget(BYTE * (bandwidth * NetworkState.TARGET_TRANSFER_TIME), BYTE * bandwidth, int4Total, int4Meta)
  }

  /** The whole turn, from measurements to budget: it is sent in at most 48 seconds at the slowest recent rate. */
  lemma {:induction false} TurnFitsSlowestSample(cache: Cache, events: seq<NetworkProbe.Event>, now: real, i: nat)
    requires NetworkProbe.PositiveRun(events) && i < |NetworkProbe.LastTen(NetworkProbe.Samples(events))|
    ensures var slowest := NetworkProbe.LastTen(NetworkProbe.Samples(events))[i];
            BudgetAt(NetworkProbe.EffectiveBw(NetworkProbe.Run(events), now), Int4Data(cache), Int4Meta(cache))
            <= 48.0 * (BYTE * slowest)
  {
    NetworkProbe.EstimateIsConservative(events, now, i);
  }

  /** The quality floor reaches the one-third-split floor of equal layers; `meta` is the INT4 metadata. */
  predicate HeadroomCovers(cache: Cache, size: nat, meta: nat) {
    13 * (Int4Data(cache) + meta) >= 10 * (size * ThirdUnits(|cache|))
  }

  /** Exactly when the quality floor is a feasible budget for equal layers. */
  lemma {:induction false} HeadroomExact(cache: Cache, size: nat, meta: nat)
    requires EqualLayers(cache, size)
    ensures Feasible(cache, QualityFloor(Int4Data(cache), meta), |cache|) <==> HeadroomCovers(cache, size, meta)
  {
    FeasibilityThreshold(cache, size, QualityFloor(Int4Data(cache), meta));
  }

  /** Exactly when the clamped budget of a turn with equal layers is feasible. */
  lemma {:induction false} ClampExact(cache: Cache, size: nat, budget: real, bandwidth: real, meta: nat)
    requires EqualLayers(cache, size) && bandwidth >= 0.0
    ensures var third := (size * ThirdUnits(|cache|)) as real;
            Feasible(cache, ClampBudget(budget, bandwidth, Int4Data(cache), meta), |cache|) <==>
            bandwidth * MAX_TRANSFER_TIME >= third && (budget >= third || HeadroomCovers(cache, size, meta))
  {
    FeasibilityThreshold(cache, size, ClampBudget(budget, bandwidth, Int4Data(cache), meta));
    HeadroomExact(cache, size, meta);
    FeasibilityThreshold(cache, size, QualityFloor(Int4Data(cache), meta));
  }

  /** Where the quality floor covers the floors, only the sixty-second cap can make a turn infeasible. */
  lemma {:induction false} OnlyCapInfeasible(cache: Cache, size: nat, budget: real, bandwidth: real, meta: nat)
    requires EqualLayers(cache, size) && bandwidth >= 0.0 && HeadroomCovers(cache, size, meta)
    requires !Feasible(cache, ClampBudget(budget, bandwidth, Int4Data(cache), meta), |cache|)
    ensures ClampBudget(budget, bandwidth, Int4Data(cache), meta) == bandwidth * MAX_TRANSFER_TIME
    ensures bandwidth * MAX_TRANSFER_TIME < (size * ThirdUnits(|cache|)) as real
  {
    ClampExact(cache, size, budget, bandwidth, meta);
    FeasibilityThreshold(cache, size, ClampBudget(budget, bandwidth, Int4Data(cache), meta));
    HeadroomExact(cache, size, meta);
    FeasibilityThreshold(cache, size, QualityFloor(Int4Data(cache), meta));
  }

  /** Without counting on metadata the quality floor covers the floors for every layer count but 1, 2 and 4. */
  lemma {:induction false} HeadroomUnits(layers: nat)
    ensures 10 * ThirdUnits(layers) <= 26 * layers <==> layers !in {1, 2, 4}
  {
    if layers >= 8 {
      assert 3 * CeilDiv(2 * layers, 3) <= 2 * layers + 2 && 3 * CeilDiv(layers, 3) <= layers + 2;
    }
  }

  lemma {:induction false} Regroup(k: nat, size: nat, n: nat)
    ensures k * (size * n) == size * (k * n)
  {
  }

  lemma {:induction false} UnitsCover(size: nat, n: nat, third: nat)
    requires 10 * third <= 26 * n
    ensures 10 * (size * third) <= 26 * (size * n)
  {
    Regroup(10, size, third);
    Regroup(26, size, n);
    Scale(size, 10 * third, 26 * n);
  }

  lemma {:induction false} MostCountsCovered(cache: Cache, size: nat, meta: nat)
    requires EqualLayers(cache, size) && |cache| !in {1, 2, 4}
    ensures HeadroomCovers(cache, size, meta)
  {
    EqualTotal(cache, size);
    HeadroomUnits(|cache|);
    UnitsCover(size, |cache|, ThirdUnits(|cache|));
  }

  /**
    Exactly when a turn with equal layers is feasible, as the allocator's own flag says: two seconds of bandwidth cover
    the third split, or sixty do and the quality floor reaches it.
   */
  lemma {:induction false} TurnExact(cache: Cache, size: nat, bandwidth: real, meta: nat, importance: Importance,
                              useFidelity: bool, r: Result)
    requires EqualLayers(cache, size) && bandwidth >= 0.0
    requires Allocated(cache, importance, BudgetAt(bandwidth, Int4Data(cache), meta), |cache|, useFidelity, r)
    ensures var third, second := (size * ThirdUnits(|cache|)) as real, BYTE * bandwidth;
            r.feasible <==>
            second * 2.0 >= third || (second * MAX_TRANSFER_TIME >= third && HeadroomCovers(cache, size, meta))
  {
    ClampExact(cache, size, BYTE * (bandwidth * NetworkState.TARGET_TRANSFER_TIME), BYTE * bandwidth, meta);
    FeasibleFlag(cache, importance, BudgetAt(bandwidth, Int4Data(cache), meta), |cache|, useFidelity, r);
  }

  /**
    Where the quality floor does not help: one layer of 100 tokens with 8 heads of dimension 64 needs a network of
    51200 bytes per second.  At 25000 the budget is the quality floor itself, well below the cap, and infeasible.
   */
  lemma {:induction false} HeadroomFails() returns (shapes: seq<Shape>)
    ensures shapes == [Shape(LayerId(0), 100, 512, 512, 64)]
    ensures var cache := MeasureAll(shapes);
            forall bandwidth :: bandwidth >= 0.0 ==>
              (Feasible(cache, BudgetAt(bandwidth, Int4Data(cache), Int4Meta(cache)), 1) <==> bandwidth >= 51200.0)
    ensures var cache := MeasureAll(shapes);
            && BudgetAt(25000.0, Int4Data(cache), Int4Meta(cache)) == QualityFloor(Int4Data(cache), Int4Meta(cache))
            && !Feasible(cache, QualityFloor(Int4Data(cache), Int4Meta(cache)), 1)
  {
    shapes := [Shape(LayerId(0), 100, 512, 512, 64)];
    var cache := MeasureAll(shapes);
    OneLayer(shapes[0]);
    assert !HeadroomCovers(cache, 102400, Int4Meta(cache));
    HeadroomExact(cache, 102400, Int4Meta(cache));
    forall bandwidth | bandwidth >= 0.0
      ensures Feasible(cache, BudgetAt(bandwidth, Int4Data(cache), Int4Meta(cache)), 1) <==> bandwidth >= 51200.0
    {
      ClampExact(cache, 102400, BYTE * (bandwidth * NetworkState.TARGET_TRANSFER_TIME), BYTE * bandwidth,
                 Int4Meta(cache));
    }
  }

  lemma {:induction false} LayerScales(s: Shape)
    ensures var x := Measure(s).scales; x[0] + x[1] + x[2] + x[3] == 64 * s.headDim + 16 * s.seqLen
  {
    GroupsTile(s.seqLen);
  }

  lemma {:induction false} SingleMeta(x: Sized)
    ensures Int4Meta([x]) == x.scales[0] + x.scales[1] + x.scales[2] + x.scales[3]
  {
    var levels := Uniform([x], INT4);
    assert x in [x];
    assert levels[x.layer] == [INT4, INT4, INT4, INT4];
    assert [x][1..] == [];
    assert MetaBytes([x], levels) == LayerMeta(x, levels[x.layer]) + MetaBytes([x][1..], levels);
  }

  lemma {:induction false} OneLayer(s: Shape)
    requires s.layer.index == 0
    ensures var cache := MeasureAll([s]);
            && |cache| == 1 && EqualLayers(cache, Numel(s)) && Elements(cache) == Numel(s)
            && Int4Meta(cache) == 64 * s.headDim + 16 * s.seqLen
  {
    var cache := MeasureAll([s]);
    MeasureTotal(s);
    assert cache == [Measure(s)];
    EqualTotal(cache, Numel(s));
    LayerScales(s);
    SingleMeta(Measure(s));
  }

  // ---- Dropping layers ----

  /** The layers of the cache that are not among `gone`, in order. */
  function Remaining(shapes: seq<Shape>, gone: seq<LayerId>): seq<Shape> {
    if shapes == [] then []
    else (if shapes[0].layer in gone then [] else [shapes[0]]) + Remaining(shapes[1..], gone)
  }

  lemma {:induction false} RemainingMembers(shapes: seq<Shape>, gone: seq<LayerId>)
    ensures forall s :: s in Remaining(shapes, gone) <==> s in shapes && s.layer !in gone
  {
    if shapes != [] {
      RemainingMembers(shapes[1..], gone);
      assert shapes == [shapes[0]] + shapes[1..];
    }
  }

  function Int4Size(shapes: seq<Shape>, gone: seq<LayerId>): nat {
    Data(Elements(MeasureAll(Remaining(shapes, gone))), INT4)
  }

  /** Prefix `n` of the suggested order is the shortest non-empty one whose removal makes INT4 fit. */
  ghost predicate ShortestFit(shapes: seq<Shape>, dropped: seq<LayerId>, budget: real, n: nat) {
    && 1 <= n <= |dropped|
    && Int4Size(shapes, dropped[..n]) as real <= budget
    && forall m :: 1 <= m < n ==> Int4Size(shapes, dropped[..m]) as real > budget
  }

  datatype Dropping = Dropping(shapes: seq<Shape>, importance: Importance, numLayers: int, numDrop: nat)
                    | NothingFits

  lemma {:induction false} RemainingStep(shapes: seq<Shape>, gone: seq<LayerId>, head: Shape, tail: seq<Shape>)
    requires shapes == [head] + tail
    ensures Remaining(shapes, gone) == (if head.layer in gone then [] else [head]) + Remaining(tail, gone)
  {
    assert shapes[1..] == tail;
  }

  method FilterLayers(shapes: seq<Shape>, gone: seq<LayerId>) returns (kept: seq<Shape>)
    ensures kept == Remaining(shapes, gone)
  {
    kept := [];
    for i := 0 to |shapes|
      invariant kept + Remaining(shapes[i..], gone) == Remaining(shapes, gone)
    {
      RemainingStep(shapes[i..], gone, shapes[i], shapes[i + 1..]);
      if shapes[i].layer !in gone {
        kept := kept + [shapes[i]];
      }
    }
  }

  /** Drops suggested layers one entry at a time until the rest fits at INT4. */
  method DropLayers(shapes: seq<Shape>, importance: Importance, dropped: seq<LayerId>, budget: real, numLayers: int)
    returns (r: Dropping)
    ensures r.NothingFits? <==> forall n :: 1 <= n <= |dropped| ==> Int4Size(shapes, dropped[..n]) as real > budget
    ensures r.Dropping? ==>
              && ShortestFit(shapes, dropped, budget, r.numDrop)
              && r.shapes == Remaining(shapes, dropped[..r.numDrop])
              && r.importance == importance - (set l | l in dropped[..r.numDrop])
              && r.numLayers == numLayers - r.numDrop
  {
    for numDrop := 1 to |dropped| + 1
      invariant forall m :: 1 <= m < numDrop ==> Int4Size(shapes, dropped[..m]) as real > budget
    {
      var trial := dropped[..numDrop];
      var kept := FilterLayers(shapes, trial);
      var size := TotalBytes(kept, INT4);
      if size as real <= budget {
        return Dropping(kept, importance - (set l | l in trial), numLayers - numDrop, numDrop);
      }
    }
    return NothingFits;
  }

  // ---- What the loop achieves ----

  function LayersOf(shapes: seq<Shape>): set<LayerId> {
    set s | s in shapes :: s.layer
  }

  function Gone(dropped: seq<LayerId>): set<LayerId> {
    set l | l in dropped
  }

  ghost predicate DistinctShapes(shapes: seq<Shape>) {
    forall i, j :: 0 <= i < j < |shapes| ==> shapes[i].layer != shapes[j].layer
  }

  lemma {:induction false} ReversedMembers(order: seq<Entry>, l: LayerId)
    ensures l in LayersReversed(order) <==> exists e :: e in order && e.id.layer == l
  {
    var dropped := LayersReversed(order);
    if e :| e in order && e.id.layer == l {
      var k :| 0 <= k < |order| && order[k] == e;
      assert dropped[|order| - 1 - k] == l;
    }
    if l in dropped {
      var k :| 0 <= k < |dropped| && dropped[k] == l;
      assert order[|order| - 1 - k] in order;
    }
  }

  lemma {:induction false} EntryLayers(shapes: seq<Shape>, importance: Importance, l: LayerId)
    ensures l in LayersOf(shapes) <==> exists e :: e in Entries(MeasureAll(shapes), importance) && e.id.layer == l
  {
    var cache := MeasureAll(shapes);
    EntriesValid(cache, importance);
    if l in LayersOf(shapes) {
      var s :| s in shapes && s.layer == l;
      var i :| 0 <= i < |shapes| && shapes[i] == s;
      assert EntryOf(cache[i], importance, 0) in Entries(cache, importance);
    }
    if e :| e in Entries(cache, importance) && e.id.layer == l {
      assert ValidId(cache, e.id);
      var i :| 0 <= i < |cache| && cache[i].layer == l;
      assert shapes[i] in shapes;
    }
  }

  /** The allocator's suggestion names every layer of the cache, and only those. */
  lemma {:induction false} DroppedNamesAll(shapes: seq<Shape>, importance: Importance)
    requires DistinctShapes(shapes)
    ensures Gone(LayersReversed(ByImportance(MeasureAll(shapes), importance))) == LayersOf(shapes)
  {
    var order := ByImportance(MeasureAll(shapes), importance);
    OrderFacts(order, MeasureAll(shapes), importance);
    forall l ensures l in LayersOf(shapes) <==> l in Gone(LayersReversed(order)) {
      ReversedMembers(order, l);
      EntryLayers(shapes, importance, l);
    }
  }

  /** After an infeasible allocation, dropping succeeds for every budget of at least 0: the fallback is unreachable. */
  lemma {:induction false} DropSucceeds(shapes: seq<Shape>, importance: Importance, budget: real, numLayers: int,
                              useFidelity: bool, r: Result)
    requires DistinctShapes(shapes) && budget >= 0.0
    requires Allocated(MeasureAll(shapes), importance, budget, numLayers, useFidelity, r) && !r.feasible
    ensures |r.dropped| >= 1 && Int4Size(shapes, r.dropped[..|r.dropped|]) as real <= budget
  {
    DroppedNamesAll(shapes, importance);
    assert shapes != [] by { assert MeasureAll(shapes) != []; }
    assert shapes[0].layer in LayersOf(shapes);
    assert shapes[0].layer in Gone(r.dropped);
    assert r.dropped[..|r.dropped|] == r.dropped;
    forall s | s in shapes ensures s.layer in r.dropped {
      assert s.layer in LayersOf(shapes);
      assert s.layer in Gone(r.dropped);
    }
    NoneRemain(shapes, r.dropped);
  }

  lemma {:induction false} NoneRemain(shapes: seq<Shape>, gone: seq<LayerId>)
    requires forall s :: s in shapes ==> s.layer in gone
    ensures Remaining(shapes, gone) == []
  {
    if shapes != [] {
      NoneRemain(shapes[1..], gone);
    }
  }

  /** Cache and importance map lose the same layers. */
  lemma {:induction false} SameKeys(shapes: seq<Shape>, importance: Importance, gone: seq<LayerId>)
    requires importance.Keys == LayersOf(shapes)
    ensures (importance - Gone(gone)).Keys == LayersOf(Remaining(shapes, gone))
  {
    RemainingMembers(shapes, gone);
  }

  lemma {:induction false} GoneCount(gone: seq<LayerId>)
    ensures |Gone(gone)| <= |gone|
    ensures |Gone(gone)| == |gone| <==> Distinct(gone)
  {
    if gone != [] {
      var last, front := gone[|gone| - 1], gone[..|gone| - 1];
      GoneCount(front);
      assert gone == front + [last];
      assert Gone(gone) == Gone(front) + {last};
      if last in front {
        var i :| 0 <= i < |front| && front[i] == last;
        assert gone[i] == gone[|gone| - 1];
      } else {
        assert Distinct(gone) <==> Distinct(front) by {
          assert forall i :: 0 <= i < |front| ==> front[i] == gone[i] && front[i] in front;
        }
      }
    }
  }

  lemma {:induction false} RemainingCount(shapes: seq<Shape>, gone: seq<LayerId>)
    requires DistinctShapes(shapes)
    ensures |Remaining(shapes, gone)| == |shapes| - |LayersOf(shapes) * Gone(gone)|
  {
    if shapes != [] {
      RemainingCount(shapes[1..], gone);
      HeadLayer(shapes);
      CountWithHead(LayersOf(shapes[1..]), shapes[0].layer, Gone(gone));
    }
  }

  lemma {:induction false} HeadLayer(shapes: seq<Shape>)
    requires DistinctShapes(shapes) && shapes != []
    ensures LayersOf(shapes) == {shapes[0].layer} + LayersOf(shapes[1..])
    ensures shapes[0].layer !in LayersOf(shapes[1..])
  {
    assert shapes == [shapes[0]] + shapes[1..];
  }

  lemma {:induction false} CountWithHead(rest: set<LayerId>, l: LayerId, gone: set<LayerId>)
    requires l !in rest
    ensures |({l} + rest) * gone| == |rest * gone| + if l in gone then 1 else 0
  {
    if l in gone {
      assert ({l} + rest) * gone == {l} + rest * gone;
    } else {
      assert ({l} + rest) * gone == rest * gone;
    }
  }

  /**
    The layer count handed on after dropping subtracts list entries, of which every layer has four, not layers.
    It is never too high, and it is right exactly when no layer occurs twice among the entries used.
   */
  lemma {:induction false} LayerCountExact(shapes: seq<Shape>, gone: seq<LayerId>)
    requires DistinctShapes(shapes) && Gone(gone) <= LayersOf(shapes)
    ensures |shapes| - |gone| <= |Remaining(shapes, gone)|
    ensures |shapes| - |gone| == |Remaining(shapes, gone)| <==> Distinct(gone)
  {
    RemainingCount(shapes, gone);
    assert LayersOf(shapes) * Gone(gone) == Gone(gone);
    GoneCount(gone);
  }

  lemma {:induction false} LayersCount(shapes: seq<Shape>)
    requires DistinctShapes(shapes)
    ensures |LayersOf(shapes)| == |shapes|
  {
    if shapes != [] {
      LayersCount(shapes[1..]);
      assert shapes == [shapes[0]] + shapes[1..];
      assert LayersOf(shapes) == {shapes[0].layer} + LayersOf(shapes[1..]);
      assert shapes[0].layer !in LayersOf(shapes[1..]);
    }
  }

  lemma {:induction false} RemainingDistinct(shapes: seq<Shape>, gone: seq<LayerId>)
    requires DistinctShapes(shapes)
    ensures DistinctShapes(Remaining(shapes, gone))
  {
    if shapes != [] {
      RemainingDistinct(shapes[1..], gone);
      RemainingMembers(shapes[1..], gone);
      var rest := Remaining(shapes[1..], gone);
      forall j | 0 <= j < |rest| ensures rest[j].layer != shapes[0].layer {
        assert rest[j] in shapes[1..];
      }
    }
  }

  // ---- Allocating again after the drop ----

  /** What is sent: the layers left, their importances, the announced count and the allocation. */
  datatype Turn = Turn(shapes: seq<Shape>, importance: Importance, numLayers: int, result: Result)

  ghost predicate PrefixFits(shapes: seq<Shape>, dropped: seq<LayerId>, budget: real) {
    exists n :: ShortestFit(shapes, dropped, budget, n)
  }

  /** `t` is the turn after dropping the first `n` entries of the suggestion and allocating again. */
  ghost predicate Reallocated(t: Turn, shapes: seq<Shape>, importance: Importance, dropped: seq<LayerId>, n: nat,
                              budget: real, numLayers: int, useFidelity: bool)
    requires n <= |dropped|
  {
    && t.shapes == Remaining(shapes, dropped[..n]) && t.importance == importance - Gone(dropped[..n])
    && t.numLayers == numLayers - n
    && Allocated(MeasureAll(t.shapes), t.importance, budget, t.numLayers, useFidelity, t.result)
  }

  /** Drops the shortest fitting prefix of the suggestion and allocates again; zero if no prefix fits. */
  method DropAndReallocate(shapes: seq<Shape>, importance: Importance, dropped: seq<LayerId>, budget: real,
                           numLayers: int, useFidelity: bool, first: Result)
    returns (t: Turn, numDrop: nat)
    requires DistinctShapes(shapes) && forall i :: 0 <= i < |shapes| ==> shapes[i].seqLen > 0
    ensures numDrop > 0 <==> PrefixFits(shapes, dropped, budget)
    ensures numDrop == 0 ==> t == Turn(shapes, importance, numLayers, first)
    ensures numDrop > 0 ==> ShortestFit(shapes, dropped, budget, numDrop) &&
                            Reallocated(t, shapes, importance, dropped, numDrop, budget, numLayers, useFidelity)
  {
    var d := DropLayers(shapes, importance, dropped, budget, numLayers);
    match d {
      case NothingFits =>
        t, numDrop := Turn(shapes, importance, numLayers, first), 0;
      case Dropping(kept, left, count, n) =>
        RemainingDistinct(shapes, dropped[..n]);
        RemainingMembers(shapes, dropped[..n]);
        assert forall i :: 0 <= i < |kept| ==> kept[i] in kept;
        var again := Allocate(kept, left, budget, count, useFidelity);
        t, numDrop := Turn(kept, left, count, again), n;
    }
  }

  /** Allocates; if that is infeasible, drops layers and allocates again, which a budget that is not negative allows. */
  method AllocateOrDrop(shapes: seq<Shape>, importance: Importance, budget: real, numLayers: int, useFidelity: bool)
    returns (t: Turn, first: Result, numDrop: nat)
    requires DistinctShapes(shapes) && forall i :: 0 <= i < |shapes| ==> shapes[i].seqLen > 0
    ensures Allocated(MeasureAll(shapes), importance, budget, numLayers, useFidelity, first)
    ensures numDrop > 0 <==> !first.feasible && PrefixFits(shapes, first.dropped, budget)
    ensures numDrop == 0 ==> t == Turn(shapes, importance, numLayers, first)
    ensures numDrop > 0 ==> ShortestFit(shapes, first.dropped, budget, numDrop) &&
                            Reallocated(t, shapes, importance, first.dropped, numDrop, budget, numLayers, useFidelity)
    ensures !first.feasible && budget >= 0.0 ==> numDrop > 0
  {
    first := Allocate(shapes, importance, budget, numLayers, useFidelity);
    if first.feasible {
      return Turn(shapes, importance, numLayers, first), first, 0;
    }
    if budget >= 0.0 {
      DropSucceeds(shapes, importance, budget, numLayers, useFidelity, first);
      Shortest(shapes, first.dropped, budget, |first.dropped|);
    }
    t, numDrop := DropAndReallocate(shapes, importance, first.dropped, budget, numLayers, useFidelity, first);
  }

  /** If some prefix fits, there is a shortest one. */
  lemma {:induction false} Shortest(shapes: seq<Shape>, dropped: seq<LayerId>, budget: real, n: nat)
    requires 1 <= n <= |dropped| && Int4Size(shapes, dropped[..n]) as real <= budget
    ensures PrefixFits(shapes, dropped, budget)
  {
    if m :| 1 <= m < n && Int4Size(shapes, dropped[..m]) as real <= budget {
      Shortest(shapes, dropped, budget, m);
    } else {
      assert ShortestFit(shapes, dropped, budget, n);
    }
  }

  /** A floor for a count of zero or less is INT8 everywhere. */
  lemma {:induction false} NoCountFloor(cache: Cache, numLayers: int, c: real)
    requires numLayers <= 0
    ensures FloorSize(cache, numLayers, c) == 4 * Elements(cache)
  {
    forall i | 0 <= i < |cache| ensures FloorMap(cache, numLayers, c)[cache[i].layer] == [INT8, INT8, INT8, INT8] {
      FloorAt(cache, numLayers, c, i);
    }
    UniformData(cache, INT8, FloorMap(cache, numLayers, c));
  }

  /**
    The second allocation, for layers that fit at INT4, is feasible exactly when the budget covers the third-split
    floor for the announced count; with a count of zero or less, exactly when everything fits at INT8.
   */
  lemma {:induction false} ReallocationExact(cache: Cache, budget: real, numLayers: int)
    requires Int4Data(cache) as real <= budget
    ensures Feasible(cache, budget, numLayers) <==> budget >= FloorSize(cache, numLayers, THIRD) as real
    ensures numLayers <= 0 ==> (Feasible(cache, budget, numLayers) <==> budget >= (4 * Elements(cache)) as real)
  {
    FeasibleExact(cache, numLayers, budget);
    if numLayers <= 0 { NoCountFloor(cache, numLayers, THIRD); }
  }

  // ---- A drop that announces too few layers ----

  /** The four layers of a model, equally large. */
  ghost predicate FourLayers(shapes: seq<Shape>, size: nat) {
    |shapes| == 4 && forall i :: 0 <= i < 4 ==> shapes[i].layer.index == i && Numel(shapes[i]) == size
  }

  ghost predicate EquallyImportant(shapes: seq<Shape>, importance: Importance, m: real) {
    forall i, g: nat :: 0 <= i < |shapes| && g < NUM_GROUPS ==> MeanImportance(importance, shapes[i].layer, g) == m
  }

  lemma {:induction false} EntryAt(cache: Cache, importance: Importance, k: nat)
    requires k < NUM_GROUPS * |cache|
    ensures |Entries(cache, importance)| == NUM_GROUPS * |cache|
    ensures Entries(cache, importance)[k] == EntryOf(cache[k / NUM_GROUPS], importance, k % NUM_GROUPS)
    decreases |cache|
  {
    EntryCount(cache[1..], importance);
    if k >= NUM_GROUPS {
      EntryAt(cache[1..], importance, k - NUM_GROUPS);
      assert (k - NUM_GROUPS) / NUM_GROUPS == k / NUM_GROUPS - 1 && (k - NUM_GROUPS) % NUM_GROUPS == k % NUM_GROUPS;
    }
  }

  lemma {:induction false} EntryCount(cache: Cache, importance: Importance)
    ensures |Entries(cache, importance)| == NUM_GROUPS * |cache|
  {
    if cache != [] { EntryCount(cache[1..], importance); }
  }

  /** Equal importances leave the groups in cache order. */
  lemma {:induction false} OrderKept(cache: Cache, importance: Importance, m: real)
    requires forall i, g: nat :: 0 <= i < |cache| && g < NUM_GROUPS ==>
        MeanImportance(importance, cache[i].layer, g) == m
    ensures ByImportance(cache, importance) == Entries(cache, importance)
  {
    var entries := Entries(cache, importance);
    EntryCount(cache, importance);
    forall e | e in entries ensures LeastImportantLast()(e) == -m {
      var i :| 0 <= i < |entries| && entries[i] == e;
      EntryAt(cache, importance, i);
    }
    SortConstant(entries, LeastImportantLast(), -m);
  }

  /** Then the suggestion lists each layer four times, the last layer first. */
  lemma {:induction false} SuggestedLayers(shapes: seq<Shape>, importance: Importance, m: real, k: nat)
    requires EquallyImportant(shapes, importance, m) && k < NUM_GROUPS * |shapes|
    ensures var dropped := LayersReversed(ByImportance(MeasureAll(shapes), importance));
            && |dropped| == NUM_GROUPS * |shapes|
            && dropped[k] == shapes[(NUM_GROUPS * |shapes| - 1 - k) / NUM_GROUPS].layer
  {
    OrderKept(MeasureAll(shapes), importance, m);
    EntryAt(MeasureAll(shapes), importance, NUM_GROUPS * |shapes| - 1 - k);
  }

  /** Dropping exactly the layers from position k on leaves the first k. */
  lemma {:induction false} RemainingPrefix(shapes: seq<Shape>, gone: seq<LayerId>, k: nat)
    requires k <= |shapes| && forall i :: 0 <= i < |shapes| ==> (shapes[i].layer in gone <==> i >= k)
    ensures Remaining(shapes, gone) == shapes[..k]
  {
    if shapes != [] {
      RemainingPrefix(shapes[1..], gone, if k > 0 then k - 1 else 0);
    }
  }

  lemma {:induction false} FirstSize(shapes: seq<Shape>, size: nat, k: nat)
    requires FourLayers(shapes, size) && k <= 4
    ensures EqualLayers(MeasureAll(shapes[..k]), size) && Elements(MeasureAll(shapes[..k])) == size * k
  {
    var cache := MeasureAll(shapes[..k]);
    forall i | 0 <= i < k ensures LayerElements(cache[i]) == size {
      MeasureTotal(shapes[i]);
    }
    EqualTotal(cache, size);
  }

  /** The first five entries name the last layer four times and the one before it once. */
  lemma {:induction false} FirstFive(shapes: seq<Shape>, size: nat, importance: Importance, m: real, n: nat)
    requires FourLayers(shapes, size) && EquallyImportant(shapes, importance, m) && 1 <= n <= 5
    ensures var dropped := LayersReversed(ByImportance(MeasureAll(shapes), importance));
            && |dropped| == 16 && (forall i :: 0 <= i < n ==> dropped[i].index == if i < 4 then 3 else 2)
            && Remaining(shapes, dropped[..n]) == shapes[..if n < 5 then 3 else 2]
  {
    var dropped := LayersReversed(ByImportance(MeasureAll(shapes), importance));
    forall i | 0 <= i < n ensures |dropped| == 16 && dropped[i].index == if i < 4 then 3 else 2 {
      SuggestedLayers(shapes, importance, m, i);
      assert (15 - i) / 4 == if i < 4 then 3 else 2;
    }
    SuggestedLayers(shapes, importance, m, 0);
    forall i | 0 <= i < 4 ensures shapes[i].layer in dropped[..n] <==> i >= (if n < 5 then 3 else 2) {
      if i == 3 {
        assert dropped[..n][0] == shapes[3].layer;
      } else if i == 2 && n == 5 {
        assert dropped[..n][4] == shapes[2].layer;
      }
    }
    RemainingPrefix(shapes, dropped[..n], if n < 5 then 3 else 2);
  }

  /**
    The drop loop reaching a wrong count.  Four equal and equally important layers with a budget of five quarter bytes
    per element of a layer: the allocation is infeasible, the shortest fitting prefix has five entries for two layers,
    so -1 layers are announced where two are left, and the second allocation is infeasible although INT4 fits.
   */
  lemma {:induction false} DropMiscounts(shapes: seq<Shape>, size: nat, importance: Importance, m: real,
                              useFidelity: bool, t: Turn, first: Result, n: nat)
    requires FourLayers(shapes, size) && size > 0 && EquallyImportant(shapes, importance, m)
    requires Allocated(MeasureAll(shapes), importance, (5 * size) as real, 4, useFidelity, first)
    requires ShortestFit(shapes, first.dropped, (5 * size) as real, n)
    requires Reallocated(t, shapes, importance, first.dropped, n, (5 * size) as real, 4, useFidelity)
    ensures !first.feasible && n == 5 && t.numLayers == -1 && t.shapes == shapes[..2] && !t.result.feasible
    ensures DistinctShapes(shapes) && Gone(first.dropped[..n]) <= LayersOf(shapes) && !Distinct(first.dropped[..n])
    ensures Int4Data(MeasureAll(t.shapes)) as real <= (5 * size) as real
  {
    FourInfeasible(shapes, size);
    Suggested(MeasureAll(shapes), importance, (5 * size) as real, 4, useFidelity, first);
    FiveFit(shapes, size, importance, m, n);
    FiveDropped(shapes, size, importance, m, first.dropped[..n]);
    StillInfeasible(shapes, size, t.importance, useFidelity, t.result);
  }

  /** Such a budget does occur: it is the sixty-second cap at `size / 48` bytes per second. */
  lemma {:induction false} FiveSizesReached(shapes: seq<Shape>, size: nat)
    requires FourLayers(shapes, size)
    ensures var cache := MeasureAll(shapes);
            BudgetAt(size as real / 48.0, Int4Data(cache), Int4Meta(cache)) == (5 * size) as real
  {
    FirstSize(shapes, size, 4);
    assert shapes[..4] == shapes;
  }

  lemma {:induction false} FiveDropped(shapes: seq<Shape>, size: nat, importance: Importance, m: real,
                              gone: seq<LayerId>)
    requires FourLayers(shapes, size) && EquallyImportant(shapes, importance, m)
    requires gone <= LayersReversed(ByImportance(MeasureAll(shapes), importance)) && |gone| == 5
    ensures Remaining(shapes, gone) == shapes[..2] && Gone(gone) <= LayersOf(shapes) && !Distinct(gone)
    ensures DistinctShapes(shapes)
  {
    FirstFive(shapes, size, importance, m, 5);
    assert gone == LayersReversed(ByImportance(MeasureAll(shapes), importance))[..5];
    assert gone[0] == gone[1];
    forall l | l in gone ensures l in LayersOf(shapes) {
      assert shapes[l.index] in shapes;
    }
  }

  /** With -1 layers announced the two layers left would need INT8. */
  lemma {:induction false} StillInfeasible(shapes: seq<Shape>, size: nat, importance: Importance, useFidelity: bool,
                              r: Result)
    requires FourLayers(shapes, size) && size > 0
    requires Allocated(MeasureAll(shapes[..2]), importance, (5 * size) as real, -1, useFidelity, r)
    ensures !r.feasible && Int4Data(MeasureAll(shapes[..2])) as real <= (5 * size) as real
  {
    FirstSize(shapes, size, 2);
    ReallocationExact(MeasureAll(shapes[..2]), (5 * size) as real, -1);
    Suggested(MeasureAll(shapes[..2]), importance, (5 * size) as real, -1, useFidelity, r);
  }

  /** Four of the entries are not enough, five are. */
  lemma {:induction false} FiveFit(shapes: seq<Shape>, size: nat, importance: Importance, m: real, n: nat)
    requires FourLayers(shapes, size) && size > 0 && EquallyImportant(shapes, importance, m)
    requires ShortestFit(shapes, LayersReversed(ByImportance(MeasureAll(shapes), importance)), (5 * size) as real, n)
    ensures n == 5
  {
    var dropped := LayersReversed(ByImportance(MeasureAll(shapes), importance));
    FirstSize(shapes, size, 2);
    FirstSize(shapes, size, 3);
    FirstFive(shapes, size, importance, m, 5);
    assert Int4Size(shapes, dropped[..5]) == 4 * size;
    if n < 5 {
      FirstFive(shapes, size, importance, m, n);
    }
  }

  lemma {:induction false} FourInfeasible(shapes: seq<Shape>, size: nat)
    requires FourLayers(shapes, size) && size > 0
    ensures !Feasible(MeasureAll(shapes), (5 * size) as real, 4)
  {
    FirstSize(shapes, size, 4);
    assert shapes[..4] == shapes;
    FeasibilityThreshold(MeasureAll(shapes), size, (5 * size) as real);
    FourLayersThird(size);
  }

  /** The one-third-split floor of four layers. */
  lemma {:induction false} FourLayersThird(size: nat)
    ensures size * ThirdUnits(4) == 11 * size
  {
    assert ThirdUnits(4) == 11;
    Commute(size, 11, ThirdUnits(4));
  }

  lemma {:induction false} Commute(a: nat, b: nat, c: nat)
    requires b == c
    ensures a * c == b * a
  {
  }

  /** What an infeasible budget makes the allocator return. */
  lemma {:induction false} Suggested(cache: Cache, importance: Importance, budget: real, numLayers: int,
                              useFidelity: bool, r: Result)
    requires Allocated(cache, importance, budget, numLayers, useFidelity, r) && !Feasible(cache, budget, numLayers)
    ensures !r.feasible && r.dropped == LayersReversed(ByImportance(cache, importance))
  {
  }
}

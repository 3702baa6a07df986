/** Who is served first when precision is scarce, and who is dropped first (backend/precision_allocator.py). */
module Priority {
  import opened Layers
  import opened PrecisionLevels
  import opened Sorting
  import opened Greedy
  import opened Allocator
  import opened Feasibility
  import opened Prefill

  /** The level a group ends at. */
  function LevelOf(levels: Levels, e: Entry): Precision
    requires Assigned([e], levels)
  {
    assert e in [e];
    levels[e.id.layer][e.id.group]
  }

  lemma {:induction false} EntryAssigned(cache: Cache, importance: Importance, levels: Levels, e: Entry)
    requires Covers(levels, cache) && e in Entries(cache, importance)
    ensures Assigned([e], levels)
  {
    EntriesWeight(cache, importance, levels);
  }

  lemma {:induction false} IndexIn(order: seq<Entry>, cache: Cache, importance: Importance, e: Entry) returns (k: nat)
    requires OrderOf(order, cache, importance) && e in Entries(cache, importance)
    ensures k < |order| && order[k] == e
  {
    assert e in multiset(order);
    k :| 0 <= k < |order| && order[k] == e;
  }

  /** Sorting puts the smaller key first. */
  lemma {:induction false} SmallerFirst(es: seq<Entry>, key: Entry -> real, i: nat, j: nat)
    requires i < |es| && j < |es| && key(Sort(es, key)[i]) < key(Sort(es, key)[j])
    ensures i < j
  {
    SortSorted(es, key);
  }

  /** Of two groups with the earlier one floored no lower and no larger, the earlier one ends no lower. */
  lemma {:induction false} EarlierGroup(order: seq<Entry>, floors: Levels, levels: Levels, budget: real, i: nat, j: nat)
    requires i < j < |order| && Greediest(order, floors, levels, budget)
    requires Assigned([order[i]], floors) && Assigned([order[j]], floors)
    requires Assigned([order[i]], levels) && Assigned([order[j]], levels)
    requires Rank(LevelOf(floors, order[j])) <= Rank(LevelOf(floors, order[i])) && order[i].size <= order[j].size
    ensures Rank(LevelOf(levels, order[j])) <= Rank(LevelOf(levels, order[i]))
  {
    EarlierNoLower(ItemsOf(order, floors), LevelsIn(order, levels), (budget + TOLERANCE).Floor, i, j);
  }

  // ---- Below the floors ----

  lemma {:induction false} ByImportanceFirst(cache: Cache, importance: Importance, i: nat, j: nat)
    requires var order := ByImportance(cache, importance);
             i < |order| && j < |order| && order[i].importance > order[j].importance
    ensures i < j
  {
    SmallerFirst(Entries(cache, importance), LeastImportantLast(), i, j);
  }

  /** Below the floors, a more important group that is no larger ends no lower. */
  lemma {:induction false} ImportantNoLower(cache: Cache, importance: Importance, budget: real, numLayers: int,
                              useFidelity: bool, r: Result, e: Entry, f: Entry)
    requires DistinctLayers(cache) && Allocated(cache, importance, budget, numLayers, useFidelity, r) && !r.feasible
    requires e in Entries(cache, importance) && f in Entries(cache, importance)
    requires e.importance > f.importance && e.size <= f.size
    ensures Assigned([e], r.precisions) && Assigned([f], r.precisions)
    ensures Rank(LevelOf(r.precisions, f)) <= Rank(LevelOf(r.precisions, e))
  {
    EntryAssigned(cache, importance, r.precisions, e);
    EntryAssigned(cache, importance, r.precisions, f);
    AllInt2(cache, importance, e);
    AllInt2(cache, importance, f);
    if Elements(cache) as real <= budget {
      var order := ByImportance(cache, importance);
      var i := IndexIn(order, cache, importance, e);
      var j := IndexIn(order, cache, importance, f);
      ByImportanceFirst(cache, importance, i, j);
      EarlierGroup(order, Uniform(cache, INT2), r.precisions, budget, i, j);
    }
  }

  lemma {:induction false} AllInt2(cache: Cache, importance: Importance, e: Entry)
    requires e in Entries(cache, importance)
    ensures Assigned([e], Uniform(cache, INT2)) && LevelOf(Uniform(cache, INT2), e) == INT2
  {
    EntriesValid(cache, importance);
    assert ValidId(cache, e.id);
    var i :| 0 <= i < |cache| && cache[i].layer == e.id.layer;
    assert cache[i] in cache;
  }

  // ---- Above the floors ----

  /** What a group at this level still lacks of full quality. */
  function Lacking(p: Precision): real {
    match p
    case FP16 => 0.0
    case INT8 => 0.001
    case INT4 => 0.01
    case INT2 => 0.15
  }

  /** A group's importance times what it lacks at its floor. */
  function Need(floors: Levels, e: Entry): real
    requires Assigned([e], floors)
  {
    e.importance * Lacking(LevelOf(floors, e))
  }

  lemma {:induction false} KeyIsNeed(e: Entry, floors: Levels)
    requires Assigned([e], floors)
    ensures LeastBenefitLast(floors, true)(e) == -Need(floors, e)
  {
    assert e in [e];
    assert Fidelity(FP16) - Fidelity(LevelOf(floors, e)) == Lacking(LevelOf(floors, e));
  }

  lemma {:induction false} NeedFirst(cache: Cache, importance: Importance, floors: Levels, order: seq<Entry>, i: nat,
                              j: nat)
    requires order == ByBenefit(cache, importance, floors, true) && i < |order| && j < |order|
    requires Assigned([order[i]], floors) && Assigned([order[j]], floors)
    requires Need(floors, order[i]) > Need(floors, order[j])
    ensures i < j
  {
    KeyIsNeed(order[i], floors);
    KeyIsNeed(order[j], floors);
    SmallerFirst(ByImportance(cache, importance), LeastBenefitLast(floors, true), i, j);
  }

  /**
    Above the floors, a group whose importance times what its floor lacks is larger ends no lower than another that has
    no higher floor and no smaller size.
   */
  lemma {:induction false} NeedyNoLower(cache: Cache, importance: Importance, budget: real, numLayers: int,
                              r: Result, floors: Levels, e: Entry, f: Entry)
    requires DistinctLayers(cache) && Allocated(cache, importance, budget, numLayers, true, r) && r.feasible
    requires e in Entries(cache, importance) && f in Entries(cache, importance) && e.size <= f.size
    requires floors == Floor(cache, budget, numLayers) && Assigned([e], floors) && Assigned([f], floors)
    requires Rank(LevelOf(floors, f)) <= Rank(LevelOf(floors, e)) && Need(floors, e) > Need(floors, f)
    ensures Assigned([e], r.precisions) && Assigned([f], r.precisions)
    ensures Rank(LevelOf(r.precisions, f)) <= Rank(LevelOf(r.precisions, e))
  {
    if Ample(cache, budget) {
      AllFp16(cache, importance, e);
      AllFp16(cache, importance, f);
    } else {
      TieredOnes(cache, importance, budget, numLayers, r);
      EntryAssigned(cache, importance, r.precisions, e);
      EntryAssigned(cache, importance, r.precisions, f);
      TieredNoLower(cache, importance, budget, floors, ByBenefit(cache, importance, floors, true), r.precisions, e, f);
    }
  }

  lemma {:induction false} TieredOnes(cache: Cache, importance: Importance, budget: real, numLayers: int, r: Result)
    requires Allocated(cache, importance, budget, numLayers, true, r) && r.feasible && !Ample(cache, budget)
    ensures var floors := Floor(cache, budget, numLayers);
            Covers(r.precisions, cache) &&
            Greediest(ByBenefit(cache, importance, floors, true), floors, r.precisions, budget)
  {
  }

  lemma {:induction false} TieredNoLower(cache: Cache, importance: Importance, budget: real, floors: Levels,
                              order: seq<Entry>, levels: Levels, e: Entry, f: Entry)
    requires e in Entries(cache, importance) && f in Entries(cache, importance) && e.size <= f.size
    requires Assigned([e], floors) && Assigned([f], floors) && Assigned([e], levels) && Assigned([f], levels)
    requires order == ByBenefit(cache, importance, floors, true) && Greediest(order, floors, levels, budget)
    requires Rank(LevelOf(floors, f)) <= Rank(LevelOf(floors, e)) && Need(floors, e) > Need(floors, f)
    ensures Rank(LevelOf(levels, f)) <= Rank(LevelOf(levels, e))
  {
    BenefitOrder(cache, importance, floors, true);
    var i := IndexIn(order, cache, importance, e);
    var j := IndexIn(order, cache, importance, f);
    NeedFirst(cache, importance, floors, order, i, j);
    EarlierGroup(order, floors, levels, budget, i, j);
  }

  lemma {:induction false} AllFp16(cache: Cache, importance: Importance, e: Entry)
    requires e in Entries(cache, importance)
    ensures Assigned([e], Uniform(cache, FP16)) && LevelOf(Uniform(cache, FP16), e) == FP16
  {
    EntriesValid(cache, importance);
    assert ValidId(cache, e.id);
    var i :| 0 <= i < |cache| && cache[i].layer == e.id.layer;
    assert cache[i] in cache;
  }

  // ---- What is suggested for dropping ----

  /** `dropped` names the layers of these groups, one by one, and the groups rise in importance. */
  ghost predicate NamesRising(dropped: seq<LayerId>, groups: seq<Entry>) {
    && |dropped| == |groups|
    && (forall i :: 0 <= i < |groups| ==> dropped[i] == groups[i].id.layer)
    && forall i, j :: 0 <= i < j < |groups| ==> groups[i].importance <= groups[j].importance
  }

  /** The list names the layers of all groups, least important group first. */
  lemma {:induction false} LeastImportantDroppedFirst(cache: Cache, importance: Importance, budget: real,
                              numLayers: int, useFidelity: bool, r: Result)
    returns (groups: seq<Entry>)
    requires Allocated(cache, importance, budget, numLayers, useFidelity, r) && !r.feasible
    ensures multiset(groups) == multiset(Entries(cache, importance)) && NamesRising(r.dropped, groups)
  {
    groups := Backwards(cache, importance, ByImportance(cache, importance));
  }

  lemma {:induction false} Backwards(cache: Cache, importance: Importance, order: seq<Entry>)
    returns (groups: seq<Entry>)
    requires order == ByImportance(cache, importance)
    ensures multiset(groups) == multiset(Entries(cache, importance)) && NamesRising(LayersReversed(order), groups)
  {
    groups := Reverse(order);
    ByImportanceFalls(cache, importance, order);
    ReverseRises(order);
  }

  lemma {:induction false} ReverseRises(order: seq<Entry>)
    requires forall i, j :: 0 <= i < j < |order| ==> order[i].importance >= order[j].importance
    ensures NamesRising(LayersReversed(order), Reverse(order))
  {
    var r := Reverse(order);
    forall i, j | 0 <= i < j < |r| ensures r[i].importance <= r[j].importance {
      assert r[i] == order[|order| - 1 - i] && r[j] == order[|order| - 1 - j];
    }
  }

  lemma {:induction false} ByImportanceFalls(cache: Cache, importance: Importance, order: seq<Entry>)
    requires order == ByImportance(cache, importance)
    ensures forall i, j :: 0 <= i < j < |order| ==> order[i].importance >= order[j].importance
  {
    forall i, j | 0 <= i < j < |order| ensures order[i].importance >= order[j].importance {
      if order[i].importance < order[j].importance { ByImportanceFirst(cache, importance, j, i); }
    }
  }

  function Reverse(es: seq<Entry>): (r: seq<Entry>)
    ensures multiset(r) == multiset(es) && |r| == |es|
    ensures forall i :: 0 <= i < |es| ==> r[i] == es[|es| - 1 - i]
  {
    if es == [] then []
    else
      assert es == [es[0]] + es[1..];
      Reverse(es[1..]) + [es[0]]
  }

  /** So a layer all of whose groups are less important than all of another's is named first, every time. */
  lemma {:induction false} LessImportantLayerFirst(cache: Cache, importance: Importance, dropped: seq<LayerId>, i: nat,
                              j: nat)
    requires dropped == LayersReversed(ByImportance(cache, importance)) && i < |dropped| && j < |dropped|
    requires Below(cache, importance, dropped[i], dropped[j])
    ensures i < j
  {
    var groups := Backwards(cache, importance, ByImportance(cache, importance));
    InGroups(groups, cache, importance, i);
    InGroups(groups, cache, importance, j);
  }

  lemma {:induction false} InGroups(groups: seq<Entry>, cache: Cache, importance: Importance, i: nat)
    requires multiset(groups) == multiset(Entries(cache, importance)) && i < |groups|
    ensures groups[i] in Entries(cache, importance)
  {
    assert groups[i] in multiset(groups);
  }

  /** Every group of layer `l` is less important than every group of layer `k`. */
  ghost predicate Below(cache: Cache, importance: Importance, l: LayerId, k: LayerId) {
    forall e, f :: (e in Entries(cache, importance) && f in Entries(cache, importance)
                    && e.id.layer == l && f.id.layer == k) ==> e.importance < f.importance
  }

  /** Where one of the first `n` entries names a layer, they name every layer that is below it as well. */
  lemma {:induction false} BelowGoesToo(shapes: seq<Shape>, importance: Importance, dropped: seq<LayerId>, n: nat,
                              l: LayerId, k: LayerId)
    requires DistinctShapes(shapes) && dropped == LayersReversed(ByImportance(MeasureAll(shapes), importance))
    requires n <= |dropped| && l in LayersOf(shapes) && k in dropped[..n]
    requires Below(MeasureAll(shapes), importance, l, k)
    ensures l in dropped[..n]
  {
    DroppedNamesAll(shapes, importance);
    assert l in Gone(dropped);
    var i :| 0 <= i < |dropped| && dropped[i] == l;
    var j :| 0 <= j < n && dropped[..n][j] == k;
    LessImportantLayerFirst(MeasureAll(shapes), importance, dropped, i, j);
    assert dropped[..n][i] == l;
  }

  /** Whatever the drop loop removes, no layer that is kept is below one that is lost. */
  lemma {:induction false} KeptNotBelowLost(shapes: seq<Shape>, importance: Importance, budget: real, numLayers: int,
                              useFidelity: bool, first: Result, n: nat, t: Turn, kept: Shape, lost: Shape)
    requires DistinctShapes(shapes) && !first.feasible && n <= |first.dropped|
    requires Allocated(MeasureAll(shapes), importance, budget, numLayers, useFidelity, first)
    requires Reallocated(t, shapes, importance, first.dropped, n, budget, numLayers, useFidelity)
    requires kept in t.shapes && lost in shapes && lost !in t.shapes
    ensures !Below(MeasureAll(shapes), importance, kept.layer, lost.layer)
  {
    RemainingMembers(shapes, first.dropped[..n]);
    assert kept.layer in LayersOf(shapes);
    SuggestedOrder(MeasureAll(shapes), importance, budget, numLayers, useFidelity, first);
    if Below(MeasureAll(shapes), importance, kept.layer, lost.layer) {
      BelowGoesToo(shapes, importance, first.dropped, n, kept.layer, lost.layer);
    }
  }

  lemma {:induction false} SuggestedOrder(cache: Cache, importance: Importance, budget: real, numLayers: int,
                              useFidelity: bool, r: Result)
    requires Allocated(cache, importance, budget, numLayers, useFidelity, r) && !r.feasible
    ensures r.dropped == LayersReversed(ByImportance(cache, importance))
  {
  }
}

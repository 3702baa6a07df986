/**
  The quality an allocation stands for, importance times fidelity summed over all groups, and how far the greedy
  upgrade can be from the best one (backend/precision_allocator.py).
 */
module Quality {
  import opened Layers
  import opened PrecisionLevels
  import opened Sorting
  import opened Greedy
  import opened Allocator
  import opened Feasibility
  import Seqs

  /** A group's importance times the fidelity of its level. */
  function Worth(levels: Levels): Entry -> real {
    (e: Entry) =>
      if e.id.layer in levels && e.id.group < |levels[e.id.layer]|
      then e.importance * Fidelity(levels[e.id.layer][e.id.group])
      else 0.0
  }

  function Value(cache: Cache, importance: Importance, levels: Levels): real {
    Seqs.Sum(Entries(cache, importance), Worth(levels))
  }

  ghost predicate NonNegativeScores(cache: Cache, importance: Importance) {
    forall e :: e in Entries(cache, importance) ==> e.importance >= 0.0
  }

  // ---- Any two allocations ----

  lemma {:induction false} SumAtLeast(es: seq<Entry>, f: Entry -> real, g: Entry -> real, c: real)
    requires forall e :: e in es ==> f(e) >= c * g(e)
    ensures Seqs.Sum(es, f) >= c * Seqs.Sum(es, g)
  {
    if es != [] {
      SumAtLeast(es[..|es| - 1], f, g, c);
      assert c * (Seqs.Sum(es[..|es| - 1], g) + g(es[|es| - 1]))
          == c * Seqs.Sum(es[..|es| - 1], g) + c * g(es[|es| - 1]);
    }
  }

  lemma {:induction false} WorthAtLeast(e: Entry, a: Levels, b: Levels)
    requires e.importance >= 0.0 && Assigned([e], a) && Assigned([e], b)
    ensures Worth(a)(e) >= 0.85 * Worth(b)(e)
  {
    assert e in [e];
    Scaled(e.importance, Fidelity(a[e.id.layer][e.id.group]), Fidelity(b[e.id.layer][e.id.group]));
  }

  lemma {:induction false} Scaled(x: real, p: real, q: real)
    requires x >= 0.0 && p >= 0.85 * q
    ensures x * p >= 0.85 * (x * q)
  {
    assert x * (p - 0.85 * q) >= 0.0;
  }

  lemma {:induction false} EachAtLeast(es: seq<Entry>, a: Levels, b: Levels)
    requires Assigned(es, a) && Assigned(es, b) && forall e :: e in es ==> e.importance >= 0.0
    ensures Seqs.Sum(es, Worth(a)) >= 0.85 * Seqs.Sum(es, Worth(b))
  {
    forall e | e in es ensures Worth(a)(e) >= 0.85 * Worth(b)(e) {
      WorthAtLeast(e, a, b);
    }
    SumAtLeast(es, Worth(a), Worth(b), 0.85);
  }

  /** No allocation at all is worth less than 85% of another. */
  lemma {:induction false} AnyTwo(cache: Cache, importance: Importance, a: Levels, b: Levels)
    requires NonNegativeScores(cache, importance) && Covers(a, cache) && Covers(b, cache)
    ensures Value(cache, importance, a) >= 0.85 * Value(cache, importance, b)
  {
    EntriesWeight(cache, importance, a);
    EntriesWeight(cache, importance, b);
    EachAtLeast(Entries(cache, importance), a, b);
  }

  /** What the allocator returns is worth at least 85%, and so half, of anything else, whether it fits or not. */
  lemma {:induction false} HalfOptimal(cache: Cache, importance: Importance, budget: real, numLayers: int,
                              useFidelity: bool, r: Result, best: Levels)
    requires NonNegativeScores(cache, importance) && DistinctLayers(cache)
    requires Allocated(cache, importance, budget, numLayers, useFidelity, r) && Covers(best, cache)
    ensures Value(cache, importance, r.precisions) >= 0.85 * Value(cache, importance, best)
    ensures 2.0 * Value(cache, importance, r.precisions) >= Value(cache, importance, best)
  {
    DataBound(cache, importance, budget, numLayers, useFidelity, r);
    AnyTwo(cache, importance, r.precisions, best);
    NonNegativeSum(Entries(cache, importance), Worth(best));
  }

  lemma {:induction false} NonNegativeSum(es: seq<Entry>, f: Entry -> real)
    ensures (forall e :: e in es ==> f(e) >= 0.0) ==> Seqs.Sum(es, f) >= 0.0
  {
    if es != [] { NonNegativeSum(es[..|es| - 1], f); }
  }

  // ---- The gain above the floors ----

  /** What an allocation is worth beyond the floors. */
  function Gain(cache: Cache, importance: Importance, floors: Levels, levels: Levels): real {
    Value(cache, importance, levels) - Value(cache, importance, floors)
  }

  /** No group is lower than in `floors`. */
  ghost predicate NoLower(cache: Cache, levels: Levels, floors: Levels)
    requires Covers(levels, cache) && Covers(floors, cache)
  {
    forall i, g :: 0 <= i < |cache| && 0 <= g < NUM_GROUPS ==>
      Rank(floors[cache[i].layer][g]) <= Rank(levels[cache[i].layer][g])
  }

  /** If the first group can go all the way up, it does. */
  lemma {:induction false} FirstGoesUp(items: seq<Item>, a: Assignment, cap: int)
    requires items != [] && LexMax(items, a, cap)
    requires Weight(items, Floors(items)[0 := FP16]) <= cap
    ensures a[0] == FP16
  {
    var b := Floors(items)[0 := FP16];
    assert Fits(items, b, cap);
    if b != a {
      var k :| 0 <= k < |a| && k < |b| && a[..k] == b[..k] && Rank(a[k]) > Rank(b[k]);
      assert k != 0;
      assert a[..k][0] == b[..k][0];
    }
  }

  /** A heavier assignment is the only other one above a given one. */
  lemma {:induction false} NothingElseFits(items: seq<Item>, a: Assignment, b: Assignment)
    requires |a| == |b| == |items| && forall i :: 0 <= i < |a| ==> Rank(b[i]) <= Rank(a[i]) && items[i].size > 0
    requires Weight(items, a) <= Weight(items, b)
    ensures a == b
  {
    if items != [] {
      WeightMonotone(items[1..], b[1..], a[1..]);
      DataStrict(items[0].size, b[0], a[0]);
      NothingElseFits(items[1..], a[1..], b[1..]);
      assert a == [a[0]] + a[1..] && b == [b[0]] + b[1..];
    }
  }

  lemma {:induction false} DataStrict(n: nat, p: Precision, q: Precision)
    requires n > 0 && Rank(p) <= Rank(q)
    ensures Data(n, p) <= Data(n, q) && (Data(n, p) == Data(n, q) ==> p == q)
  {
  }

  /** If the first group going all the way up uses up the budget, that is all that happens. */
  lemma {:induction false} OnlyFirst(items: seq<Item>, a: Assignment, cap: int)
    requires items != [] && LexMax(items, a, cap) && forall i :: 0 <= i < |items| ==> items[i].size > 0
    requires Weight(items, Floors(items)[0 := FP16]) == cap
    ensures a == Floors(items)[0 := FP16]
  {
    FirstGoesUp(items, a, cap);
    NothingElseFits(items, a, Floors(items)[0 := FP16]);
  }

  lemma {:induction false} SumChangedFirst(es: seq<Entry>, f: Entry -> real, g: Entry -> real)
    requires es != [] && forall i :: 0 < i < |es| ==> f(es[i]) == g(es[i])
    ensures Seqs.Sum(es, f) - Seqs.Sum(es, g) == f(es[0]) - g(es[0])
  {
    if |es| > 1 { SumChangedFirst(es[..|es| - 1], f, g); }
    else { assert es[..0] == []; }
  }

  // ---- Where the gain is less than half of what fits ----

  /** Layers 0, 1 and 2, of four groups of `n` elements each, all groups with the same score `m`. */
  ghost predicate ThreeAlike(cache: Cache, n: nat, importance: Importance, m: real) {
    && |cache| == 3
    && (forall i :: 0 <= i < 3 ==> cache[i].layer.index == i && cache[i].elements == [n, n, n, n])
    && forall i, g: nat :: 0 <= i < 3 && g < NUM_GROUPS ==> MeanImportance(importance, cache[i].layer, g) == m
  }

  function FloorOf(i: nat): Precision {
    if i == 0 then INT8 else if i == 1 then INT4 else INT2
  }

  lemma {:induction false} AlikeFloors(cache: Cache, n: nat, importance: Importance, m: real)
    requires ThreeAlike(cache, n, importance, m) && n > 0
    ensures var floors := Floor(cache, (35 * n) as real, 3);
            && (forall i :: 0 <= i < 3 ==>
                  floors[cache[i].layer] == [FloorOf(i), FloorOf(i), FloorOf(i), FloorOf(i)])
            && DataBytes(cache, floors) == 28 * n
    ensures !Ample(cache, (35 * n) as real) && !BelowFloor(cache, (35 * n) as real, 3)
  {
    var c := CompressionNeeded(FP16Total(cache), (35 * n) as real);
    ThreeSums(cache, n);
    TierMeaning(FP16Total(cache), (35 * n) as real);
    forall i | 0 <= i < 3 ensures MinPrecision(cache[i].layer, 3, c) == FloorOf(i) {}
    forall i | 0 <= i < 3
      ensures FloorMap(cache, 3, c)[cache[i].layer] == [FloorOf(i), FloorOf(i), FloorOf(i), FloorOf(i)]
    {
      FloorAt(cache, 3, c, i);
    }
    ThreeData(cache, n, FloorMap(cache, 3, c));
  }

  lemma {:induction false} ThreeSums(cache: Cache, n: nat)
    requires |cache| == 3 && forall i :: 0 <= i < 3 ==> cache[i].elements == [n, n, n, n]
    ensures Elements(cache) == 12 * n
  {
    assert cache[1..][1..] == cache[2..] && cache[2..][1..] == [];
    assert cache[1..][0] == cache[1] && cache[2..][0] == cache[2];
    assert Elements(cache) == LayerElements(cache[0]) + Elements(cache[1..]);
    assert Elements(cache[1..]) == LayerElements(cache[1]) + Elements(cache[2..]);
    assert Elements(cache[2..]) == LayerElements(cache[2]) + Elements([]);
  }

  lemma {:induction false} ThreeData(cache: Cache, n: nat, levels: Levels)
    requires |cache| == 3 && Covers(levels, cache)
    ensures DataBytes(cache, levels) ==
            LayerData(cache[0], levels[cache[0].layer]) + LayerData(cache[1], levels[cache[1].layer]) +
            LayerData(cache[2], levels[cache[2].layer])
  {
    assert cache[1..][1..] == cache[2..] && cache[2..][1..] == [];
    assert cache[1..][0] == cache[1] && cache[2..][0] == cache[2];
    assert DataBytes(cache, levels) == LayerData(cache[0], levels[cache[0].layer]) + DataBytes(cache[1..], levels);
    assert DataBytes(cache[1..], levels)
        == LayerData(cache[1], levels[cache[1].layer]) + DataBytes(cache[2..], levels);
    assert DataBytes(cache[2..], levels) == LayerData(cache[2], levels[cache[2].layer]) + DataBytes([], levels);
  }

  /** Each entry of such a cache. */
  lemma {:induction false} AlikeEntry(cache: Cache, n: nat, importance: Importance, m: real, e: Entry) returns (i: nat)
    requires ThreeAlike(cache, n, importance, m) && e in Entries(cache, importance)
    ensures i < 3 && e.id.layer == cache[i].layer && e.id.group < NUM_GROUPS
    ensures e.size == n && e.importance == m
  {
    EntryOrigin(cache, importance, e);
    var j, g: nat :| 0 <= j < |cache| && g < NUM_GROUPS && e == EntryOf(cache[j], importance, g);
    i := j;
  }

  lemma {:induction false} EntryOrigin(cache: Cache, importance: Importance, e: Entry)
    requires e in Entries(cache, importance)
    ensures exists i, g: nat :: 0 <= i < |cache| && g < NUM_GROUPS && e == EntryOf(cache[i], importance, g)
  {
    if e in LayerEntries(cache[0], importance) {
      var g :| 0 <= g < NUM_GROUPS && LayerEntries(cache[0], importance)[g] == e;
      assert e == EntryOf(cache[0], importance, g);
    } else {
      EntryOrigin(cache[1..], importance, e);
      var i, g: nat :| 0 <= i < |cache[1..]| && g < NUM_GROUPS && e == EntryOf(cache[1..][i], importance, g);
      assert e == EntryOf(cache[i + 1], importance, g);
    }
  }

  ghost predicate AtFloors(cache: Cache, floors: Levels) {
    && |cache| == 3
    && (forall i :: 0 <= i < 3 ==> cache[i].layer in floors)
    && (forall i :: 0 <= i < 3 ==> floors[cache[i].layer] == [FloorOf(i), FloorOf(i), FloorOf(i), FloorOf(i)])
  }

  lemma {:induction false} SameMembers(cache: Cache, importance: Importance, floors: Levels)
    ensures forall e :: e in ByBenefit(cache, importance, floors, true) <==> e in Entries(cache, importance)
  {
    SortMembers(ByImportance(cache, importance), LeastBenefitLast(floors, true));
    SortMembers(Entries(cache, importance), LeastImportantLast());
  }

  lemma {:induction false} SomeOfLast(cache: Cache, n: nat, importance: Importance, m: real) returns (e: Entry)
    requires ThreeAlike(cache, n, importance, m)
    ensures e in Entries(cache, importance) && e.id == GroupId(cache[2].layer, 0) && e.importance == m
  {
    EntriesValid(cache, importance);
    e := EntryOf(cache[2], importance, 0);
  }

  /** The group with the most to gain comes from the last layer. */
  lemma {:induction false} FirstInOrder(cache: Cache, n: nat, importance: Importance, m: real, floors: Levels,
                              order: seq<Entry>)
    requires ThreeAlike(cache, n, importance, m) && m > 0.0 && AtFloors(cache, floors)
    requires order == ByBenefit(cache, importance, floors, true)
    ensures order != [] && order[0].importance == m && Assigned(order[..1], floors)
    ensures order[0].id.layer == cache[2].layer && LevelsIn(order[..1], floors) == [INT2]
  {
    SameMembers(cache, importance, floors);
    var e := SomeOfLast(cache, n, importance, m);
    assert e in order;
    SmallestFirst(ByImportance(cache, importance), LeastBenefitLast(floors, true), e);
    var first := order[0];
    assert first in order;
    var i := AlikeEntry(cache, n, importance, m, first);
    LevelAt(cache, floors, i, first);
    LevelAt(cache, floors, 2, e);
    MostToGain(floors, first, e, m, FloorOf(i));
    JustFirst(order, floors);
  }

  lemma {:induction false} LevelAt(cache: Cache, floors: Levels, i: nat, e: Entry)
    requires AtFloors(cache, floors) && i < 3 && e.id.layer == cache[i].layer && e.id.group < NUM_GROUPS
    ensures e.id.layer in floors && e.id.group < |floors[e.id.layer]|
    ensures floors[e.id.layer][e.id.group] == FloorOf(i)
  {
  }

  lemma {:induction false} JustFirst(order: seq<Entry>, floors: Levels)
    requires order != [] && order[0].id.layer in floors && order[0].id.group < |floors[order[0].id.layer]|
    ensures Assigned(order[..1], floors)
    ensures LevelsIn(order[..1], floors) == [floors[order[0].id.layer][order[0].id.group]]
  {
    assert order[..1] == [order[0]];
  }

  lemma {:induction false} SmallestFirst(es: seq<Entry>, key: Entry -> real, e: Entry)
    requires e in Sort(es, key)
    ensures key(Sort(es, key)[0]) <= key(e)
  {
    SortSorted(es, key);
    var k :| 0 <= k < |es| && Sort(es, key)[k] == e;
  }

  lemma {:induction false} MostToGain(floors: Levels, first: Entry, e: Entry, m: real, p: Precision)
    requires first.id.layer in floors && first.id.group < |floors[first.id.layer]|
    requires floors[first.id.layer][first.id.group] == p && first.importance == m
    requires e.id.layer in floors && e.id.group < |floors[e.id.layer]|
    requires floors[e.id.layer][e.id.group] == INT2 && e.importance == m && m > 0.0
    requires LeastBenefitLast(floors, true)(first) <= LeastBenefitLast(floors, true)(e)
    ensures p == INT2
  {
    BenefitByFloor(floors, first, m, p);
    BenefitByFloor(floors, e, m, INT2);
  }

  lemma {:induction false} BenefitByFloor(floors: Levels, e: Entry, m: real, p: Precision)
    requires e.id.layer in floors && e.id.group < |floors[e.id.layer]| && floors[e.id.layer][e.id.group] == p
    requires e.importance == m
    ensures LeastBenefitLast(floors, true)(e) == -(m * (1.0 - Fidelity(p)))
  {
  }

  lemma {:induction false} AlikeItems(cache: Cache, n: nat, importance: Importance, m: real, floors: Levels,
                              order: seq<Entry>)
    requires ThreeAlike(cache, n, importance, m) && OrderOf(order, cache, importance)
    requires Covers(floors, cache) && DataBytes(cache, floors) == 28 * n
    ensures Assigned(order, floors) && forall e :: e in order <==> e in Entries(cache, importance)
    ensures forall i :: 0 <= i < |order| ==> ItemsOf(order, floors)[i].size == n
    ensures Weight(ItemsOf(order, floors), Floors(ItemsOf(order, floors))) == 28 * n
  {
    EntriesWeight(cache, importance, floors);
    forall e ensures e in order <==> e in Entries(cache, importance) {
      assert e in multiset(order) <==> e in multiset(Entries(cache, importance));
    }
    forall i | 0 <= i < |order| ensures order[i].size == n {
      assert order[i] in order;
      var _ := AlikeEntry(cache, n, importance, m, order[i]);
    }
    WeightOfPermuted(Entries(cache, importance), order, floors);
    WeightIn(order, floors, floors);
    assert LevelsIn(order, floors) == Floors(ItemsOf(order, floors));
  }

  /** The greedy upgrade spends everything on the first group. */
  lemma {:induction false} SpentOnFirst(items: seq<Item>, a: Assignment, n: nat, budget: real)
    requires items != [] && items[0].floor == INT2 && n > 0 && budget == (35 * n) as real
    requires forall i :: 0 <= i < |items| ==> items[i].size == n
    requires Weight(items, Floors(items)) == 28 * n && LexMax(items, a, (budget + TOLERANCE).Floor)
    ensures a == Floors(items)[0 := FP16]
  {
    assert (budget + TOLERANCE).Floor == 35 * n;
    WeightUpdate(items, Floors(items), 0, FP16);
    OnlyFirst(items, a, 35 * n);
  }

  /** One group of the last layer rises from INT2 to FP16. */
  lemma {:induction false} GreedyGain(cache: Cache, importance: Importance, m: real, floors: Levels, levels: Levels,
                              order: seq<Entry>)
    requires OrderOf(order, cache, importance) && Assigned(order, floors) && Assigned(order, levels)
    requires order != [] && order[0].importance == m
    requires LevelsIn(order, levels) == LevelsIn(order, floors)[0 := FP16] && LevelsIn(order, floors)[0] == INT2
    ensures Gain(cache, importance, floors, levels) == 0.15 * m
  {
    var none := (e: Entry) => false;
    Seqs.SumPermuted(order, Entries(cache, importance), Worth(levels), none);
    Seqs.SumPermuted(order, Entries(cache, importance), Worth(floors), none);
    FirstRises(order, m, floors, levels);
  }

  lemma {:induction false} WorthIn(order: seq<Entry>, levels: Levels)
    requires Assigned(order, levels)
    ensures forall i :: 0 <= i < |order| ==>
              Worth(levels)(order[i]) == order[i].importance * Fidelity(LevelsIn(order, levels)[i])
  {
    forall i | 0 <= i < |order|
      ensures Worth(levels)(order[i]) == order[i].importance * Fidelity(LevelsIn(order, levels)[i])
    {
      assert order[i] in order;
    }
  }

  lemma {:induction false} FirstRises(order: seq<Entry>, m: real, floors: Levels, levels: Levels)
    requires Assigned(order, floors) && Assigned(order, levels) && order != [] && order[0].importance == m
    requires LevelsIn(order, levels) == LevelsIn(order, floors)[0 := FP16] && LevelsIn(order, floors)[0] == INT2
    ensures Seqs.Sum(order, Worth(levels)) - Seqs.Sum(order, Worth(floors)) == 0.15 * m
  {
    WorthIn(order, floors);
    WorthIn(order, levels);
    SumChangedFirst(order, Worth(levels), Worth(floors));
  }

  lemma {:induction false} SumSame(es: seq<Entry>, f: Entry -> real, g: Entry -> real)
    requires forall i :: 0 <= i < |es| ==> f(es[i]) == g(es[i])
    ensures Seqs.Sum(es, f) == Seqs.Sum(es, g)
  {
    if es != [] { SumSame(es[..|es| - 1], f, g); }
  }

  lemma {:induction false} SumOfFourEntries(es: seq<Entry>, f: Entry -> real)
    requires |es| == 4
    ensures Seqs.Sum(es, f) == f(es[0]) + f(es[1]) + f(es[2]) + f(es[3])
  {
    assert es[..3][..2] == es[..2] && es[..2][..1] == es[..1] && es[..1][..0] == [];
    assert Seqs.Sum(es, f) == Seqs.Sum(es[..3], f) + f(es[3]);
    assert Seqs.Sum(es[..3], f) == Seqs.Sum(es[..2], f) + f(es[2]);
    assert Seqs.Sum(es[..2], f) == Seqs.Sum(es[..1], f) + f(es[1]);
    assert Seqs.Sum(es[..1], f) == 0.0 + f(es[0]);
  }

  lemma {:induction false} ValueByLayer(cache: Cache, importance: Importance, levels: Levels)
    requires |cache| == 3
    ensures Value(cache, importance, levels) ==
            Seqs.Sum(LayerEntries(cache[0], importance), Worth(levels)) +
            Seqs.Sum(LayerEntries(cache[1], importance), Worth(levels)) +
            Seqs.Sum(LayerEntries(cache[2], importance), Worth(levels))
  {
    var none := (e: Entry) => false;
    var a, b, c := LayerEntries(cache[0], importance), LayerEntries(cache[1], importance),
                   LayerEntries(cache[2], importance);
    assert cache[1..][0] == cache[1] && cache[1..][1..] == cache[2..];
    assert cache[2..][0] == cache[2] && cache[2..][1..] == [];
    assert Entries(cache[2..], importance) == c + [];
    assert Entries(cache, importance) == a + (b + c);
    Seqs.SumConcat(a, b + c, Worth(levels), none);
    Seqs.SumConcat(b, c, Worth(levels), none);
  }

  /** All groups of the last layer rise from INT2 to INT4. */
  lemma {:induction false} BetterGain(cache: Cache, n: nat, importance: Importance, m: real, floors: Levels,
                              better: Levels)
    requires ThreeAlike(cache, n, importance, m) && AtFloors(cache, floors)
    requires better == floors[cache[2].layer := [INT4, INT4, INT4, INT4]]
    ensures Gain(cache, importance, floors, better) == 0.56 * m
  {
    ValueByLayer(cache, importance, floors);
    ValueByLayer(cache, importance, better);
    assert cache[0].layer != cache[2].layer && cache[1].layer != cache[2].layer;
    SumSame(LayerEntries(cache[0], importance), Worth(floors), Worth(better));
    SumSame(LayerEntries(cache[1], importance), Worth(floors), Worth(better));
    LastLayerWorth(cache[2], importance, m, floors, INT2);
    LastLayerWorth(cache[2], importance, m, better, INT4);
  }

  lemma {:induction false} LastLayerWorth(s: Sized, importance: Importance, m: real, levels: Levels, p: Precision)
    requires s.layer in levels && levels[s.layer] == [p, p, p, p]
    requires forall g: nat :: g < NUM_GROUPS ==> MeanImportance(importance, s.layer, g) == m
    ensures Seqs.Sum(LayerEntries(s, importance), Worth(levels)) == 4.0 * (m * Fidelity(p))
  {
    SumOfFourEntries(LayerEntries(s, importance), Worth(levels));
    WorthOfGroup(s, importance, m, levels, p, 0);
    WorthOfGroup(s, importance, m, levels, p, 1);
    WorthOfGroup(s, importance, m, levels, p, 2);
    WorthOfGroup(s, importance, m, levels, p, 3);
  }

  lemma {:induction false} WorthOfGroup(s: Sized, importance: Importance, m: real, levels: Levels, p: Precision, g: nat)
    requires s.layer in levels && levels[s.layer] == [p, p, p, p] && g < NUM_GROUPS
    requires MeanImportance(importance, s.layer, g) == m
    ensures Worth(levels)(LayerEntries(s, importance)[g]) == m * Fidelity(p)
  {
  }

  /**
    The gain above the floors is another matter.  Three equal layers of equally important groups, with a budget of 35
    quarter bytes per element of a group: the floors take 28, and the greedy upgrade spends the other 7 on taking one
    group from INT2 to FP16.  Taking the four groups of that layer to INT4 would cost 4 and gain more than three times
    as much.
   */
  lemma {:induction false} GainFallsShort(cache: Cache, n: nat, importance: Importance, m: real, r: Result)
    returns (better: Levels)
    requires ThreeAlike(cache, n, importance, m) && n > 0 && m > 0.0
    requires Allocated(cache, importance, (35 * n) as real, 3, true, r)
    ensures var floors := Floor(cache, (35 * n) as real, 3);
            && r.feasible && Covers(better, cache) && DataBytes(cache, better) == 32 * n
            && Covers(floors, cache) && NoLower(cache, better, floors)
            && Gain(cache, importance, floors, better) == 0.56 * m
            && Gain(cache, importance, floors, r.precisions) == 0.15 * m
  {
    var floors := Floor(cache, (35 * n) as real, 3);
    AlikeFloors(cache, n, importance, m);
    better := floors[cache[2].layer := [INT4, INT4, INT4, INT4]];
    BetterFits(cache, n, importance, m, floors, better);
    BetterGain(cache, n, importance, m, floors, better);
    TakenFirst(cache, n, importance, m, floors, r.precisions);
  }

  lemma {:induction false} BetterFits(cache: Cache, n: nat, importance: Importance, m: real, floors: Levels,
                              better: Levels)
    requires ThreeAlike(cache, n, importance, m) && AtFloors(cache, floors)
    requires better == floors[cache[2].layer := [INT4, INT4, INT4, INT4]]
    ensures Covers(better, cache) && DataBytes(cache, better) == 32 * n
    ensures Covers(floors, cache) && NoLower(cache, better, floors)
  {
    assert cache[0].layer != cache[2].layer && cache[1].layer != cache[2].layer;
    ThreeData(cache, n, better);
  }

  lemma {:induction false} TakenFirst(cache: Cache, n: nat, importance: Importance, m: real, floors: Levels,
                              levels: Levels)
    requires ThreeAlike(cache, n, importance, m) && n > 0 && m > 0.0 && AtFloors(cache, floors)
    requires Covers(floors, cache) && DataBytes(cache, floors) == 28 * n
    requires Greediest(ByBenefit(cache, importance, floors, true), floors, levels, (35 * n) as real)
    ensures Gain(cache, importance, floors, levels) == 0.15 * m
  {
    var order := ByBenefit(cache, importance, floors, true);
    BenefitOrder(cache, importance, floors, true);
    AlikeItems(cache, n, importance, m, floors, order);
    FirstInOrder(cache, n, importance, m, floors, order);
    SpentGain(cache, n, importance, m, floors, levels, order);
  }

  lemma {:induction false} SpentGain(cache: Cache, n: nat, importance: Importance, m: real, floors: Levels,
                              levels: Levels, order: seq<Entry>)
    requires n > 0 && order != [] && order[0].importance == m && OrderOf(order, cache, importance)
    requires Greediest(order, floors, levels, (35 * n) as real) && LevelsIn(order[..1], floors) == [INT2]
    requires forall i :: 0 <= i < |order| ==> ItemsOf(order, floors)[i].size == n
    requires Weight(ItemsOf(order, floors), Floors(ItemsOf(order, floors))) == 28 * n
    ensures Gain(cache, importance, floors, levels) == 0.15 * m
  {
    assert LevelsIn(order[..1], floors)[0] == LevelsIn(order, floors)[0];
    SpentOnFirst(ItemsOf(order, floors), LevelsIn(order, levels), n, (35 * n) as real);
    assert LevelsIn(order, floors) == Floors(ItemsOf(order, floors));
    GreedyGain(cache, importance, m, floors, levels, order);
  }

  /** Such caches exist: three layers of four tokens with ten numbers per key and per value, without scores. */
  lemma {:induction false} ThreeLayersOfFour() returns (shapes: seq<Shape>)
    ensures |shapes| == 3 && forall i :: 0 <= i < 3 ==> shapes[i] == Shape(LayerId(i), 4, 10, 10, 5)
    ensures ThreeAlike(MeasureAll(shapes), 20, map[], 0.5)
  {
    shapes := [Shape(LayerId(0), 4, 10, 10, 5), Shape(LayerId(1), 4, 10, 10, 5), Shape(LayerId(2), 4, 10, 10, 5)];
    forall i | 0 <= i < 3 ensures MeasureAll(shapes)[i].elements == [20, 20, 20, 20] {
      assert MeasureAll(shapes)[i] == Measure(shapes[i]);
      assert GroupSize(4, 0) == GroupSize(4, 1) == GroupSize(4, 2) == GroupSize(4, 3) == 1;
    }
  }
}

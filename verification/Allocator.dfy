/**
  Precision allocation under a byte budget (backend/precision_allocator.py).  Sizes and budgets are in quarter
  bytes, so that the four levels cost 8, 4, 2 and 1 per element.
 */
module Allocator {
  import opened Layers
  import opened PrecisionLevels
  import opened Reals
  import opened Seqs
  import opened Sorting
  import opened Greedy

  /** Tensor sizes of one layer of the KV cache. */
  datatype Shape = Shape(layer: LayerId, seqLen: nat, kPerToken: nat, vPerToken: nat, headDim: nat)

  /** One number per token group. */
  type PerGroup = x: seq<nat> | |x| == NUM_GROUPS witness [0, 0, 0, 0]

  /** A layer cut into groups: elements of each, and bytes of scales and zero points if it is INT4 or INT2. */
  datatype Sized = Sized(layer: LayerId, elements: PerGroup, scales: PerGroup)

  type Cache = seq<Sized>

  datatype GroupId = GroupId(layer: LayerId, group: nat)

  /** One token group competing for precision. */
  datatype Entry = Entry(importance: real, id: GroupId, size: nat)

  type Levels = map<LayerId, seq<Precision>>

  datatype Result = Result(precisions: Levels, totalBytes: nat, compression: real, feasible: bool, forcedInt2: bool,
                           dropped: seq<LayerId>)

  /** The comparison slack, 1e-6 bytes. */
  const TOLERANCE: real := 0.000004

  /** One byte. */
  const BYTE: real := 4.0

  ghost predicate DistinctLayers(cache: Cache) {
    forall i, j :: 0 <= i < j < |cache| ==> cache[i].layer != cache[j].layer
  }

  // ---- Cutting layers into groups ----

  function PerToken(s: Shape): nat {
    s.kPerToken + s.vPerToken
  }

  /** Metadata of an INT4 or INT2 group: (head_dim + group tokens) * 4 bytes. */
  function Measure(s: Shape): Sized {
    Sized(s.layer,
          seq(NUM_GROUPS, g requires 0 <= g < NUM_GROUPS => GroupSize(s.seqLen, g) * PerToken(s)),
          seq(NUM_GROUPS, g requires 0 <= g < NUM_GROUPS => (s.headDim + GroupSize(s.seqLen, g)) * 16))
  }

  function MeasureAll(shapes: seq<Shape>): (cache: Cache)
    ensures |cache| == |shapes| && forall i :: 0 <= i < |cache| ==> cache[i].layer == shapes[i].layer
  {
    seq(|shapes|, i requires 0 <= i < |shapes| => Measure(shapes[i]))
  }

  /** Elements of a layer's key and value tensors. */
  function Numel(s: Shape): nat {
    s.seqLen * s.kPerToken + s.seqLen * s.vPerToken
  }

  /** The groups of a layer together hold exactly the layer's elements. */
  lemma {:induction false} MeasureTotal(s: Shape)
    ensures LayerElements(Measure(s)) == Numel(s)
  {
    GroupsTile(s.seqLen);
    Distribute4(GroupSize(s.seqLen, 0), GroupSize(s.seqLen, 1), GroupSize(s.seqLen, 2), GroupSize(s.seqLen, 3),
      PerToken(s));
    assert s.seqLen * PerToken(s) == Numel(s);
  }

  lemma {:induction false} Distribute4(a: nat, b: nat, c: nat, d: nat, k: nat)
    ensures a * k + b * k + c * k + d * k == (a + b + c + d) * k
  {
  }

  function Numels(shapes: seq<Shape>): nat {
    if shapes == [] then 0 else Numel(shapes[0]) + Numels(shapes[1..])
  }

  /** Nothing is lost or counted twice when a whole cache is cut into groups. */
  lemma {:induction false} MeasureAllTotal(shapes: seq<Shape>)
    ensures Elements(MeasureAll(shapes)) == Numels(shapes)
  {
    if shapes != [] {
      MeasureTotal(shapes[0]);
      MeasureAllTotal(shapes[1..]);
      assert MeasureAll(shapes)[1..] == MeasureAll(shapes[1..]);
    }
  }

  // ---- Sizes ----

  function LayerElements(s: Sized): nat {
    s.elements[0] + s.elements[1] + s.elements[2] + s.elements[3]
  }

  function Elements(cache: Cache): nat {
    if cache == [] then 0 else LayerElements(cache[0]) + Elements(cache[1..])
  }

  function LayerData(s: Sized, levels: seq<Precision>): nat
    requires |levels| == NUM_GROUPS
  {
    Data(s.elements[0], levels[0]) + Data(s.elements[1], levels[1]) +
    Data(s.elements[2], levels[2]) + Data(s.elements[3], levels[3])
  }

  ghost predicate Covers(levels: Levels, cache: Cache) {
    forall i :: 0 <= i < |cache| ==> cache[i].layer in levels && |levels[cache[i].layer]| == NUM_GROUPS
  }

  /** Bytes of tensor data that a precision map stands for. */
  function DataBytes(cache: Cache, levels: Levels): nat
    requires Covers(levels, cache)
  {
    if cache == [] then 0 else LayerData(cache[0], levels[cache[0].layer]) + DataBytes(cache[1..], levels)
  }

  function GroupMeta(s: Sized, g: nat, p: Precision): nat
    requires g < NUM_GROUPS
  {
    if p.INT4? || p.INT2? then s.scales[g] else 0
  }

  function LayerMeta(s: Sized, levels: seq<Precision>): nat
    requires |levels| == NUM_GROUPS
  {
    GroupMeta(s, 0, levels[0]) + GroupMeta(s, 1, levels[1]) + GroupMeta(s, 2, levels[2]) + GroupMeta(s, 3, levels[3])
  }

  function MetaBytes(cache: Cache, levels: Levels): nat
    requires Covers(levels, cache)
  {
    if cache == [] then 0 else LayerMeta(cache[0], levels[cache[0].layer]) + MetaBytes(cache[1..], levels)
  }

  method TotalBytes(shapes: seq<Shape>, p: Precision) returns (total: nat)
    ensures total == Data(Elements(MeasureAll(shapes)), p)
  {
    total := 0;
    for i := 0 to |shapes|
      invariant total + Data(Numels(shapes[i..]), p) == Data(Numels(shapes), p)
    {
      assert shapes[i..][1..] == shapes[i + 1..];
      total := total + Data(shapes[i].seqLen * shapes[i].kPerToken + shapes[i].seqLen * shapes[i].vPerToken, p);
    }
    MeasureAllTotal(shapes);
  }

  // ---- Floors ----

  /** FP16 size over budget; a budget under one byte counts as one byte. */
  function CompressionNeeded(total: nat, budget: real): real {
    total as real / Max(budget, BYTE)
  }

  /** Lowest precision a layer may have; the split tightens as more compression is needed. */
  function MinPrecision(layer: LayerId, numLayers: int, compression: real): Precision {
    if numLayers <= 0 then INT8
    else
      var (int8, int4) :=
        if compression > 8.0 then (1.0 / 6.0, 3.0 / 6.0)
        else if compression > 4.0 then (0.25, 0.50)
        else (1.0 / 3.0, 2.0 / 3.0);
      if layer.index as real < numLayers as real * int8 then INT8
      else if layer.index as real < numLayers as real * int4 then INT4
      else INT2
  }

  function Uniform(cache: Cache, p: Precision): (levels: Levels)
    ensures Covers(levels, cache)
  {
    var keys := set s | s in cache :: s.layer;
    map l | l in keys :: [p, p, p, p]
  }

  function FloorMap(cache: Cache, numLayers: int, compression: real): (levels: Levels)
    ensures Covers(levels, cache)
  {
    var keys := set s | s in cache :: s.layer;
    map l | l in keys :: var p := MinPrecision(l, numLayers, compression); [p, p, p, p]
  }

  /** Data bytes with every group at its layer's minimum. */
  method MinFloor(cache: Cache, numLayers: int, compression: real) returns (floor: nat)
    ensures floor == DataBytes(cache, FloorMap(cache, numLayers, compression))
  {
    floor := 0;
    ghost var floors := FloorMap(cache, numLayers, compression);
    for i := 0 to |cache|
      invariant floor + DataBytes(cache[i..], floors) == DataBytes(cache, floors)
    {
      assert cache[i..][1..] == cache[i + 1..];
      FloorAt(cache, numLayers, compression, i);
      var part := UniformLayerData(cache[i], MinPrecision(cache[i].layer, numLayers, compression));
      floor := floor + part;
    }
  }

  lemma {:induction false} FloorAt(cache: Cache, numLayers: int, compression: real, i: nat)
    requires i < |cache|
    ensures var p := MinPrecision(cache[i].layer, numLayers, compression);
            cache[i].layer in FloorMap(cache, numLayers, compression) &&
            FloorMap(cache, numLayers, compression)[cache[i].layer] == [p, p, p, p]
  {
    assert cache[i] in cache;
  }

  method UniformLayerData(s: Sized, p: Precision) returns (bytes: nat)
    ensures bytes == LayerData(s, [p, p, p, p]) == Data(LayerElements(s), p)
  {
    bytes := 0;
    for g := 0 to NUM_GROUPS
      invariant bytes == Data(SumTo(s.elements, g), p)
    {
      bytes := bytes + Data(s.elements[g], p);
    }
    SumOfFour(s.elements);
  }

  lemma {:induction false} SumOfFour(xs: PerGroup)
    ensures SumTo(xs, NUM_GROUPS) == xs[0] + xs[1] + xs[2] + xs[3]
  {
    assert SumTo(xs, 1) == SumTo(xs, 0) + xs[0];
    assert SumTo(xs, 2) == SumTo(xs, 1) + xs[1];
    assert SumTo(xs, 3) == SumTo(xs, 2) + xs[2];
    assert SumTo(xs, 4) == SumTo(xs, 3) + xs[3];
  }

  function SumTo(xs: seq<nat>, n: nat): nat
    requires n <= |xs|
  {
    if n == 0 then 0 else SumTo(xs, n - 1) + xs[n - 1]
  }

  // ---- Entries ----

  type Importance = map<LayerId, seq<real>>

  /** Mean importance of a group; one half for layers without scores. */
  function MeanImportance(importance: Importance, l: LayerId, g: nat): real {
    if l in importance && g < |importance[l]| then importance[l][g] else 0.5
  }

  function EntryOf(s: Sized, importance: Importance, g: nat): Entry
    requires g < NUM_GROUPS
  {
    Entry(MeanImportance(importance, s.layer, g), GroupId(s.layer, g), s.elements[g])
  }

  function LayerEntries(s: Sized, importance: Importance): (es: seq<Entry>)
    ensures |es| == NUM_GROUPS
  {
    seq(NUM_GROUPS, g requires 0 <= g < NUM_GROUPS => EntryOf(s, importance, g))
  }

  function Entries(cache: Cache, importance: Importance): seq<Entry> {
    if cache == [] then [] else LayerEntries(cache[0], importance) + Entries(cache[1..], importance)
  }

  method BuildEntries(cache: Cache, importance: Importance) returns (entries: seq<Entry>)
    ensures entries == Entries(cache, importance)
  {
    entries := [];
    for i := 0 to |cache|
      invariant entries + Entries(cache[i..], importance) == Entries(cache, importance)
    {
      assert cache[i..][1..] == cache[i + 1..];
      var own := BuildLayerEntries(cache[i], importance);
      entries := entries + own;
    }
  }

  method BuildLayerEntries(s: Sized, importance: Importance) returns (entries: seq<Entry>)
    ensures entries == LayerEntries(s, importance)
  {
    entries := [];
    for g := 0 to NUM_GROUPS
      invariant entries == LayerEntries(s, importance)[..g]
    {
      entries := entries + [EntryOf(s, importance, g)];
    }
  }

  ghost predicate ValidId(cache: Cache, id: GroupId) {
    id.group < NUM_GROUPS && exists i :: 0 <= i < |cache| && cache[i].layer == id.layer
  }

  lemma {:induction false} EntriesValid(cache: Cache, importance: Importance)
    ensures forall e :: e in Entries(cache, importance) ==> ValidId(cache, e.id)
    ensures forall i, g: nat :: 0 <= i < |cache| && g < NUM_GROUPS ==>
        EntryOf(cache[i], importance, g) in Entries(cache, importance)
  {
    if cache != [] {
      EntriesValid(cache[1..], importance);
      forall e | e in Entries(cache, importance) ensures ValidId(cache, e.id) {
        if e in LayerEntries(cache[0], importance) {
          assert cache[0].layer == e.id.layer;
        } else {
          var i :| 0 <= i < |cache[1..]| && cache[1..][i].layer == e.id.layer;
          assert cache[i + 1].layer == e.id.layer;
        }
      }
      forall i, g: nat | 0 <= i < |cache| && g < NUM_GROUPS
        ensures EntryOf(cache[i], importance, g) in Entries(cache, importance)
      {
        if i == 0 {
          assert LayerEntries(cache[0], importance)[g] == EntryOf(cache[0], importance, g);
        } else {
          assert cache[i] == cache[1..][i - 1];
        }
      }
    }
  }

  ghost predicate DistinctIds(entries: seq<Entry>) {
    forall i, j :: 0 <= i < j < |entries| ==> entries[i].id != entries[j].id
  }

  lemma {:induction false} EntriesDistinct(cache: Cache, importance: Importance)
    requires DistinctLayers(cache)
    ensures DistinctIds(Entries(cache, importance))
  {
    if cache != [] {
      EntriesDistinct(cache[1..], importance);
      EntriesValid(cache[1..], importance);
      var head, rest := LayerEntries(cache[0], importance), Entries(cache[1..], importance);
      forall e | e in rest ensures e.id.layer != cache[0].layer {
        assert ValidId(cache[1..], e.id);
      }
      var all := head + rest;
      forall i, j | 0 <= i < j < |all| ensures all[i].id != all[j].id {
        if j >= NUM_GROUPS { assert all[j] in rest; }
      }
    }
  }

  // ---- Sums over entries ----

  ghost predicate Assigned(entries: seq<Entry>, levels: Levels) {
    forall e :: e in entries ==> e.id.layer in levels && e.id.group < |levels[e.id.layer]|
  }

  function WeightOf(entries: seq<Entry>, levels: Levels): nat
    requires Assigned(entries, levels)
  {
    if entries == [] then 0
    else
      EntryWeight(entries[0], levels) + WeightOf(entries[1..], levels)
  }

  function EntryWeight(e: Entry, levels: Levels): nat
    requires e.id.layer in levels && e.id.group < |levels[e.id.layer]|
  {
    Data(e.size, levels[e.id.layer][e.id.group])
  }

  lemma {:induction false} WeightOfConcat(a: seq<Entry>, b: seq<Entry>, levels: Levels)
    requires Assigned(a, levels) && Assigned(b, levels)
    ensures WeightOf(a + b, levels) == WeightOf(a, levels) + WeightOf(b, levels)
  {
    if a == [] {
      assert a + b == b;
    } else {
      WeightOfConcat(a[1..], b, levels);
      assert (a + b)[1..] == a[1..] + b;
    }
  }

  lemma {:induction false} WeightOfPermuted(a: seq<Entry>, b: seq<Entry>, levels: Levels)
    requires multiset(a) == multiset(b) && Assigned(a, levels) && Assigned(b, levels)
    ensures WeightOf(a, levels) == WeightOf(b, levels)
  {
    if a == [] {
      assert |multiset(b)| == 0;
    } else {
      assert a[0] in multiset(b);
      var i :| 0 <= i < |b| && b[i] == a[0];
      TakeOut(a, 0, levels);
      TakeOut(b, i, levels);
      WeightOfPermuted(Without(a, 0), Without(b, i), levels);
    }
  }

  lemma {:induction false} TakeOut(es: seq<Entry>, i: nat, levels: Levels)
    requires i < |es| && Assigned(es, levels)
    ensures Assigned(Without(es, i), levels) && multiset(Without(es, i)) == multiset(es) - multiset{es[i]}
    ensures WeightOf(es, levels) == WeightOf(Without(es, i), levels) + EntryWeight(es[i], levels)
  {
    var before, after := es[..i], es[i + 1..];
    assert es == before + ([es[i]] + after);
    WeightOfConcat(before, [es[i]] + after, levels);
    WeightOfConcat(before, after, levels);
    assert ([es[i]] + after)[1..] == after;
  }

  /** Summing over groups in any order is summing layer by layer. */
  lemma {:induction false} EntriesWeight(cache: Cache, importance: Importance, levels: Levels)
    requires Covers(levels, cache)
    ensures Assigned(Entries(cache, importance), levels)
    ensures WeightOf(Entries(cache, importance), levels) == DataBytes(cache, levels)
  {
    if cache != [] {
      assert forall i :: 0 <= i < |cache[1..]| ==> cache[1..][i] == cache[i + 1];
      EntriesWeight(cache[1..], importance, levels);
      var head := LayerEntries(cache[0], importance);
      FourWeights(cache[0], importance, levels);
      WeightOfConcat(head, Entries(cache[1..], importance), levels);
    }
  }

  lemma {:induction false} FourWeights(s: Sized, importance: Importance, levels: Levels)
    requires s.layer in levels && |levels[s.layer]| == NUM_GROUPS
    ensures Assigned(LayerEntries(s, importance), levels)
    ensures WeightOf(LayerEntries(s, importance), levels) == LayerData(s, levels[s.layer])
  {
    var head := LayerEntries(s, importance);
    assert forall e :: e in head ==> e.id.layer == s.layer && e.id.group < NUM_GROUPS;
    FourSum(head, levels);
  }

  lemma {:induction false} FourSum(es: seq<Entry>, levels: Levels)
    requires |es| == 4 && Assigned(es, levels)
    ensures WeightOf(es, levels) ==
            EntryWeight(es[0], levels) + EntryWeight(es[1], levels) + EntryWeight(es[2], levels) +
              EntryWeight(es[3], levels)
  {
    assert es[1..][1..] == es[2..] && es[2..][1..] == es[3..] && es[3..][1..] == [];
    assert WeightOf(es, levels) == EntryWeight(es[0], levels) + WeightOf(es[1..], levels);
    assert WeightOf(es[1..], levels) == EntryWeight(es[1], levels) + WeightOf(es[2..], levels);
    assert WeightOf(es[2..], levels) == EntryWeight(es[2], levels) + WeightOf(es[3..], levels);
    assert WeightOf(es[3..], levels) == EntryWeight(es[3], levels) + 0;
  }

  // ---- Between maps and sequences ----

  type Assignments = map<GroupId, Precision>

  function ItemsOf(entries: seq<Entry>, floors: Levels): (items: seq<Item>)
    requires Assigned(entries, floors)
    ensures |items| == |entries|
  {
    seq(|entries|, i requires 0 <= i < |entries| =>
      Item(entries[i].size, floors[entries[i].id.layer][entries[i].id.group]))
  }

  function LevelsIn(entries: seq<Entry>, levels: Levels): (a: Assignment)
    requires Assigned(entries, levels)
    ensures |a| == |entries|
  {
    seq(|entries|, i requires 0 <= i < |entries| => levels[entries[i].id.layer][entries[i].id.group])
  }

  lemma {:induction false} WeightIn(entries: seq<Entry>, floors: Levels, levels: Levels)
    requires Assigned(entries, floors) && Assigned(entries, levels)
    ensures Weight(ItemsOf(entries, floors), LevelsIn(entries, levels)) == WeightOf(entries, levels)
  {
    if entries != [] {
      WeightIn(entries[1..], floors, levels);
      assert ItemsOf(entries, floors)[1..] == ItemsOf(entries[1..], floors);
      assert LevelsIn(entries, levels)[1..] == LevelsIn(entries[1..], levels);
    }
  }

  function Assign(entries: seq<Entry>, asg: Assignments): (a: Assignment)
    requires forall e :: e in entries ==> e.id in asg
    ensures |a| == |entries|
  {
    seq(|entries|, i requires 0 <= i < |entries| => asg[entries[i].id])
  }

  // ---- The greedy upgrade ----

  /** The running byte count is the weight of the current assignment. */
  ghost predicate Balanced(items: seq<Item>, entries: seq<Entry>, asg: Assignments, bytes: nat)
    requires |items| == |entries| && forall e :: e in entries ==> e.id in asg
  {
    bytes == Weight(items, Assign(entries, asg))
  }

  /** Raises groups in the given order, each as far as the budget allows with later groups at their floors. */
  method UpgradeInOrder(entries: seq<Entry>, floors: Assignments, bytes0: nat, budget: real, ghost items: seq<Item>)
    returns (asg: Assignments, bytes: nat)
    requires DistinctIds(entries) && (forall e :: e in entries ==> e.id in floors)
    requires |items| == |entries|
    requires forall i :: 0 <= i < |entries| ==> items[i] == Item(entries[i].size, floors[entries[i].id])
    requires bytes0 == Weight(items, Floors(items)) && bytes0 as real <= budget + TOLERANCE
    ensures asg.Keys == floors.Keys
    ensures LexMax(items, Assign(entries, asg), (budget + TOLERANCE).Floor)
    ensures bytes == Weight(items, Assign(entries, asg))
  {
    asg, bytes := floors, bytes0;
    ghost var cap := (budget + TOLERANCE).Floor;
    assert Assign(entries, asg) == Floors(items);
    for i := 0 to |entries|
      invariant asg.Keys == floors.Keys
      invariant Decided(items, Assign(entries, asg), cap, i) && bytes == Weight(items, Assign(entries, asg))
    {
      ghost var before := Assign(entries, asg);
      asg, bytes := UpgradeOne(entries, i, asg, bytes, budget, items);
      DecidedNext(items, before, Assign(entries, asg), cap, i);
    }
    StuckIsLexMax(items, Assign(entries, asg), cap);
  }

  /** Raises one group level by level until the next level no longer fits. */
  method UpgradeOne(entries: seq<Entry>, i: nat, asg0: Assignments, bytes0: nat, budget: real, ghost items: seq<Item>)
    returns (asg: Assignments, bytes: nat)
    requires DistinctIds(entries) && (forall e :: e in entries ==> e.id in asg0)
    requires i < |entries| == |items| && items[i].size == entries[i].size
    requires Rank(items[i].floor) <= Rank(asg0[entries[i].id])
    requires Balanced(items, entries, asg0, bytes0) && bytes0 as real <= budget + TOLERANCE
    ensures asg.Keys == asg0.Keys
    ensures Balanced(items, entries, asg, bytes) && bytes as real <= budget + TOLERANCE
    ensures var a := Assign(entries, asg);
            && a == Assign(entries, asg0)[i := a[i]] && Rank(items[i].floor) <= Rank(a[i])
            && (a[i] == FP16
                || (bytes + Data(items[i].size, Up(a[i])) - Data(items[i].size, a[i])) as real > budget + TOLERANCE)
  {
    asg, bytes := asg0, bytes0;
    var id, size := entries[i].id, entries[i].size;
    ghost var before := Assign(entries, asg0);
    var cur := asg[id];
    while cur != FP16
      invariant asg.Keys == asg0.Keys && id in asg && asg[id] == cur
      invariant Assign(entries, asg) == before[i := cur] && Rank(items[i].floor) <= Rank(cur)
      invariant bytes == Weight(items, before[i := cur]) && bytes as real <= budget + TOLERANCE
      decreases 3 - Rank(cur)
    {
      var target := Up(cur);
      var cost := Data(size, target) - Data(size, cur);
      WeightUpdate(items, before[i := cur], i, target);
      assert before[i := cur][i := target] == before[i := target];
      if (bytes + cost) as real <= budget + TOLERANCE {
        AssignUpdate(entries, asg, i, target);
        asg := asg[id := target];
        bytes := bytes + cost;
        cur := target;
      } else {
        break;
      }
    }
  }

  lemma {:induction false} AssignUpdate(entries: seq<Entry>, asg: Assignments, i: nat, p: Precision)
    requires DistinctIds(entries) && (forall e :: e in entries ==> e.id in asg) && i < |entries|
    ensures Assign(entries, asg[entries[i].id := p]) == Assign(entries, asg)[i := p]
  {
    forall j | 0 <= j < |entries| && j != i ensures entries[j].id != entries[i].id {
      if j < i { assert entries[j].id != entries[i].id; } else { assert entries[i].id != entries[j].id; }
    }
  }

  /** The first `i` groups are decided, the others are at their floors, and everything fits. */
  ghost predicate Decided(items: seq<Item>, a: Assignment, cap: int, i: nat) {
    && Fits(items, a, cap) && i <= |a|
    && (forall k :: 0 <= k < i ==> Stuck(items, a, cap, k))
    && (forall k :: i <= k < |a| ==> a[k] == items[k].floor)
  }

  lemma {:induction false} DecidedNext(items: seq<Item>, before: Assignment, a: Assignment, cap: int, i: nat)
    requires Decided(items, before, cap, i) && i < |before| == |a| && a == before[i := a[i]]
    requires Rank(items[i].floor) <= Rank(a[i]) && Weight(items, a) <= cap
    requires a[i] == FP16 || Weight(items, a) + Data(items[i].size, Up(a[i])) - Data(items[i].size, a[i]) > cap
    ensures Decided(items, a, cap, i + 1)
  {
    assert Mixed(items, a, i + 1) == a;
    forall k | 0 <= k < i ensures Stuck(items, a, cap, k) {
      assert a[..k + 1] == before[..k + 1];
      assert Mixed(items, a, k + 1) == Mixed(items, before, k + 1);
      assert Stuck(items, before, cap, k);
    }
  }

  // ---- Processing orders ----

  function LeastImportantLast(): Entry -> real {
    (e: Entry) => -e.importance
  }

  function ByImportance(cache: Cache, importance: Importance): seq<Entry> {
    Sort(Entries(cache, importance), LeastImportantLast())
  }

  /** Fraction of quality kept at a level. */
  function Fidelity(p: Precision): real {
    match p
    case FP16 => 1.0
    case INT8 => 0.999
    case INT4 => 0.99
    case INT2 => 0.85
  }

  /** Importance times the quality still to be gained from the floor; or importance alone. */
  function LeastBenefitLast(floors: Levels, useFidelity: bool): Entry -> real {
    (e: Entry) =>
      if useFidelity && e.id.layer in floors && e.id.group < |floors[e.id.layer]|
      then -(e.importance * (Fidelity(FP16) - Fidelity(floors[e.id.layer][e.id.group])))
      else -e.importance
  }

  function ByBenefit(cache: Cache, importance: Importance, floors: Levels, useFidelity: bool): seq<Entry> {
    Sort(ByImportance(cache, importance), LeastBenefitLast(floors, useFidelity))
  }

  /** A processing order contains every group of the cache once. */
  ghost predicate OrderOf(order: seq<Entry>, cache: Cache, importance: Importance) {
    multiset(order) == multiset(Entries(cache, importance))
  }

  lemma {:induction false} OrderFacts(order: seq<Entry>, cache: Cache, importance: Importance)
    requires DistinctLayers(cache) && OrderOf(order, cache, importance)
    ensures DistinctIds(order) && forall e :: e in order <==> e in Entries(cache, importance)
  {
    var es := Entries(cache, importance);
    EntriesDistinct(cache, importance);
    assert forall i, j :: 0 <= i < j < |es| ==> es[i].id != es[j].id;
    DistinctPermutation(es, order);
    forall e ensures e in order <==> e in es {
      assert e in multiset(order) <==> e in multiset(es);
    }
    forall i, j | 0 <= i < j < |order| ensures order[i].id != order[j].id {
      assert order[i] in es && order[j] in es;
      var a :| 0 <= a < |es| && es[a] == order[i];
      var b :| 0 <= b < |es| && es[b] == order[j];
      assert a != b;
    }
  }

  // ---- From one map of floors to the upgraded map ----

  function AssignedLevels(cache: Cache, asg: Assignments): (levels: Levels)
    ensures Covers(levels, cache)
  {
    var keys := set s | s in cache :: s.layer;
    map l | l in keys ::
      seq(NUM_GROUPS, g requires 0 <= g < NUM_GROUPS => if GroupId(l, g) in asg then asg[GroupId(l, g)] else INT2)
  }

  lemma {:induction false} AssignedBack(cache: Cache, entries: seq<Entry>, asg: Assignments)
    requires forall e :: e in entries ==> e.id in asg && ValidId(cache, e.id)
    ensures Assigned(entries, AssignedLevels(cache, asg))
    ensures LevelsIn(entries, AssignedLevels(cache, asg)) == Assign(entries, asg)
  {
    var levels := AssignedLevels(cache, asg);
    forall e | e in entries
      ensures e.id.layer in levels && e.id.group < |levels[e.id.layer]| && levels[e.id.layer][e.id.group] == asg[e.id]
    {
      var i :| 0 <= i < |cache| && cache[i].layer == e.id.layer;
      assert cache[i] in cache;
    }
  }

  /** Every group at its floor, and the bytes that takes. */
  method InitAssignments(entries: seq<Entry>, floors: Levels) returns (asg: Assignments, bytes: nat)
    requires Assigned(entries, floors)
    ensures bytes == WeightOf(entries, floors)
    ensures forall e :: e in entries ==> e.id in asg && asg[e.id] == floors[e.id.layer][e.id.group]
  {
    asg, bytes := map[], 0;
    for i := 0 to |entries|
      invariant bytes + WeightOf(entries[i..], floors) == WeightOf(entries, floors)
      invariant forall j :: 0 <= j < i ==>
                  entries[j].id in asg && asg[entries[j].id] == floors[entries[j].id.layer][entries[j].id.group]
    {
      var e := entries[i];
      assert entries[i..][0] == e && entries[i..][1..] == entries[i + 1..];
      asg := asg[e.id := floors[e.id.layer][e.id.group]];
      bytes := bytes + EntryWeight(e, floors);
    }
  }

  /** The map is the greedy optimum above the floors for this order and budget. */
  ghost predicate Greediest(order: seq<Entry>, floors: Levels, levels: Levels, budget: real) {
    && Assigned(order, floors) && Assigned(order, levels)
    && LexMax(ItemsOf(order, floors), LevelsIn(order, levels), (budget + TOLERANCE).Floor)
  }

  method Upgrade(cache: Cache, ghost importance: Importance, order: seq<Entry>, floors: Levels, budget: real)
    returns (levels: Levels, bytes: nat)
    requires DistinctLayers(cache) && OrderOf(order, cache, importance) && Covers(floors, cache)
    requires DataBytes(cache, floors) as real <= budget
    ensures Covers(levels, cache) && bytes == DataBytes(cache, levels)
    ensures Greediest(order, floors, levels, budget)
  {
    OrderFacts(order, cache, importance);
    EntriesValid(cache, importance);
    EntriesWeight(cache, importance, floors);
    WeightOfPermuted(Entries(cache, importance), order, floors);
    var asg0, bytes0 := InitAssignments(order, floors);
    ghost var items := ItemsOf(order, floors);
    WeightIn(order, floors, floors);
    assert LevelsIn(order, floors) == Floors(items);
    var asg, upgraded := UpgradeInOrder(order, asg0, bytes0, budget, items);
    levels := AssignedLevels(cache, asg);
    bytes := upgraded;
    AssignedBack(cache, order, asg);
    EntriesWeight(cache, importance, levels);
    WeightOfPermuted(Entries(cache, importance), order, levels);
    WeightIn(order, floors, levels);
  }

  // ---- Metadata ----

  method MetaOverhead(cache: Cache, levels: Levels) returns (total: nat)
    requires Covers(levels, cache)
    ensures total == MetaBytes(cache, levels)
  {
    total := 0;
    for i := 0 to |cache|
      invariant total + MetaBytes(cache[i..], levels) == MetaBytes(cache, levels)
    {
      assert cache[i..][0] == cache[i] && cache[i..][1..] == cache[i + 1..];
      total := total + LayerMeta(cache[i], levels[cache[i].layer]);
    }
  }

  /** Metadata estimate for one precision: none for FP16, eight bytes a layer for INT8, per group otherwise. */
  function MetadataSize(cache: Cache, p: Precision): nat {
    match p
    case FP16 => 0
    case INT8 => 32 * |cache|
    case _ => MetaBytes(cache, Uniform(cache, p))
  }

  method MetadataBytes(cache: Cache, p: Precision) returns (total: nat)
    ensures total == MetadataSize(cache, p)
    ensures p == FP16 ==> total == 0
    ensures p == INT8 ==> total == 32 * |cache|
  {
    if p == FP16 {
      return 0;
    }
    if p == INT8 {
      return 32 * |cache|;
    }
    total := 0;
    ghost var levels := Uniform(cache, p);
    for i := 0 to |cache|
      invariant total + MetaBytes(cache[i..], levels) == MetaBytes(cache, levels)
    {
      assert cache[i..][0] == cache[i] && cache[i..][1..] == cache[i + 1..];
      assert cache[i] in cache;
      for g := 0 to NUM_GROUPS
        invariant total + LayerMeta(cache[i], levels[cache[i].layer]) - SumTo(cache[i].scales, g)
               + MetaBytes(cache[i + 1..], levels) == MetaBytes(cache, levels)
      {
        total := total + cache[i].scales[g];
      }
      AllScales(cache[i], p);
    }
  }

  lemma {:induction false} AllScales(s: Sized, p: Precision)
    requires p == INT4 || p == INT2
    ensures SumTo(s.scales, NUM_GROUPS) == LayerMeta(s, [p, p, p, p])
  {
    SumOfFour(s.scales);
  }

  // ---- Allocation ----

  function LayersReversed(entries: seq<Entry>): seq<LayerId> {
    seq(|entries|, i requires 0 <= i < |entries| => entries[|entries| - 1 - i].id.layer)
  }

  function Ratio(total: nat, bytes: nat): real {
    total as real / Max(bytes as real, BYTE)
  }

  function FP16Total(cache: Cache): nat {
    Data(Elements(cache), FP16)
  }

  function Floor(cache: Cache, budget: real, numLayers: int): Levels {
    FloorMap(cache, numLayers, CompressionNeeded(FP16Total(cache), budget))
  }

  predicate Ample(cache: Cache, budget: real) {
    budget >= FP16Total(cache) as real || cache == []
  }

  predicate BelowFloor(cache: Cache, budget: real, numLayers: int) {
    budget < DataBytes(cache, Floor(cache, budget, numLayers)) as real
  }

  /** Enough budget for the floors: the greedy optimum above them, metadata counted in the size and the ratio. */
  ghost predicate TieredResult(cache: Cache, importance: Importance, budget: real, floors: Levels, useFidelity: bool,
                              r: Result) {
    && Covers(r.precisions, cache)
    && r.feasible && !r.forcedInt2 && r.dropped == []
    && Greediest(ByBenefit(cache, importance, floors, useFidelity), floors, r.precisions, budget)
    && r.totalBytes == DataBytes(cache, r.precisions) + MetaBytes(cache, r.precisions)
    && r.compression == Ratio(FP16Total(cache), r.totalBytes)
  }

  /**
    Too little budget for the floors.  If INT2 fits, the greedy optimum above INT2, with a ratio computed before
    the metadata is added; if not, INT2 everywhere.  Layers are suggested for dropping once per group.
   */
  ghost predicate BelowResult(cache: Cache, importance: Importance, budget: real, r: Result) {
    && Covers(r.precisions, cache)
    && !r.feasible && r.forcedInt2 && r.dropped == LayersReversed(ByImportance(cache, importance))
    && r.totalBytes == DataBytes(cache, r.precisions) + MetaBytes(cache, r.precisions)
    && if Elements(cache) as real <= budget then
         && Greediest(ByImportance(cache, importance), Uniform(cache, INT2), r.precisions, budget)
         && r.compression == Ratio(FP16Total(cache), DataBytes(cache, r.precisions))
       else
         && r.precisions == Uniform(cache, INT2)
         && r.compression == Ratio(FP16Total(cache), r.totalBytes)
  }

  /** All four outcomes of the allocator. */
  ghost predicate Allocated(cache: Cache, importance: Importance, budget: real, numLayers: int, useFidelity: bool,
                            r: Result) {
    if Ample(cache, budget) then
      r == Result(Uniform(cache, FP16), FP16Total(cache), 1.0, true, false, [])
    else if !BelowFloor(cache, budget, numLayers) then
      TieredResult(cache, importance, budget, Floor(cache, budget, numLayers), useFidelity, r)
    else
      BelowResult(cache, importance, budget, r)
  }

  lemma {:induction false} UniformData(cache: Cache, p: Precision, levels: Levels)
    requires Covers(levels, cache) && forall i :: 0 <= i < |cache| ==> levels[cache[i].layer] == [p, p, p, p]
    ensures DataBytes(cache, levels) == Data(Elements(cache), p)
  {
    if cache != [] {
      assert forall i :: 0 <= i < |cache[1..]| ==> cache[1..][i] == cache[i + 1];
      UniformData(cache[1..], p, levels);
    }
  }

  lemma {:induction false} UniformTotal(cache: Cache, p: Precision)
    ensures DataBytes(cache, Uniform(cache, p)) == Data(Elements(cache), p)
  {
    var levels := Uniform(cache, p);
    forall i | 0 <= i < |cache| ensures levels[cache[i].layer] == [p, p, p, p] {
      assert cache[i] in cache;
    }
    UniformData(cache, p, levels);
  }

  method Allocate(shapes: seq<Shape>, importance: Importance, budget: real, numLayers: int,
                  useFidelity: bool) returns (r: Result)
    requires forall i :: 0 <= i < |shapes| ==> shapes[i].seqLen > 0
    requires forall i, j :: 0 <= i < j < |shapes| ==> shapes[i].layer != shapes[j].layer
    ensures Allocated(MeasureAll(shapes), importance, budget, numLayers, useFidelity, r)
  {
    var cache := MeasureAll(shapes);
    var totalFp16 := TotalBytes(shapes, FP16);
    if budget >= totalFp16 as real || cache == [] {
      return Result(Uniform(cache, FP16), totalFp16, 1.0, true, false, []);
    }
    var entries := BuildEntries(cache, importance);
    entries := Sort(entries, LeastImportantLast());
    var compression := CompressionNeeded(totalFp16, budget);
    var minFloor := MinFloor(cache, numLayers, compression);
    if budget < minFloor as real {
      var int2Total := TotalBytes(shapes, INT2);
      r := AllocateFromInt2(cache, importance, entries, budget, totalFp16, int2Total);
    } else {
      r := AllocateTiered(cache, importance, entries, budget, totalFp16, FloorMap(cache, numLayers, compression),
        useFidelity);
    }
  }

  method AllocateFromInt2(cache: Cache, importance: Importance, entries: seq<Entry>, budget: real, totalFp16: nat,
                          int2Total: nat)
    returns (r: Result)
    requires DistinctLayers(cache) && entries == ByImportance(cache, importance) && totalFp16 == FP16Total(cache)
    requires int2Total == Elements(cache)
    ensures BelowResult(cache, importance, budget, r)
  {
    var dropped := LayersReversed(entries);
    var int2 := Uniform(cache, INT2);
    UniformTotal(cache, INT2);
    if int2Total as real <= budget {
      var levels, bytes := Upgrade(cache, importance, entries, int2, budget);
      var meta := MetaOverhead(cache, levels);
      return Result(levels, bytes + meta, Ratio(totalFp16, bytes), false, true, dropped);
    } else {
      var meta := MetaOverhead(cache, int2);
      return Result(int2, int2Total + meta, Ratio(totalFp16, int2Total + meta), false, true, dropped);
    }
  }

  method AllocateTiered(cache: Cache, importance: Importance, entries: seq<Entry>, budget: real, totalFp16: nat,
                        floors: Levels, useFidelity: bool) returns (r: Result)
    requires DistinctLayers(cache) && entries == ByImportance(cache, importance) && totalFp16 == FP16Total(cache)
    requires Covers(floors, cache) && DataBytes(cache, floors) as real <= budget
    ensures TieredResult(cache, importance, budget, floors, useFidelity, r)
  {
    var order := Sort(entries, LeastBenefitLast(floors, useFidelity));
    BenefitOrder(cache, importance, floors, useFidelity);
    var levels, bytes := Upgrade(cache, importance, order, floors, budget);
    var meta := MetaOverhead(cache, levels);
    Tiered(cache, importance, budget, floors, useFidelity, levels, bytes + meta);
    return Result(levels, bytes + meta, Ratio(totalFp16, bytes + meta), true, false, []);
  }

  lemma {:induction false} BenefitOrder(cache: Cache, importance: Importance, floors: Levels, useFidelity: bool)
    ensures OrderOf(ByBenefit(cache, importance, floors, useFidelity), cache, importance)
  {
  }

  lemma {:induction false} Tiered(cache: Cache, importance: Importance, budget: real, floors: Levels,
                              useFidelity: bool, levels: Levels, total: nat)
    requires Covers(levels, cache) && total == DataBytes(cache, levels) + MetaBytes(cache, levels)
    requires Greediest(ByBenefit(cache, importance, floors, useFidelity), floors, levels, budget)
    ensures TieredResult(cache, importance, budget, floors, useFidelity,
                         Result(levels, total, Ratio(FP16Total(cache), total), true, false, []))
  {
  }

  // ---- What every outcome guarantees ----

  /** Tensor data never exceeds the larger of the budget (plus the comparison slack) and the all-INT2 size. */
  lemma {:induction false} DataBound(cache: Cache, importance: Importance, budget: real, numLayers: int,
                              useFidelity: bool, r: Result)
    requires DistinctLayers(cache) && Allocated(cache, importance, budget, numLayers, useFidelity, r)
    ensures Covers(r.precisions, cache)
    ensures DataBytes(cache, r.precisions) as real <= Max(budget + 0.000004, Elements(cache) as real)
  {
    if Ample(cache, budget) {
      UniformTotal(cache, FP16);
    } else if !BelowFloor(cache, budget, numLayers) {
      var floors := Floor(cache, budget, numLayers);
      GreediestFits(cache, importance, ByBenefit(cache, importance, floors, useFidelity), floors, r.precisions, budget);
    } else {
      BelowBound(cache, importance, budget, r);
    }
  }

  lemma {:induction false} BelowBound(cache: Cache, importance: Importance, budget: real, r: Result)
    requires BelowResult(cache, importance, budget, r)
    ensures DataBytes(cache, r.precisions) as real <= Max(budget + TOLERANCE, Elements(cache) as real)
  {
    if Elements(cache) as real <= budget {
      GreediestFits(cache, importance, ByImportance(cache, importance), Uniform(cache, INT2), r.precisions, budget);
    } else {
      UniformTotal(cache, INT2);
    }
  }

  lemma {:induction false} GreediestFits(cache: Cache, importance: Importance, order: seq<Entry>, floors: Levels,
                              levels: Levels, budget: real)
    requires OrderOf(order, cache, importance) && Covers(levels, cache) && Greediest(order, floors, levels, budget)
    ensures DataBytes(cache, levels) as real <= budget + TOLERANCE
  {
    EntriesWeight(cache, importance, levels);
    WeightOfPermuted(Entries(cache, importance), order, levels);
    WeightIn(order, floors, levels);
  }

  /** A feasible result keeps every group of every layer at or above the layer's minimum precision. */
  lemma {:induction false} FloorsKept(cache: Cache, importance: Importance, budget: real, numLayers: int,
                              useFidelity: bool, r: Result, i: nat, g: nat)
    requires DistinctLayers(cache) && Allocated(cache, importance, budget, numLayers, useFidelity, r)
    requires r.feasible && i < |cache| && g < NUM_GROUPS
    ensures Covers(r.precisions, cache)
    ensures Rank(Floor(cache, budget, numLayers)[cache[i].layer][g]) <= Rank(r.precisions[cache[i].layer][g])
  {
    if Ample(cache, budget) {
      assert cache[i] in cache;
    } else {
      var floors := Floor(cache, budget, numLayers);
      TieredAboveFloor(cache, importance, budget, floors, useFidelity, r, i, g);
    }
  }

  lemma {:induction false} TieredAboveFloor(cache: Cache, importance: Importance, budget: real, floors: Levels,
                              useFidelity: bool, r: Result, i: nat, g: nat)
    requires DistinctLayers(cache) && TieredResult(cache, importance, budget, floors, useFidelity, r)
    requires i < |cache| && g < NUM_GROUPS && Covers(floors, cache)
    ensures Rank(floors[cache[i].layer][g]) <= Rank(r.precisions[cache[i].layer][g])
  {
    EntryAboveFloor(cache, importance, ByBenefit(cache, importance, floors, useFidelity), floors, r.precisions,
      budget, i, g);
  }

  lemma {:induction false} EntryAboveFloor(cache: Cache, importance: Importance, order: seq<Entry>, floors: Levels,
                              levels: Levels, budget: real,
                              i: nat, g: nat)
    requires DistinctLayers(cache) && OrderOf(order, cache, importance) && Greediest(order, floors, levels, budget)
    requires i < |cache| && g < NUM_GROUPS && Covers(floors, cache) && Covers(levels, cache)
    ensures Rank(floors[cache[i].layer][g]) <= Rank(levels[cache[i].layer][g])
  {
    EntriesValid(cache, importance);
    OrderFacts(order, cache, importance);
    var e := EntryOf(cache[i], importance, g);
    assert e in order;
    var k :| 0 <= k < |order| && order[k] == e;
    assert ItemsOf(order, floors)[k].floor == floors[cache[i].layer][g];
    assert LevelsIn(order, levels)[k] == levels[cache[i].layer][g];
  }

  /** A reported compression: FP16 bytes over bytes. */
  ghost predicate Rates(compression: real, bytes: nat, total: nat) {
    compression * bytes as real == total as real
  }

  lemma {:induction false} RatioRates(bytes: nat, total: nat)
    ensures bytes >= 4 ==> Rates(Ratio(total, bytes), bytes, total)
  {
  }

  lemma {:induction false} AtLeastInt2(cache: Cache, levels: Levels)
    requires Covers(levels, cache)
    ensures Elements(cache) <= DataBytes(cache, levels)
  {
    if cache != [] {
      assert forall i :: 0 <= i < |cache[1..]| ==> cache[1..][i] == cache[i + 1];
      AtLeastInt2(cache[1..], levels);
    }
  }

  /** Above the floors the compression counts the metadata. */
  lemma {:induction false} TieredCompression(cache: Cache, importance: Importance, budget: real, floors: Levels,
                              useFidelity: bool, r: Result)
    requires TieredResult(cache, importance, budget, floors, useFidelity, r) && Elements(cache) >= 4
    ensures Rates(r.compression, r.totalBytes, FP16Total(cache))
  {
    AtLeastInt2(cache, r.precisions);
    RatioRates(r.totalBytes, FP16Total(cache));
  }

  /** Below them it does not, unless not even INT2 fits. */
  lemma {:induction false} BelowCompression(cache: Cache, importance: Importance, budget: real, r: Result)
    requires BelowResult(cache, importance, budget, r) && Elements(cache) >= 4
    ensures Rates(r.compression,
                  if Elements(cache) as real <= budget then DataBytes(cache, r.precisions) else r.totalBytes,
                  FP16Total(cache))
  {
    AtLeastInt2(cache, r.precisions);
    RatioRates(r.totalBytes, FP16Total(cache));
    RatioRates(DataBytes(cache, r.precisions), FP16Total(cache));
  }
}

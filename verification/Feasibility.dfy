/** When the allocator calls a budget feasible (backend/precision_allocator.py, floors and compression tiers). */
module Feasibility {
  import opened Layers
  import opened PrecisionLevels
  import opened Allocator
  import opened Reals

  /** The flag the allocator returns. */
  predicate Feasible(cache: Cache, budget: real, numLayers: int) {
    Ample(cache, budget) || !BelowFloor(cache, budget, numLayers)
  }

  lemma {:induction false} FeasibleFlag(cache: Cache, importance: Importance, budget: real, numLayers: int,
                              useFidelity: bool, r: Result)
    requires Allocated(cache, importance, budget, numLayers, useFidelity, r)
    ensures r.feasible <==> Feasible(cache, budget, numLayers)
  {
  }

  /** Layers 0, 1, 2, ... with `size` elements each. */
  ghost predicate EqualLayers(cache: Cache, size: nat) {
    forall i :: 0 <= i < |cache| ==> cache[i].layer.index == i && LayerElements(cache[i]) == size
  }

  function CeilDiv(a: nat, b: nat): nat
    requires b > 0
  {
    (a + b - 1) / b
  }

  /** Quarter bytes per element-of-one-layer that the floors of layers j.. need, given where INT8 and INT4 end. */
  function Units(layers: nat, int8: nat, int4: nat, j: nat): nat
    requires j <= layers
    decreases layers - j
  {
    if j == layers then 0 else Cost(FloorAtIndex(int8, int4, j)) + Units(layers, int8, int4, j + 1)
  }

  function FloorAtIndex(int8: nat, int4: nat, i: nat): Precision {
    if i < int8 then INT8 else if i < int4 then INT4 else INT2
  }

  lemma {:induction false} UnitsClosed(layers: nat, int8: nat, int4: nat, j: nat)
    requires j <= layers && int8 <= int4 <= layers
    ensures Units(layers, int8, int4, j) ==
            (layers - j) + (if j < int4 then int4 - j else 0) + 2 * (if j < int8 then int8 - j else 0)
    decreases layers - j
  {
    if j < layers {
      UnitsClosed(layers, int8, int4, j + 1);
    }
  }

  /** The floor of the one-third split, per element of one layer. */
  function ThirdUnits(layers: nat): nat {
    layers + CeilDiv(2 * layers, 3) + 2 * CeilDiv(layers, 3)
  }

  /** First layer index that may go below INT8, and below INT4, in each compression tier. */
  function Int8End(layers: nat, compression: real): nat {
    if compression > 8.0 then CeilDiv(layers, 6)
    else if compression > 4.0 then CeilDiv(layers, 4)
    else CeilDiv(layers, 3)
  }

  function Int4End(layers: nat, compression: real): nat {
    if compression > 8.0 then CeilDiv(layers, 2)
    else if compression > 4.0 then CeilDiv(layers, 2)
    else CeilDiv(2 * layers, 3)
  }

  lemma {:induction false} TierEnds(layers: nat, l: LayerId, compression: real)
    requires 0 <= l.index < layers
    ensures MinPrecision(l, layers, compression) ==
            FloorAtIndex(Int8End(layers, compression), Int4End(layers, compression), l.index)
  {
  }

  /** Data bytes of layers j.. at their floors. */
  function BytesFrom(size: nat, layers: nat, int8: nat, int4: nat, j: nat): nat
    requires j <= layers
    decreases layers - j
  {
    if j == layers then 0 else Data(size, FloorAtIndex(int8, int4, j)) + BytesFrom(size, layers, int8, int4, j + 1)
  }

  lemma {:induction false} BytesAreUnits(size: nat, layers: nat, int8: nat, int4: nat, j: nat)
    requires j <= layers
    ensures BytesFrom(size, layers, int8, int4, j) == size * Units(layers, int8, int4, j)
    decreases layers - j
  {
    if j < layers {
      BytesAreUnits(size, layers, int8, int4, j + 1);
      DataIsCost(size, FloorAtIndex(int8, int4, j));
      SizeTimes(size, Cost(FloorAtIndex(int8, int4, j)), Units(layers, int8, int4, j + 1),
                Data(size, FloorAtIndex(int8, int4, j)), BytesFrom(size, layers, int8, int4, j + 1));
    }
  }

  lemma {:induction false} DataIsCost(size: nat, p: Precision)
    ensures Data(size, p) == size * Cost(p)
  {
  }

  ghost predicate FloorsAre(cache: Cache, floors: Levels, size: nat, int8: nat, int4: nat) {
    Covers(floors, cache) && forall i :: 0 <= i < |cache| ==>
      LayerData(cache[i], floors[cache[i].layer]) == Data(size, FloorAtIndex(int8, int4, i))
  }

  lemma {:induction false} FloorBytesFrom(cache: Cache, floors: Levels, size: nat, int8: nat, int4: nat, j: nat)
    requires FloorsAre(cache, floors, size, int8, int4) && j <= |cache|
    ensures Covers(floors, cache[j..]) && DataBytes(cache[j..], floors) == BytesFrom(size, |cache|, int8, int4, j)
    decreases |cache| - j
  {
    assert forall i :: 0 <= i < |cache[j..]| ==> cache[j..][i] == cache[i + j];
    if j < |cache| {
      FloorBytesFrom(cache, floors, size, int8, int4, j + 1);
      assert cache[j..][1..] == cache[j + 1..];
    }
  }

  /** Bytes that one layer needs at its floor. */
  lemma {:induction false} LayerFloor(cache: Cache, compression: real, j: nat)
    requires j < |cache| && cache[j].layer.index == j
    ensures var floors := FloorMap(cache, |cache|, compression);
            var p := FloorAtIndex(Int8End(|cache|, compression), Int4End(|cache|, compression), j);
            cache[j].layer in floors && |floors[cache[j].layer]| == NUM_GROUPS &&
            LayerData(cache[j], floors[cache[j].layer]) == LayerElements(cache[j]) * Cost(p)
  {
    FloorAt(cache, |cache|, compression, j);
    TierEnds(|cache|, cache[j].layer, compression);
    UniformLayer(cache[j], FloorAtIndex(Int8End(|cache|, compression), Int4End(|cache|, compression), j));
  }

  lemma {:induction false} UniformLayer(s: Sized, p: Precision)
    ensures LayerData(s, [p, p, p, p]) == LayerElements(s) * Cost(p)
  {
  }

  lemma {:induction false} SizeTimes(size: nat, a: nat, b: nat, x: nat, y: nat)
    requires x == size * a && y == size * b
    ensures x + y == size * (a + b)
  {
  }

  lemma {:induction false} FloorMapAre(cache: Cache, size: nat, c: real)
    requires EqualLayers(cache, size)
    ensures FloorsAre(cache, FloorMap(cache, |cache|, c), size, Int8End(|cache|, c), Int4End(|cache|, c))
  {
    var floors := FloorMap(cache, |cache|, c);
    forall i | 0 <= i < |cache|
      ensures cache[i].layer in floors && |floors[cache[i].layer]| == NUM_GROUPS
      ensures LayerData(cache[i], floors[cache[i].layer])
          == Data(size, FloorAtIndex(Int8End(|cache|, c), Int4End(|cache|, c), i))
    {
      LayerFloor(cache, c, i);
      DataIsCost(size, FloorAtIndex(Int8End(|cache|, c), Int4End(|cache|, c), i));
    }
  }

  lemma {:induction false} FloorBytes(cache: Cache, size: nat, c: real)
    requires EqualLayers(cache, size)
    ensures DataBytes(cache, FloorMap(cache, |cache|, c)) == size * TierUnits(|cache|, c)
  {
    var int8, int4 := Int8End(|cache|, c), Int4End(|cache|, c);
    FloorMapAre(cache, size, c);
    FloorBytesFrom(cache, FloorMap(cache, |cache|, c), size, int8, int4, 0);
    BytesAreUnits(size, |cache|, int8, int4, 0);
    UnitsClosed(|cache|, int8, int4, 0);
    assert Units(|cache|, int8, int4, 0) == TierUnits(|cache|, c);
    assert cache[0..] == cache;
  }

  function TierUnits(layers: nat, c: real): nat {
    layers + Int4End(layers, c) + 2 * Int8End(layers, c)
  }

  lemma {:induction false} EqualTotal(cache: Cache, size: nat)
    requires forall i :: 0 <= i < |cache| ==> LayerElements(cache[i]) == size
    ensures Elements(cache) == size * |cache|
  {
    if cache != [] {
      EqualTotal(cache[1..], size);
      SizeTimes(size, 1, |cache| - 1, LayerElements(cache[0]), Elements(cache[1..]));
    }
  }

  /** The compression tiers as comparisons of sizes. */
  lemma {:induction false} TierMeaning(total: nat, budget: real)
    ensures var c := CompressionNeeded(total, budget);
            && (c > 8.0 <==> total as real > 8.0 * Max(budget, BYTE))
            && (c > 4.0 <==> total as real > 4.0 * Max(budget, BYTE))
  {
    Quotient(total as real, Max(budget, BYTE), 8.0);
    Quotient(total as real, Max(budget, BYTE), 4.0);
  }

  lemma {:induction false} Scale(size: nat, a: nat, b: nat)
    requires a <= b
    ensures size * a <= size * b
  {
  }

  lemma {:induction false} EqualFloor(cache: Cache, size: nat, c: real)
    requires EqualLayers(cache, size)
    ensures var floor := DataBytes(cache, FloorMap(cache, |cache|, c));
            && floor >= Elements(cache)
            && (4.0 < c <= 8.0 ==> floor >= 2 * Elements(cache))
            && (c <= 4.0 ==> floor == size * ThirdUnits(|cache|))
  {
    EqualTotal(cache, size);
    FloorBytes(cache, size, c);
    FloorArithmetic(size, |cache|, TierUnits(|cache|, c));
    TierUnitBounds(|cache|, c);
  }

  lemma {:induction false} TierUnitBounds(layers: nat, c: real)
    ensures TierUnits(layers, c) >= layers
    ensures 4.0 < c <= 8.0 ==> TierUnits(layers, c) >= 2 * layers
    ensures c <= 4.0 ==> TierUnits(layers, c) == ThirdUnits(layers)
    ensures 2 * layers <= ThirdUnits(layers) <= 4 * layers
  {
  }

  lemma {:induction false} FloorArithmetic(size: nat, n: nat, units: nat)
    requires units >= n
    ensures size * units >= size * n
    ensures units >= 2 * n ==> size * units >= 2 * (size * n)
    ensures units <= 4 * n ==> size * units <= 4 * (size * n)
  {
    Scale(size, n, units);
    if units >= 2 * n { Scale(size, 2 * n, units); assert size * (2 * n) == 2 * (size * n); }
    if units <= 4 * n { Scale(size, units, 4 * n); assert size * (4 * n) == 4 * (size * n); }
  }

  lemma {:induction false} ThirdBounds(cache: Cache, size: nat)
    requires EqualLayers(cache, size)
    ensures 2 * Elements(cache) <= size * ThirdUnits(|cache|) <= 4 * Elements(cache)
  {
    EqualTotal(cache, size);
    TierUnitBounds(|cache|, 1.0);
    FloorArithmetic(size, |cache|, ThirdUnits(|cache|));
  }

  /** In a tightened tier the floor is always out of reach. */
  lemma {:induction false} TightenedTierInfeasible(cache: Cache, size: nat, budget: real, c: real)
    requires EqualLayers(cache, size) && budget >= 0.0
    requires c == CompressionNeeded(FP16Total(cache), budget) && c > 4.0
    ensures !Feasible(cache, budget, |cache|)
    ensures budget < (2 * Elements(cache)) as real
  {
    TierMeaning(FP16Total(cache), budget);
    OutOfReach(cache, size, budget, c);
    assert Floor(cache, budget, |cache|) == FloorMap(cache, |cache|, c);
  }

  lemma {:induction false} OutOfReach(cache: Cache, size: nat, budget: real, c: real)
    requires EqualLayers(cache, size) && c > 4.0
    requires FP16Total(cache) as real > (if c > 8.0 then 8.0 else 4.0) * Max(budget, BYTE)
    ensures budget < FP16Total(cache) as real && cache != []
    ensures budget < DataBytes(cache, FloorMap(cache, |cache|, c)) as real
    ensures budget < (2 * Elements(cache)) as real
  {
    EqualFloor(cache, size, c);
  }

  lemma {:induction false} DefaultTier(cache: Cache, size: nat, budget: real, c: real)
    requires EqualLayers(cache, size) && c == CompressionNeeded(FP16Total(cache), budget) && c <= 4.0 && budget >= 0.0
    ensures Feasible(cache, budget, |cache|) <==>
            Ample(cache, budget) || budget >= (size * ThirdUnits(|cache|)) as real
  {
    EqualFloor(cache, size, c);
    assert Floor(cache, budget, |cache|) == FloorMap(cache, |cache|, c);
  }

  lemma {:induction false} ThresholdCases(cache: Cache, budget: real, third: nat, tight: bool)
    requires 2 * Elements(cache) <= third <= 4 * Elements(cache) && budget >= 0.0
    requires tight ==> !Feasible(cache, budget, |cache|) && budget < (2 * Elements(cache)) as real
    requires !tight ==> (Feasible(cache, budget, |cache|) <==> Ample(cache, budget) || budget >= third as real)
    ensures Feasible(cache, budget, |cache|) <==> budget >= third as real
  {
  }

  /** For equal layers: feasible exactly when the budget covers the one-third-split floor. */
  lemma {:induction false} FeasibilityThreshold(cache: Cache, size: nat, budget: real)
    requires EqualLayers(cache, size) && budget >= 0.0
    ensures Feasible(cache, budget, |cache|) <==> budget >= (size * ThirdUnits(|cache|)) as real
  {
    var c := CompressionNeeded(FP16Total(cache), budget);
    if c > 4.0 {
      TightenedTierInfeasible(cache, size, budget, c);
    } else {
      DefaultTier(cache, size, budget, c);
    }
    ThirdBounds(cache, size);
    ThresholdCases(cache, budget, size * ThirdUnits(|cache|), c > 4.0);
  }

  /** So for equal layers a larger budget never turns feasible into infeasible. */
  lemma {:induction false} FeasibilityMonotone(cache: Cache, size: nat, b: real, c: real)
    requires EqualLayers(cache, size) && 0.0 <= b <= c && Feasible(cache, b, |cache|)
    ensures Feasible(cache, c, |cache|)
  {
    FeasibilityThreshold(cache, size, b);
    FeasibilityThreshold(cache, size, c);
  }

  // ---- Any layers ----

  /** Compression values that stand for the tier between 4 and 8, and for the tier up to 4. */
  const QUARTER: real := 5.0
  const THIRD: real := 1.0

  /** Data bytes with every group at the floor that its layer has in the tier of compression `c`. */
  function FloorSize(cache: Cache, numLayers: int, c: real): nat {
    DataBytes(cache, FloorMap(cache, numLayers, c))
  }

  lemma {:induction false} SameTier(cache: Cache, numLayers: int, c: real, d: real)
    requires (c > 8.0 <==> d > 8.0) && (c > 4.0 <==> d > 4.0)
    ensures FloorMap(cache, numLayers, c) == FloorMap(cache, numLayers, d)
  {
    forall l ensures MinPrecision(l, numLayers, c) == MinPrecision(l, numLayers, d) {}
  }

  lemma {:induction false} DataBetween(cache: Cache, levels: Levels)
    requires Covers(levels, cache)
    requires forall i, g :: 0 <= i < |cache| && 0 <= g < NUM_GROUPS ==> levels[cache[i].layer][g] != FP16
    ensures Elements(cache) <= DataBytes(cache, levels) <= 4 * Elements(cache)
  {
    if cache != [] {
      assert forall i :: 0 <= i < |cache[1..]| ==> cache[1..][i] == cache[i + 1];
      DataBetween(cache[1..], levels);
      LayerBetween(cache[0], levels[cache[0].layer]);
    }
  }

  lemma {:induction false} LayerBetween(s: Sized, levels: seq<Precision>)
    requires |levels| == NUM_GROUPS && forall g :: 0 <= g < NUM_GROUPS ==> levels[g] != FP16
    ensures LayerElements(s) <= LayerData(s, levels) <= 4 * LayerElements(s)
  {
  }

  /** A floor lies between all INT2 and all INT8. */
  lemma {:induction false} FloorBetween(cache: Cache, numLayers: int, c: real)
    ensures Elements(cache) <= FloorSize(cache, numLayers, c) <= 4 * Elements(cache)
  {
    forall i | 0 <= i < |cache| ensures forall g :: 0 <= g < NUM_GROUPS ==>
      FloorMap(cache, numLayers, c)[cache[i].layer][g] != FP16
    {
      FloorAt(cache, numLayers, c, i);
    }
    DataBetween(cache, FloorMap(cache, numLayers, c));
  }

  /** The floor is for the tier that the budget selects; the tier above 8 is never met. */
  lemma {:induction false} FeasibleExact(cache: Cache, numLayers: int, budget: real)
    requires budget >= 0.0
    ensures Feasible(cache, budget, numLayers) <==>
            budget >= FloorSize(cache, numLayers,
                                if Max(budget, BYTE) >= (2 * Elements(cache)) as real then THIRD else QUARTER) as real
  {
    var c := CompressionNeeded(FP16Total(cache), budget);
    TierMeaning(FP16Total(cache), budget);
    FloorBetween(cache, numLayers, c);
    FloorBetween(cache, numLayers, THIRD);
    FloorBetween(cache, numLayers, QUARTER);
    if c <= 4.0 {
      SameTier(cache, numLayers, c, THIRD);
    } else if c <= 8.0 {
      SameTier(cache, numLayers, c, QUARTER);
    }
  }

  /** A larger budget never turns feasible into infeasible. */
  ghost predicate Monotone(cache: Cache, numLayers: int) {
    forall b, d :: 0.0 <= b <= d && Feasible(cache, b, numLayers) ==> Feasible(cache, d, numLayers)
  }

  /**
    Exactly when feasibility is monotone in the budget, for any layers of any sizes: two elements or fewer, a floor of
    the quarter split out of reach below twice the elements, or one of the third split within reach there.
   */
  lemma {:induction false} MonotoneExact(cache: Cache, numLayers: int)
    ensures Monotone(cache, numLayers) <==>
            || Elements(cache) <= 2
            || FloorSize(cache, numLayers, QUARTER) >= 2 * Elements(cache)
            || FloorSize(cache, numLayers, THIRD) <= 2 * Elements(cache)
  {
    var quarter, third := FloorSize(cache, numLayers, QUARTER), FloorSize(cache, numLayers, THIRD);
    var twice := 2 * Elements(cache);
    if Elements(cache) <= 2 || quarter >= twice || third <= twice {
      forall b, d | 0.0 <= b <= d && Feasible(cache, b, numLayers) ensures Feasible(cache, d, numLayers) {
        FeasibleExact(cache, numLayers, b);
        FeasibleExact(cache, numLayers, d);
      }
    } else {
      FeasibleExact(cache, numLayers, quarter as real);
      FeasibleExact(cache, numLayers, twice as real);
      assert Feasible(cache, quarter as real, numLayers) && !Feasible(cache, twice as real, numLayers);
    }
  }

  // ---- A cache for which it is not ----

  lemma {:induction false} FloorsConcat(a: Cache, b: Cache, levels: Levels)
    requires Covers(levels, a) && Covers(levels, b)
    ensures Covers(levels, a + b) && DataBytes(a + b, levels) == DataBytes(a, levels) + DataBytes(b, levels)
    ensures Elements(a + b) == Elements(a) + Elements(b)
  {
    if a == [] {
      assert a + b == b;
    } else {
      assert forall i :: 0 <= i < |a[1..]| ==> a[1..][i] == a[i + 1];
      FloorsConcat(a[1..], b, levels);
      assert (a + b)[1..] == a[1..] + b;
    }
  }

  /** Bytes of one layer alone at a given floor. */
  lemma {:induction false} SingleFloor(s: Sized, levels: Levels, p: Precision)
    requires s.layer in levels && levels[s.layer] == [p, p, p, p]
    ensures Covers(levels, [s]) && DataBytes([s], levels) == Data(LayerElements(s), p)
        && Elements([s]) == LayerElements(s)
  {
    assert [s][1..] == [];
  }

  lemma {:induction false} TwoFloors(cache: Cache, numLayers: int, c: real)
    requires |cache| == 2
    ensures Elements(cache) == LayerElements(cache[0]) + LayerElements(cache[1])
    ensures FloorSize(cache, numLayers, c) == Data(LayerElements(cache[0]), MinPrecision(cache[0].layer, numLayers, c))
                                            + Data(LayerElements(cache[1]), MinPrecision(cache[1].layer, numLayers, c))
  {
    var floors := FloorMap(cache, numLayers, c);
    FloorAt(cache, numLayers, c, 0);
    FloorAt(cache, numLayers, c, 1);
    SingleFloor(cache[0], floors, MinPrecision(cache[0].layer, numLayers, c));
    SingleFloor(cache[1], floors, MinPrecision(cache[1].layer, numLayers, c));
    assert cache == [cache[0]] + [cache[1]];
    FloorsConcat([cache[0]], [cache[1]], floors);
  }

  /**
    Two layers of four tokens, of a four-layer model whose other two layers are not in the cache: 240 quarter bytes
    are feasible, in the quarter split, and 320 are not, in the third split.
   */
  lemma {:induction false} NotMonotoneInGeneral() returns (shapes: seq<Shape>)
    ensures shapes == [Shape(LayerId(1), 4, 10, 10, 5), Shape(LayerId(2), 4, 10, 10, 5)]
    ensures Feasible(MeasureAll(shapes), 240.0, 4) && !Feasible(MeasureAll(shapes), 320.0, 4)
    ensures !Monotone(MeasureAll(shapes), 4)
  {
    shapes := [Shape(LayerId(1), 4, 10, 10, 5), Shape(LayerId(2), 4, 10, 10, 5)];
    var cache := MeasureAll(shapes);
    MeasureTotal(shapes[0]);
    MeasureTotal(shapes[1]);
    TwoFloors(cache, 4, QUARTER);
    TwoFloors(cache, 4, THIRD);
    assert cache[0] == Measure(shapes[0]) && cache[1] == Measure(shapes[1]);
    FeasibleExact(cache, 4, 240.0);
    FeasibleExact(cache, 4, 320.0);
  }
}

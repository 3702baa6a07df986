/**
  What the greedy upgrade achieves: among all assignments above the floors that fit the budget, it finds the
  lexicographically largest in processing order (backend/precision_allocator.py).
 */
module Greedy {
  import opened PrecisionLevels

  /** One token group: its number of elements and the level below which it may not go. */
  datatype Item = Item(size: nat, floor: Precision)

  type Assignment = seq<Precision>

  ghost predicate AboveFloors(items: seq<Item>, a: Assignment) {
    |a| == |items| && forall i :: 0 <= i < |a| ==> Rank(items[i].floor) <= Rank(a[i])
  }

  /** Data size of an assignment in quarter bytes. */
  function Weight(items: seq<Item>, a: Assignment): nat
    requires |a| == |items|
  {
    if items == [] then 0 else Data(items[0].size, a[0]) + Weight(items[1..], a[1..])
  }

  function Floors(items: seq<Item>): (a: Assignment)
    ensures |a| == |items|
  {
    seq(|items|, i requires 0 <= i < |items| => items[i].floor)
  }

  /** The assignment while group `k` is next: decided levels before it, floors from it on. */
  function Mixed(items: seq<Item>, a: Assignment, k: nat): Assignment
    requires |a| == |items| && k <= |a|
  {
    a[..k] + Floors(items)[k..]
  }

  ghost predicate Fits(items: seq<Item>, a: Assignment, cap: int) {
    AboveFloors(items, a) && Weight(items, a) <= cap
  }

  /** At the first difference `a` is higher than `b`. */
  ghost predicate LexAbove(a: Assignment, b: Assignment) {
    exists k :: 0 <= k < |a| && k < |b| && a[..k] == b[..k] && Rank(a[k]) > Rank(b[k])
  }

  ghost predicate LexMax(items: seq<Item>, a: Assignment, cap: int) {
    Fits(items, a, cap) && forall b :: Fits(items, b, cap) ==> b == a || LexAbove(a, b)
  }

  /** When group `k` was decided it was at FP16, or its next level did not fit with all later groups at their floors. */
  ghost predicate Stuck(items: seq<Item>, a: Assignment, cap: int, k: nat)
    requires |a| == |items| && k < |a|
  {
    || a[k] == FP16
    || Weight(items, Mixed(items, a, k + 1)) + Data(items[k].size, Up(a[k])) - Data(items[k].size, a[k]) > cap
  }

  // ---- Weights ----

  lemma {:induction false} DataMonotone(n: nat, p: Precision, q: Precision)
    ensures Rank(p) <= Rank(q) ==> Data(n, p) <= Data(n, q)
    ensures p != FP16 ==> Rank(Up(p)) == Rank(p) + 1
  {
  }

  lemma {:induction false} WeightMonotone(items: seq<Item>, a: Assignment, b: Assignment)
    requires |a| == |b| == |items| && forall i :: 0 <= i < |a| ==> Rank(a[i]) <= Rank(b[i])
    ensures Weight(items, a) <= Weight(items, b)
  {
    if items != [] {
      WeightMonotone(items[1..], a[1..], b[1..]);
      DataMonotone(items[0].size, a[0], b[0]);
    }
  }

  lemma {:induction false} WeightUpdate(items: seq<Item>, a: Assignment, k: nat, p: Precision)
    requires |a| == |items| && k < |a|
    ensures Weight(items, a[k := p]) == Weight(items, a) + Data(items[k].size, p) - Data(items[k].size, a[k])
  {
    if k == 0 {
      assert a[k := p][1..] == a[1..];
    } else {
      WeightUpdate(items[1..], a[1..], k - 1, p);
      assert a[k := p][1..] == a[1..][k - 1 := p];
    }
  }

  // ---- Optimality ----

  /** An assignment that agrees so far and goes higher at `k` would not fit. */
  lemma {:induction false} HigherDoesNotFit(items: seq<Item>, a: Assignment, cap: int, b: Assignment, k: nat)
    requires AboveFloors(items, a) && k < |a| && Stuck(items, a, cap, k)
    requires AboveFloors(items, b) && b[..k] == a[..k] && Rank(b[k]) > Rank(a[k])
    ensures Weight(items, b) > cap
  {
    var mixed := Mixed(items, a, k + 1);
    var raised := mixed[k := Up(a[k])];
    WeightUpdate(items, mixed, k, Up(a[k]));
    DataMonotone(items[k].size, a[k], b[k]);
    forall i | 0 <= i < |b| ensures Rank(raised[i]) <= Rank(b[i]) {
      if i < k { assert b[..k][i] == a[..k][i]; }
    }
    WeightMonotone(items, raised, b);
  }

  lemma {:induction false} StuckIsLexMax(items: seq<Item>, a: Assignment, cap: int)
    requires Fits(items, a, cap) && forall k :: 0 <= k < |a| ==> Stuck(items, a, cap, k)
    ensures LexMax(items, a, cap)
  {
    forall b | Fits(items, b, cap) ensures b == a || LexAbove(a, b) {
      if b != a {
        var k := FirstDifference(a, b);
        if Rank(b[k]) > Rank(a[k]) {
          HigherDoesNotFit(items, a, cap, b, k);
        } else {
          RankInjective(a[k], b[k]);
        }
      }
    }
  }

  lemma {:induction false} RankInjective(p: Precision, q: Precision)
    ensures Rank(p) == Rank(q) ==> p == q
  {
  }

  lemma {:induction false} FirstDifference(a: Assignment, b: Assignment) returns (k: nat)
    requires |a| == |b| && a != b
    ensures k < |a| && a[..k] == b[..k] && a[k] != b[k]
  {
    k := 0;
    while k < |a| && a[k] == b[k]
      invariant k <= |a| && a[..k] == b[..k]
    {
      k := k + 1;
    }
    assert a[..|a|] == a && b[..|a|] == b;
  }

  lemma {:induction false} PrefixAgrees(a: Assignment, b: Assignment, k: nat)
    requires k <= |a| && k <= |b| && a[..k] == b[..k]
    ensures forall i :: 0 <= i < k ==> a[i] == b[i]
  {
    forall i | 0 <= i < k ensures a[i] == b[i] {
      assert a[..k][i] == b[..k][i];
    }
  }

  /** Lexicographic order is decided at the first difference. */
  lemma {:induction false} LexAtFirstDifference(a: Assignment, b: Assignment, k: nat)
    requires |a| == |b| && k < |a| && a[..k] == b[..k] && a[k] != b[k] && LexAbove(a, b)
    ensures Rank(a[k]) > Rank(b[k])
  {
    var i :| 0 <= i < |a| && i < |b| && a[..i] == b[..i] && Rank(a[i]) > Rank(b[i]);
    PrefixAgrees(a, b, i);
    PrefixAgrees(a, b, k);
  }

  /** There is only one such assignment, so the claim pins the result down completely. */
  lemma {:induction false} LexMaxUnique(items: seq<Item>, a: Assignment, b: Assignment, cap: int)
    requires LexMax(items, a, cap) && LexMax(items, b, cap)
    ensures a == b
  {
    if a != b {
      var k := FirstDifference(a, b);
      LexAtFirstDifference(a, b, k);
      LexAtFirstDifference(b, a, k);
    }
  }

  /** At the end no group can be raised one more level. */
  lemma {:induction false} NoGroupCanRise(items: seq<Item>, a: Assignment, cap: int, k: nat)
    requires LexMax(items, a, cap) && k < |a| && a[k] != FP16
    ensures Weight(items, a[k := Up(a[k])]) > cap
  {
    var b := a[k := Up(a[k])];
    DataMonotone(items[k].size, a[k], b[k]);
    assert AboveFloors(items, b);
    assert b[k] != a[k] && a[..k] == b[..k];
    if Weight(items, b) <= cap {
      LexAtFirstDifference(a, b, k);
    }
  }

  /** An earlier group ends no lower than a later one whose floor is no higher and whose size is no smaller. */
  lemma {:induction false} EarlierNoLower(items: seq<Item>, a: Assignment, cap: int, i: nat, j: nat)
    requires LexMax(items, a, cap) && i < j < |a|
    requires Rank(items[j].floor) <= Rank(items[i].floor) && items[j].size >= items[i].size
    ensures Rank(a[i]) >= Rank(a[j])
  {
    if Rank(a[i]) < Rank(a[j]) {
      var b := a[i := Up(a[i])][j := Down(a[j])];
      DataMonotone(items[i].size, a[i], a[j]);
      WeightUpdate(items, a, i, Up(a[i]));
      WeightUpdate(items, a[i := Up(a[i])], j, Down(a[j]));
      ShiftPays(items[i].size, items[j].size, a[i], a[j]);
      assert Fits(items, b, cap);
      assert b[i] != a[i] && a[..i] == b[..i];
      LexAtFirstDifference(a, b, i);
    }
  }

  /** Raising the smaller of two groups to at most the larger's level costs no more than lowering the larger saves. */
  lemma {:induction false} ShiftPays(s: nat, t: nat, p: Precision, q: Precision)
    requires s <= t && Rank(p) < Rank(q)
    ensures Data(s, Up(p)) - Data(s, p) <= Data(t, q) - Data(t, Down(q))
    ensures Rank(Down(q)) == Rank(q) - 1
  {
  }
}

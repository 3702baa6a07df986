/** Token filters before sampling: top-k and nucleus (decode_node.py).  The output of softmax is a parameter. */
module Sampling {
  import opened Options
  import opened Seqs
  import opened Sorting

  /** A token of the vocabulary, which also indexes the probabilities. */
  datatype Token = Token(id: nat)

  function Indices(n: nat): (ids: seq<Token>)
    ensures |ids| == n && forall i :: 0 <= i < n ==> ids[i] == Token(i)
  {
    seq(n, i requires i >= 0 => Token(i))
  }

  // ---- Sets of tokens ----

  /** A set of tokens is a mask over the vocabulary. */
  function Chosen(mask: seq<bool>): Token -> bool {
    (t: Token) => t.id < |mask| && mask[t.id]
  }

  function Weight(probs: seq<real>, mask: seq<bool>): Token -> real {
    (t: Token) => if t.id < |probs| && t.id < |mask| && mask[t.id] then probs[t.id] else 0.0
  }

  function Mass(probs: seq<real>, mask: seq<bool>): real {
    Sum(Indices(|probs|), Weight(probs, mask))
  }

  function Size(mask: seq<bool>): nat {
    Count(Indices(|mask|), Chosen(mask))
  }

  function Everything(n: nat): seq<bool> { seq(n, _ => true) }

  ghost predicate Distribution(probs: seq<real>) {
    (forall i :: 0 <= i < |probs| ==> probs[i] >= 0.0) && Mass(probs, Everything(|probs|)) == 1.0
  }

  /** A permutation of the vocabulary by falling probability, ties in any order. */
  ghost predicate Descending(probs: seq<real>, order: seq<Token>) {
    && multiset(order) == multiset(Indices(|probs|))
    && (forall j :: 0 <= j < |order| ==> order[j].id < |probs|)
    && forall i, j :: 0 <= i < j < |order| ==> probs[order[i].id] >= probs[order[j].id]
  }

  /** Every token of an `n`-token vocabulary, once. */
  ghost predicate Arranges(order: seq<Token>, n: nat) {
    && |order| == n && Distinct(order)
    && (forall j :: 0 <= j < |order| ==> order[j].id < n)
    && forall i :: 0 <= i < n ==> Token(i) in order
  }

  lemma {:induction false} OrderFacts(probs: seq<real>, order: seq<Token>)
    requires Descending(probs, order)
    ensures Arranges(order, |probs|)
  {
    assert |order| == |multiset(order)| == |Indices(|probs|)|;
    DistinctPermutation(Indices(|probs|), order);
    forall i | 0 <= i < |probs| ensures Token(i) in order {
      assert Indices(|probs|)[i] in multiset(order);
    }
  }

  // ---- Nucleus filter ----

  /** Cumulative probability of the `n` most likely tokens. */
  function Prefix(probs: seq<real>, order: seq<Token>, n: nat): real
    requires n <= |order| && forall j :: 0 <= j < |order| ==> order[j].id < |probs|
  {
    if n == 0 then 0.0 else Prefix(probs, order, n - 1) + probs[order[n - 1].id]
  }

  /** Exactly the tokens at the first `n` places of the order. */
  ghost function Top(size: nat, order: seq<Token>, n: nat): seq<bool>
    requires n <= |order|
  {
    seq(size, i requires 0 <= i => Token(i) in order[..n])
  }

  /** `n` is the number of tokens the filter keeps: up to and including the first whose cumulative mass exceeds `p`. */
  ghost predicate IsCut(probs: seq<real>, order: seq<Token>, p: real, n: nat)
    requires forall j :: 0 <= j < |order| ==> order[j].id < |probs|
  {
    && n <= |order|
    && (forall j :: 0 < j < n ==> Prefix(probs, order, j) <= p)
    && (n == |order| || (n > 0 && Prefix(probs, order, n) > p))
    && (|order| > 0 ==> n > 0)
  }

  /** What the filter makes of the probabilities when it keeps the first `kept` tokens of the order. */
  ghost predicate Cut(probs: seq<real>, order: seq<Token>, kept: nat, filtered: seq<real>)
    requires kept <= |order|
  {
    && |filtered| == |probs|
    && forall i :: 0 <= i < |probs| ==> filtered[i] == if Top(|probs|, order, kept)[i] then probs[i] else 0.0
  }

  /** The nucleus filter; disabled for p = 1 and above. */
  method TopP(probs: seq<real>, order: seq<Token>, p: real) returns (filtered: seq<real>, kept: nat)
    requires Arranges(order, |probs|)
    ensures p >= 1.0 ==> filtered == probs
    ensures p < 1.0 ==> IsCut(probs, order, p, kept) && Cut(probs, order, kept, filtered)
  {
    if p >= 1.0 {
      return probs, |order|;
    }
    filtered, kept := CutOff(probs, order, p);
  }

  /** Cumulate along the order, cut after the first excess, zero the rest, scatter back. */
  method CutOff(probs: seq<real>, order: seq<Token>, p: real) returns (filtered: seq<real>, kept: nat)
    requires Arranges(order, |probs|)
    ensures IsCut(probs, order, p, kept) && Cut(probs, order, kept, filtered)
  {
    var sortedProbs := Permuted(probs, order);
    var firstExceed := FirstExceed(probs, order, p, sortedProbs);
    if firstExceed == |order| {
      KeepAll(probs, order);
      return probs, |order|;
    }
    ZeroFrom(sortedProbs, firstExceed + 1);
    filtered := Scatter(probs, order, firstExceed + 1, sortedProbs);
    kept := firstExceed + 1;
  }

  method Permuted(probs: seq<real>, order: seq<Token>) returns (sortedProbs: array<real>)
    requires forall j :: 0 <= j < |order| ==> order[j].id < |probs|
    ensures fresh(sortedProbs) && sortedProbs.Length == |order|
    ensures forall j :: 0 <= j < |order| ==> sortedProbs[j] == probs[order[j].id]
  {
    sortedProbs := new real[|order|](j requires 0 <= j < |order| => probs[order[j].id]);
  }

  /** The place of the first token whose cumulative probability exceeds `p`; the number of tokens if there is none. */
  method FirstExceed(probs: seq<real>, order: seq<Token>, p: real, sortedProbs: array<real>) returns (first: nat)
    requires forall j :: 0 <= j < |order| ==> order[j].id < |probs|
    requires sortedProbs.Length == |order|
    requires forall j :: 0 <= j < |order| ==> sortedProbs[j] == probs[order[j].id]
    ensures first <= |order|
    ensures IsCut(probs, order, p, if first == |order| then first else first + 1)
  {
    var n := sortedProbs.Length;
    var cumulative := new real[n];
    var total := 0.0;
    for j := 0 to n
      invariant total == Prefix(probs, order, j)
      invariant forall i :: 0 <= i < j ==> cumulative[i] == Prefix(probs, order, i + 1)
    {
      total := total + sortedProbs[j];
      cumulative[j] := total;
    }
    first := 0;
    while first < n && cumulative[first] <= p
      invariant 0 <= first <= n
      invariant forall j :: 0 < j <= first ==> Prefix(probs, order, j) <= p
    {
      first := first + 1;
    }
  }

  lemma {:induction false} KeepAll(probs: seq<real>, order: seq<Token>)
    requires Arranges(order, |probs|)
    ensures Cut(probs, order, |order|, probs)
  {
    assert order[..|order|] == order;
  }

  method ZeroFrom(a: array<real>, n: nat)
    requires n <= a.Length
    modifies a
    ensures forall i :: 0 <= i < a.Length ==> a[i] == if i < n then old(a[i]) else 0.0
  {
    for j := n to a.Length
      invariant forall i :: 0 <= i < a.Length ==> a[i] == if n <= i < j then 0.0 else old(a[i])
    {
      a[j] := 0.0;
    }
  }

  /** Writes the sorted probabilities back to their tokens. */
  method Scatter(probs: seq<real>, order: seq<Token>, ghost kept: nat,
                 sortedProbs: array<real>) returns (filtered: seq<real>)
    requires Arranges(order, |probs|) && kept <= |order| && sortedProbs.Length == |probs| == |order|
    requires forall i :: 0 <= i < |order| ==> sortedProbs[i] == if kept <= i then 0.0 else probs[order[i].id]
    ensures Cut(probs, order, kept, filtered)
  {
    var n := |probs|;
    var scattered := new real[n];
    for j := 0 to n
      invariant forall i :: 0 <= i < j ==> scattered[order[i].id] == sortedProbs[i]
    {
      assert forall i :: 0 <= i < j ==> order[i] != order[j];
      scattered[order[j].id] := sortedProbs[j];
    }
    forall i | 0 <= i < n ensures scattered[i] == if Top(n, order, kept)[i] then probs[i] else 0.0 {
      var j :| 0 <= j < n && order[j] == Token(i);
      TopAt(n, order, kept, j);
    }
    filtered := scattered[..];
  }

  lemma {:induction false} TopAt(size: nat, order: seq<Token>, n: nat, j: nat)
    requires n <= |order| && j < |order| && Distinct(order) && order[j].id < size
    ensures Top(size, order, n)[order[j].id] <==> j < n
  {
    assert j < n ==> order[..n][j] == order[j];
    assert Token(order[j].id) == order[j];
  }

  // ---- Minimality ----

  /** Along the order, any choice of m tokens weighs at most as much as the first m. */
  lemma {:induction false} FirstAreHeaviest(probs: seq<real>, order: seq<Token>, mask: seq<bool>, n: nat)
    requires Descending(probs, order) && |mask| == |probs| && n <= |order|
    ensures Count(order[..n], Chosen(mask)) <= n
    ensures Sum(order[..n], Weight(probs, mask)) <= Prefix(probs, order, Count(order[..n], Chosen(mask)))
  {
    if n > 0 {
      FirstAreHeaviest(probs, order, mask, n - 1);
      assert order[..n][..n - 1] == order[..n - 1];
    }
  }

  /** Among all sets of m tokens the m most likely ones weigh most. */
  lemma {:induction false} HeaviestOfSize(probs: seq<real>, order: seq<Token>, mask: seq<bool>)
    requires Descending(probs, order) && |mask| == |probs|
    ensures |order| == |probs| && Size(mask) <= |probs|
    ensures Mass(probs, mask) <= Prefix(probs, order, Size(mask))
  {
    OrderFacts(probs, order);
    FirstAreHeaviest(probs, order, mask, |order|);
    assert order[..|order|] == order;
    SumPermuted(Indices(|probs|), order, Weight(probs, mask), Chosen(mask));
  }

  lemma {:induction false} TopAlong(probs: seq<real>, order: seq<Token>, n: nat, m: nat)
    requires Descending(probs, order) && n <= |order| && m <= |order| == |probs| && Distinct(order)
    ensures Sum(order[..m], Weight(probs, Top(|probs|, order, n))) == Prefix(probs, order, if m < n then m else n)
    ensures Count(order[..m], Chosen(Top(|probs|, order, n))) == if m < n then m else n
  {
    if m > 0 {
      TopAlong(probs, order, n, m - 1);
      assert order[..m][..m - 1] == order[..m - 1];
      TopAt(|probs|, order, n, m - 1);
    }
  }

  /** The first n tokens of the order weigh the n-th cumulative sum. */
  lemma {:induction false} TopMass(probs: seq<real>, order: seq<Token>, n: nat)
    requires Descending(probs, order) && n <= |order|
    ensures Mass(probs, Top(|probs|, order, n)) == Prefix(probs, order, n)
    ensures Size(Top(|probs|, order, n)) == n
  {
    OrderFacts(probs, order);
    TopAlong(probs, order, n, |order|);
    assert order[..|order|] == order;
    SumPermuted(Indices(|probs|), order, Weight(probs, Top(|probs|, order, n)), Chosen(Top(|probs|, order, n)));
  }

  lemma {:induction false} PrefixMonotone(probs: seq<real>, order: seq<Token>, m: nat, n: nat)
    requires m <= n <= |order| && forall j :: 0 <= j < |order| ==> order[j].id < |probs|
    requires forall i :: 0 <= i < |probs| ==> probs[i] >= 0.0
    ensures Prefix(probs, order, m) <= Prefix(probs, order, n)
  {
    if m < n { PrefixMonotone(probs, order, m, n - 1); }
  }

  lemma {:induction false} SameSum(ids: seq<Token>, f: Token -> real, g: Token -> real)
    requires forall i :: i in ids ==> f(i) == g(i)
    ensures Sum(ids, f) == Sum(ids, g)
  {
    if ids != [] { SameSum(ids[..|ids| - 1], f, g); }
  }

  lemma {:induction false} WholeMass(probs: seq<real>, order: seq<Token>)
    requires Distribution(probs) && Descending(probs, order)
    ensures Prefix(probs, order, |order|) == 1.0
  {
    OrderFacts(probs, order);
    TopMass(probs, order, |order|);
    SameSum(Indices(|probs|), Weight(probs, Everything(|probs|)), Weight(probs, Top(|probs|, order, |order|)));
  }

  /** The kept tokens weigh more than p, include a most likely token, and no smaller set weighs more than p. */
  lemma {:induction false} NucleusMinimal(probs: seq<real>, order: seq<Token>, p: real, kept: nat)
    requires Distribution(probs) && Descending(probs, order) && 0.0 <= p < 1.0 && IsCut(probs, order, p, kept)
    ensures Mass(probs, Top(|probs|, order, kept)) > p && Size(Top(|probs|, order, kept)) == kept > 0
    ensures Top(|probs|, order, kept)[order[0].id] && forall i :: 0 <= i < |probs| ==> probs[i] <= probs[order[0].id]
    ensures forall mask: seq<bool> :: |mask| == |probs| && Mass(probs, mask) > p ==> Size(mask) >= kept
  {
    OrderFacts(probs, order);
    WholeMass(probs, order);
    TopMass(probs, order, kept);
    forall i | 0 <= i < |probs| ensures probs[i] <= probs[order[0].id] {
      var j :| 0 <= j < |order| && order[j] == Token(i);
    }
    forall mask: seq<bool> | |mask| == |probs| && Mass(probs, mask) > p ensures Size(mask) >= kept {
      HeaviestOfSize(probs, order, mask);
    }
  }

  /**
   * The documentation promises the smallest set whose mass is at least p.  The code delivers that exactly when no
   * cumulative sum hits p; otherwise it keeps a token too many.
   */
  lemma {:induction false} SmallestAtLeast(probs: seq<real>, order: seq<Token>, p: real, kept: nat)
    requires Distribution(probs) && Descending(probs, order) && 0.0 <= p < 1.0 && IsCut(probs, order, p, kept)
    ensures (forall mask: seq<bool> :: |mask| == |probs| && Mass(probs, mask) >= p ==> Size(mask) >= kept)
       <==> forall n :: 0 <= n <= |order| ==> Prefix(probs, order, n) != p
  {
    OrderFacts(probs, order);
    WholeMass(probs, order);
    if n :| 0 <= n <= |order| && Prefix(probs, order, n) == p {
      if n >= kept { PrefixMonotone(probs, order, kept, n); }
      TopMass(probs, order, n);
      assert Mass(probs, Top(|probs|, order, n)) >= p;
    } else {
      forall mask: seq<bool> | |mask| == |probs| && Mass(probs, mask) >= p ensures Size(mask) >= kept {
        HeaviestOfSize(probs, order, mask);
      }
    }
  }

  // ---- The order used by the filter ----

  function Likelihood(probs: seq<real>): Token -> real {
    (t: Token) => if t.id < |probs| then -probs[t.id] else 0.0
  }

  function OrderOf(probs: seq<real>): seq<Token> {
    Sort(Indices(|probs|), Likelihood(probs))
  }

  /** A stable descending sort is one of the orders the results above hold for. */
  lemma {:induction false} OrderOfDescends(probs: seq<real>)
    ensures Descending(probs, OrderOf(probs))
  {
    var order := OrderOf(probs);
    SortSorted(Indices(|probs|), Likelihood(probs));
    SortMembers(Indices(|probs|), Likelihood(probs));
    forall j | 0 <= j < |order| ensures order[j].id < |probs| {
      assert order[j] in Indices(|probs|);
    }
    forall i, j | 0 <= i < j < |order| ensures probs[order[i].id] >= probs[order[j].id] {
      assert Likelihood(probs)(order[i]) <= Likelihood(probs)(order[j]);
    }
  }

  // ---- Top-k filter ----

  /** How many logits are strictly larger than `x`. */
  function Above(xs: seq<real>, x: real): nat {
    if xs == [] then 0 else (if xs[0] > x then 1 else 0) + Above(xs[1..], x)
  }

  function Negated(): real -> real {
    (x: real) => -x
  }

  /** Masks (None stands for minus infinity) everything outranked by k or more logits; k <= 0 disables the filter. */
  method TopK(scaled: seq<real>, topK: int) returns (masked: seq<Option<real>>)
    requires scaled != []
    ensures |masked| == |scaled|
    ensures forall i :: 0 <= i < |scaled| ==>
      masked[i] == if topK > 0 && Above(scaled, scaled[i]) >= topK then None else Some(scaled[i])
  {
    if topK <= 0 {
      return seq(|scaled|, i requires 0 <= i < |scaled| => Some(scaled[i]));
    }
    var k := if topK < |scaled| then topK else |scaled|;
    var threshold := Sort(scaled, Negated())[k - 1];
    masked := seq(|scaled|, i requires 0 <= i < |scaled| => if scaled[i] < threshold then None else Some(scaled[i]));
    forall i | 0 <= i < |scaled| ensures scaled[i] < threshold <==> Above(scaled, scaled[i]) >= topK {
      ThresholdRank(scaled, scaled[i], k);
      NotAboveItself(scaled, i);
    }
  }

  lemma {:induction false} AboveInsert(y: real, xs: seq<real>, x: real)
    ensures Above(Insert(y, xs, Negated()), x) == Above(xs, x) + if y > x then 1 else 0
  {
    if xs == [] || Negated()(y) <= Negated()(xs[0]) {
      assert ([y] + xs)[1..] == xs;
    } else {
      AboveInsert(y, xs[1..], x);
      assert ([xs[0]] + Insert(y, xs[1..], Negated()))[1..] == Insert(y, xs[1..], Negated());
    }
  }

  lemma {:induction false} AboveSort(xs: seq<real>, x: real)
    ensures Above(Sort(xs, Negated()), x) == Above(xs, x)
  {
    if xs != [] {
      AboveSort(xs[1..], x);
      AboveInsert(xs[0], Sort(xs[1..], Negated()), x);
    }
  }

  lemma {:induction false} AboveAtLeast(xs: seq<real>, x: real, k: nat)
    requires k <= |xs| && forall i :: 0 <= i < k ==> xs[i] > x
    ensures Above(xs, x) >= k
  {
    if k > 0 { AboveAtLeast(xs[1..], x, k - 1); }
  }

  lemma {:induction false} AboveAtMost(xs: seq<real>, x: real, k: nat)
    requires k <= |xs| && forall i :: k <= i < |xs| ==> xs[i] <= x
    ensures Above(xs, x) <= k
  {
    if xs != [] { AboveAtMost(xs[1..], x, if k > 0 then k - 1 else 0); }
  }

  lemma {:induction false} RankInSorted(sorted: seq<real>, x: real, k: nat)
    requires 0 < k <= |sorted| && forall i, j :: 0 <= i < j < |sorted| ==> sorted[i] >= sorted[j]
    ensures x < sorted[k - 1] <==> Above(sorted, x) >= k
  {
    if x < sorted[k - 1] {
      AboveAtLeast(sorted, x, k);
    } else {
      AboveAtMost(sorted, x, k - 1);
    }
  }

  lemma {:induction false} SortedDescending(xs: seq<real>)
    ensures var sorted := Sort(xs, Negated()); forall i, j :: 0 <= i < j < |sorted| ==> sorted[i] >= sorted[j]
  {
    var sorted := Sort(xs, Negated());
    SortSorted(xs, Negated());
    forall i, j | 0 <= i < j < |sorted| ensures sorted[i] >= sorted[j] {
      assert Negated()(sorted[i]) <= Negated()(sorted[j]);
    }
  }

  /** The k-th largest logit separates those outranked by k or more from the rest. */
  lemma {:induction false} ThresholdRank(xs: seq<real>, x: real, k: nat)
    requires 0 < k <= |xs|
    ensures x < Sort(xs, Negated())[k - 1] <==> Above(xs, x) >= k
  {
    SortedDescending(xs);
    AboveSort(xs, x);
    RankInSorted(Sort(xs, Negated()), x, k);
  }

  lemma {:induction false} NotAboveItself(xs: seq<real>, i: nat)
    requires i < |xs|
    ensures Above(xs, xs[i]) < |xs|
  {
    if i == 0 { AboveAtMost(xs[1..], xs[0], |xs| - 1); } else { NotAboveItself(xs[1..], i - 1); }
  }
}

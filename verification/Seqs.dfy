/** Facts about sequences that are cheaper to name than to rediscover. */
module Seqs {

  lemma {:induction false} Associative<T>(a: seq<T>, b: seq<T>, c: seq<T>)
    ensures (a + b) + c == a + (b + c)
  {
  }

  lemma {:induction false} HeadTail<T>(s: seq<T>)
    requires s != []
    ensures s == [s[0]] + s[1..]
  {
  }

  lemma {:induction false} EmptyLeft<T>(s: seq<T>)
    ensures [] + s == s
  {
  }

  /** The tail of a concatenation, when there is one on the left. */
  lemma {:induction false} TailOf<T>(a: seq<T>, b: seq<T>)
    requires a != []
    ensures (a + b)[1..] == a[1..] + b && (a + b)[0] == a[0]
  {
  }

  function Without<T>(s: seq<T>, i: nat): seq<T>
    requires i < |s|
  {
    s[..i] + s[i + 1..]
  }

  lemma {:induction false} WithoutMultiset<T>(s: seq<T>, i: nat)
    requires i < |s|
    ensures multiset(Without(s, i)) == multiset(s) - multiset{s[i]}
  {
    assert s == s[..i] + [s[i]] + s[i + 1..];
  }

  // ---- Sums and counts over a list ----

  function Sum<T>(s: seq<T>, f: T -> real): real {
    if s == [] then 0.0 else Sum(s[..|s| - 1], f) + f(s[|s| - 1])
  }

  function Count<T>(s: seq<T>, p: T -> bool): nat {
    if s == [] then 0 else Count(s[..|s| - 1], p) + if p(s[|s| - 1]) then 1 else 0
  }

  lemma {:induction false} SumConcat<T>(a: seq<T>, b: seq<T>, f: T -> real, p: T -> bool)
    ensures Sum(a + b, f) == Sum(a, f) + Sum(b, f)
    ensures Count(a + b, p) == Count(a, p) + Count(b, p)
  {
    if b == [] {
      assert a + b == a;
    } else {
      SumConcat(a, b[..|b| - 1], f, p);
      assert (a + b)[..|a + b| - 1] == a + b[..|b| - 1];
    }
  }

  lemma {:induction false} SumWithout<T>(l: seq<T>, x: T, r: seq<T>, f: T -> real, p: T -> bool)
    ensures Sum(l + [x] + r, f) == Sum(l + r, f) + f(x)
    ensures Count(l + [x] + r, p) == Count(l + r, p) + if p(x) then 1 else 0
  {
    SumConcat(l, r, f, p);
    SumConcat(l + [x], r, f, p);
    assert (l + [x])[..|l|] == l;
  }

  lemma {:induction false} TakeOut<T>(a: seq<T>, b: seq<T>) returns (l: seq<T>, r: seq<T>)
    requires multiset(a) == multiset(b) && a != []
    ensures b == l + [a[|a| - 1]] + r && multiset(a[..|a| - 1]) == multiset(l + r)
  {
    var front, x := a[..|a| - 1], a[|a| - 1];
    assert a == front + [x];
    assert x in multiset(a);
    var j :| 0 <= j < |b| && b[j] == x;
    l, r := b[..j], b[j + 1..];
    assert b == l + [x] + r;
    assert multiset(front) == multiset(a) - multiset{x};
    assert multiset(l + r) == multiset(b) - multiset{x};
  }

  /** Sums and counts do not depend on the order of the list. */
  lemma {:induction false} SumPermuted<T>(a: seq<T>, b: seq<T>, f: T -> real, p: T -> bool)
    requires multiset(a) == multiset(b)
    ensures Sum(a, f) == Sum(b, f) && Count(a, p) == Count(b, p)
    decreases |a|
  {
    assert |a| == |multiset(a)| == |b|;
    if a != [] {
      var l, r := TakeOut(a, b);
      SumPermuted(a[..|a| - 1], l + r, f, p);
      SumWithout(l, a[|a| - 1], r, f, p);
    }
  }
}

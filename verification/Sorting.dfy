/** What Go's sort package promises: a sorted rearrangement, with nothing said about equals. */
module Sorting {

  ghost predicate TotalPreorder<T(!new)>(leq: (T, T) -> bool) {
    (forall a, b :: leq(a, b) || leq(b, a)) && (forall a, b, c :: leq(a, b) && leq(b, c) ==> leq(a, c))
  }

  ghost predicate SortedBy<T>(leq: (T, T) -> bool, s: seq<T>) {
    forall i, j | 0 <= i < j < |s| :: leq(s[i], s[j])
  }

  ghost predicate IsSortOf<T>(leq: (T, T) -> bool, t: seq<T>, s: seq<T>) {
    SortedBy(leq, t) && multiset(t) == multiset(s)
  }

  ghost predicate Distinct<T>(s: seq<T>) {
    forall i, j | 0 <= i < j < |s| :: s[i] != s[j]
  }

  lemma {:induction false} DistinctIffCounts<T(!new)>(s: seq<T>)
    ensures Distinct(s) <==> forall x :: multiset(s)[x] <= 1
    decreases |s|
  {
    if s != [] {
      var init, last := s[..|s| - 1], s[|s| - 1];
      assert s == init + [last];
      DistinctIffCounts(init);
      assert forall x :: multiset(s)[x] == multiset(init)[x] + if x == last then 1 else 0;
      assert last in init <==> multiset(init)[last] > 0;
      if Distinct(init) && last !in init {
        assert forall i | 0 <= i < |init| :: init[i] in init;
      }
    }
  }

  lemma SameElements<T(!new)>(s: seq<T>, t: seq<T>)
    requires Distinct(s) && multiset(s) == multiset(t)
    ensures Distinct(t) && forall x :: x in s <==> x in t
  {
    DistinctIffCounts(s);
    DistinctIffCounts(t);
    assert forall x :: x in s <==> x in multiset(s);
  }

  lemma SameMultiset<T(!new)>(s: seq<T>, t: seq<T>)
    requires Distinct(s) && Distinct(t) && forall x :: x in s <==> x in t
    ensures multiset(s) == multiset(t)
  {
    DistinctIffCounts(s);
    DistinctIffCounts(t);
    assert forall x :: x in s <==> x in multiset(s);
    assert forall x :: x in t <==> x in multiset(t);
    forall x ensures multiset(s)[x] == multiset(t)[x] {
      assert multiset(s)[x] <= 1 && multiset(t)[x] <= 1;
      assert multiset(s)[x] > 0 <==> x in s;
      assert multiset(t)[x] > 0 <==> x in t;
    }
  }

  method Sort<T(!new)>(s: seq<T>, leq: (T, T) -> bool) returns (t: seq<T>)
    requires TotalPreorder(leq)
    ensures IsSortOf(leq, t, s)
  {
    t := [];
    for i := 0 to |s|
      invariant IsSortOf(leq, t, s[..i])
    {
      var p := 0;
      while p < |t| && leq(t[p], s[i])
        invariant 0 <= p <= |t| && forall k | 0 <= k < p :: leq(t[k], s[i])
      {
        p := p + 1;
      }
      Rest(leq, t, p, s[i]);
      InsertSorted(leq, t, p, s[i]);
      assert s[..i + 1] == s[..i] + [s[i]];
      t := t[..p] + [s[i]] + t[p..];
    }
    assert s[..|s|] == s;
  }

  lemma Rest<T(!new)>(leq: (T, T) -> bool, t: seq<T>, p: nat, x: T)
    requires TotalPreorder(leq) && SortedBy(leq, t) && p <= |t| && (p < |t| ==> !leq(t[p], x))
    ensures forall k | p <= k < |t| :: leq(x, t[k])
  {
    if p < |t| {
      assert leq(x, t[p]);
      forall k | p < k < |t| ensures leq(x, t[k]) {
        assert leq(t[p], t[k]);
      }
    }
  }

  lemma Without<T>(s: seq<T>, i: nat)
    requires i < |s|
    ensures multiset(s[..i] + s[i + 1..]) == multiset(s) - multiset{s[i]}
  {
    assert s == s[..i] + [s[i]] + s[i + 1..];
  }

  /** Dropping equal elements leaves equal multisets. */
  lemma WithoutEqual<T>(s: seq<T>, i: nat, t: seq<T>, j: nat)
    requires i < |s| && j < |t| && s[i] == t[j] && multiset(s) == multiset(t)
    ensures multiset(s[..i] + s[i + 1..]) == multiset(t[..j] + t[j + 1..])
  {
    Without(s, i);
    Without(t, j);
  }

  lemma LeastFirst<T(!new)>(leq: (T, T) -> bool, s: seq<T>, t: seq<T>)
    requires SortedBy(leq, s) && SortedBy(leq, t) && multiset(s) == multiset(t) && s != [] && t != []
    requires leq(s[0], s[0])
    ensures leq(s[0], t[0])
  {
    assert t[0] in multiset(s);
    var i :| 0 <= i < |s| && s[i] == t[0];
    assert i == 0 || leq(s[0], s[i]);
  }

  lemma InsertSorted<T(!new)>(leq: (T, T) -> bool, t: seq<T>, p: nat, x: T)
    requires SortedBy(leq, t) && p <= |t|
    requires forall k | 0 <= k < p :: leq(t[k], x)
    requires forall k | p <= k < |t| :: leq(x, t[k])
    ensures SortedBy(leq, t[..p] + [x] + t[p..])
    ensures multiset(t[..p] + [x] + t[p..]) == multiset(t) + multiset{x}
  {
    var u := t[..p] + [x] + t[p..];
    assert t[..p] + t[p..] == t;
    forall i, j | 0 <= i < j < |u| ensures leq(u[i], u[j]) {
      assert u[i] == if i < p then t[i] else if i == p then x else t[i - 1];
      assert u[j] == if j < p then t[j] else if j == p then x else t[j - 1];
    }
  }

  lemma Tail<T>(s: seq<T>)
    requires s != []
    ensures multiset(s[1..]) == multiset(s) - multiset{s[0]}
  {
    assert s == [s[0]] + s[1..];
  }

  ghost predicate PartialOrder<T(!new)>(leq: (T, T) -> bool) {
    (forall a :: leq(a, a)) && forall a, b | leq(a, b) && leq(b, a) :: a == b
  }

  /** Where equals are identical, there is only one way to sort. */
  lemma {:induction false} SortUnique<T(!new)>(leq: (T, T) -> bool, s: seq<T>, t: seq<T>)
    requires PartialOrder(leq) && SortedBy(leq, s) && SortedBy(leq, t) && multiset(s) == multiset(t)
    ensures s == t
    decreases |s|
  {
    assert |s| == |multiset(s)| == |multiset(t)| == |t|;
    if s != [] {
      LeastFirst(leq, s, t);
      LeastFirst(leq, t, s);
      Tail(s);
      Tail(t);
      SortUnique(leq, s[1..], t[1..]);
    }
  }
}

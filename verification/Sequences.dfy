/** Finite-sequence vocabulary: order-preserving filtering and sorting by an integer key. */
module Sequences {

  /** The elements of s that satisfy keep, in their order. */
  function Filter<T(!new)>(s: seq<T>, keep: T -> bool): (r: seq<T>)
    ensures forall x :: x in r <==> x in s && keep(x)
    ensures |r| <= |s|
  {
    if s == [] then []
    else
      var front := Filter(s[..|s| - 1], keep);
      if keep(s[|s| - 1]) then front + [s[|s| - 1]] else front
  }

  lemma {:induction false} FilterAppends<T(!new)>(a: seq<T>, b: seq<T>, keep: T -> bool)
    ensures Filter(a + b, keep) == Filter(a, keep) + Filter(b, keep)
  {
    if b == [] {
      assert a + b == a;
    } else {
      assert (a + b)[..|a + b| - 1] == a + b[..|b| - 1];
      FilterAppends(a, b[..|b| - 1], keep);
    }
  }

  lemma {:induction false} FilterNone<T(!new)>(s: seq<T>, keep: T -> bool)
    requires forall x :: x in s ==> !keep(x)
    ensures Filter(s, keep) == []
  {
    if s != [] {
      FilterNone(s[..|s| - 1], keep);
    }
  }

  lemma {:induction false} FilterAll<T(!new)>(s: seq<T>, keep: T -> bool)
    requires forall x :: x in s ==> keep(x)
    ensures Filter(s, keep) == s
  {
    if s != [] {
      FilterAll(s[..|s| - 1], keep);
    }
  }

  /** Filtering one way first can only shrink what a second filter finds. */
  lemma {:induction false} FilterShrinks<T(!new)>(s: seq<T>, first: T -> bool, second: T -> bool)
    ensures |Filter(Filter(s, first), second)| <= |Filter(s, second)|
  {
    if s != [] {
      var front, last := s[..|s| - 1], s[|s| - 1];
      FilterShrinks(front, first, second);
      if first(last) {
        FilterAppends(Filter(front, first), [last], second);
      }
      assert Filter([last], second) == if second(last) then [last] else [];
    }
  }

  /** Places x into a sorted sequence, after the elements with the same key. */
  function InsertBy<T(!new)>(x: T, s: seq<T>, key: T -> int): (r: seq<T>)
    ensures multiset(r) == multiset(s) + multiset{x}
  {
    if s == [] then [x]
    else if key(s[|s| - 1]) <= key(x) then s + [x]
    else
      var front := s[..|s| - 1];
      assert s == front + [s[|s| - 1]];
      InsertBy(x, front, key) + [s[|s| - 1]]
  }

  lemma {:induction false} InsertKeepsSorted<T(!new)>(x: T, s: seq<T>, key: T -> int)
    requires forall i, j :: 0 <= i < j < |s| ==> key(s[i]) <= key(s[j])
    ensures forall i, j :: 0 <= i < j < |InsertBy(x, s, key)| ==>
              key(InsertBy(x, s, key)[i]) <= key(InsertBy(x, s, key)[j])
  {
    if s != [] && key(s[|s| - 1]) > key(x) {
      var front, last := s[..|s| - 1], s[|s| - 1];
      InsertKeepsSorted(x, front, key);
      var r := InsertBy(x, front, key);
      forall i | 0 <= i < |r| ensures key(r[i]) <= key(last) {
        assert r[i] in multiset(r);
        assert r[i] in front || r[i] == x;
      }
      forall i, j | 0 <= i < j < |r + [last]| ensures key((r + [last])[i]) <= key((r + [last])[j]) {
        assert j < |r| || (r + [last])[j] == last;
      }
    }
  }

  /** A sorted rearrangement of s; equal keys keep their order. */
  function SortBy<T(!new)>(s: seq<T>, key: T -> int): (r: seq<T>)
    ensures multiset(r) == multiset(s)
    ensures |r| == |s|
  {
    if s == [] then []
    else
      assert s == s[..|s| - 1] + [s[|s| - 1]];
      var r := InsertBy(s[|s| - 1], SortBy(s[..|s| - 1], key), key);
      assert |multiset(r)| == |multiset(s)|;
      r
  }

  lemma {:induction false} SortBySorts<T(!new)>(s: seq<T>, key: T -> int)
    ensures forall i, j :: 0 <= i < j < |SortBy(s, key)| ==> key(SortBy(s, key)[i]) <= key(SortBy(s, key)[j])
  {
    if s != [] {
      SortBySorts(s[..|s| - 1], key);
      InsertKeepsSorted(s[|s| - 1], SortBy(s[..|s| - 1], key), key);
    }
  }

  function Sorted(s: seq<int>): (r: seq<int>)
    ensures multiset(r) == multiset(s)
    ensures forall i, j :: 0 <= i < j < |r| ==> r[i] <= r[j]
  {
    SortBySorts(s, x => x);
    SortBy(s, x => x)
  }

  lemma SameElements<T(!new)>(a: seq<T>, b: seq<T>)
    requires multiset(a) == multiset(b)
    ensures forall x :: x in a <==> x in b
    ensures |a| == |b|
  {
    forall x ensures x in a <==> x in b {
      assert x in a <==> x in multiset(a);
      assert x in b <==> x in multiset(b);
    }
    assert |multiset(a)| == |a| && |multiset(b)| == |b|;
  }

  // ---- Sets of integers -------------------------------------------------------------------------

  function SetOf(s: seq<int>): (r: set<int>)
    ensures forall x :: x in r <==> x in s
  {
    set x | x in s
  }

  lemma EmptyOrNot(s: set<int>)
    ensures s == {} || exists x :: x in s
  {
    if forall x :: x !in s {
      assert s == {};
    }
  }

  /** Lists a set in an arbitrary order. */
  method Elements(s: set<int>) returns (ids: seq<int>)
    ensures multiset(ids) == multiset(s) && |ids| == |s|
  {
    var rest := s;
    ids := [];
    while rest != {}
      invariant rest <= s
      invariant multiset(ids) == multiset(s - rest)
      invariant |ids| + |rest| == |s|
    {
      EmptyOrNot(rest);
      var x :| x in rest;
      assert s - (rest - {x}) == (s - rest) + {x};
      rest := rest - {x};
      ids := ids + [x];
    }
    assert s - rest == s;
  }

  lemma {:induction false} SetOfDistinct(s: seq<int>)
    requires forall i, j :: 0 <= i < j < |s| ==> s[i] < s[j]
    ensures |SetOf(s)| == |s|
  {
    if s != [] {
      var front := s[..|s| - 1];
      SetOfDistinct(front);
      assert SetOf(s) == SetOf(front) + {s[|s| - 1]};
    }
  }

  lemma RepeatedCounts(ids: seq<int>, i: nat, j: nat)
    requires i < j < |ids| && ids[i] == ids[j]
    ensures multiset(ids)[ids[i]] >= 2
  {
    assert ids == ids[..j] + [ids[j]] + ids[j + 1..];
    assert ids[..j][i] in ids[..j];
  }

  /** A sorted listing of a set is strictly increasing. */
  lemma StrictlyIncreasing(s: set<int>, ids: seq<int>)
    requires multiset(ids) == multiset(s)
    requires forall i, j :: 0 <= i < j < |ids| ==> ids[i] <= ids[j]
    ensures forall i, j :: 0 <= i < j < |ids| ==> ids[i] < ids[j]
  {
    forall i, j | 0 <= i < j < |ids| ensures ids[i] < ids[j] {
      assert multiset(s)[ids[i]] <= 1;
      if ids[i] == ids[j] {
        RepeatedCounts(ids, i, j);
      }
    }
  }
}

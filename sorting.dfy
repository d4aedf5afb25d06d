/** Ascending order on integer sequences. The estimator sorts the logged dates
    before taking gaps, and the quartile computation sorts the gaps. */
module Sorting {

  predicate Sorted(s: seq<int>) {
    forall i, j :: 0 <= i < j < |s| ==> s[i] <= s[j]
  }

  /** An element no larger than the head of an ascending sequence can be
      put in front of it. */
  lemma PrependSorted(head: int, s: seq<int>)
    requires Sorted(s) && (s == [] || head <= s[0])
    ensures Sorted([head] + s)
  {
    var r := [head] + s;
    forall i, j | 0 <= i < j < |r|
      ensures r[i] <= r[j]
    {
      assert r[j] == s[j - 1];
      if i > 0 {
        assert r[i] == s[i - 1];
      }
    }
  }

  /** Inserts `x` into an ascending sequence, keeping it ascending. */
  function Insert(x: int, s: seq<int>): (r: seq<int>)
    requires Sorted(s)
    ensures Sorted(r)
    ensures multiset(r) == multiset(s) + multiset{x}
    ensures forall y :: y in r <==> y == x || y in s
  {
    if s == [] || x <= s[0] then
      PrependSorted(x, s);
      [x] + s
    else
      var head := s[0];
      assert s == [head] + s[1..];
      var rest := Insert(x, s[1..]);
      assert rest[0] in rest;
      PrependSorted(head, rest);
      [head] + rest
  }

  /** Insertion sort: the ascending rearrangement of `s`. */
  function Sort(s: seq<int>): (r: seq<int>)
    ensures Sorted(r)
    ensures multiset(r) == multiset(s)
    ensures |r| == |s|
  {
    if s == [] then []
    else
      assert s == [s[0]] + s[1..];
      Insert(s[0], Sort(s[1..]))
  }

  /** Two ascending arrangements of the same multiset start with the same
      element: each head is the least element of both. */
  lemma SameHead(a: seq<int>, b: seq<int>)
    requires Sorted(a) && Sorted(b) && a != []
    requires multiset(a) == multiset(b)
    ensures b != [] && a[0] == b[0]
  {
    assert a[0] in multiset(b);
    assert b != [] && b[0] in multiset(a);
    assert a[0] in b && b[0] in a;
  }

  /** Removing equal heads from sequences with the same multiset leaves
      tails with the same multiset. */
  lemma SameTails(a: seq<int>, b: seq<int>)
    requires a != [] && b != [] && a[0] == b[0]
    requires multiset(a) == multiset(b)
    ensures multiset(a[1..]) == multiset(b[1..])
  {
    assert a == [a[0]] + a[1..] && b == [b[0]] + b[1..];
    assert multiset(a[1..]) == multiset(a) - multiset{a[0]};
    assert multiset(b[1..]) == multiset(b) - multiset{b[0]};
  }

  /** There is only one ascending arrangement of a multiset of integers. */
  lemma {:induction false} SortedUnique(a: seq<int>, b: seq<int>)
    requires Sorted(a) && Sorted(b)
    requires multiset(a) == multiset(b)
    ensures a == b
  {
    if a == [] {
      assert |b| == |multiset(b)| == 0;
    } else {
      SameHead(a, b);
      SameTails(a, b);
      SortedUnique(a[1..], b[1..]);
      assert a == [a[0]] + a[1..] && b == [b[0]] + b[1..];
    }
  }

  /** Sorting forgets the order of its input: two rearrangements of the same
      values sort to the same sequence, and a sorted input is returned as is. */
  lemma SortDependsOnlyOnMultiset(s: seq<int>, t: seq<int>)
    requires multiset(s) == multiset(t)
    ensures Sort(s) == Sort(t)
  {
    SortedUnique(Sort(s), Sort(t));
  }

  lemma SortOfSorted(s: seq<int>)
    requires Sorted(s)
    ensures Sort(s) == s
  {
    SortedUnique(Sort(s), s);
  }

  /** The first and last elements of the sorted rearrangement are the
      smallest and the largest of the input. */
  lemma SortEnds(s: seq<int>)
    requires |s| > 0
    ensures Sort(s)[0] in s && Sort(s)[|s| - 1] in s
    ensures forall x :: x in s ==> Sort(s)[0] <= x <= Sort(s)[|s| - 1]
  {
    var t := Sort(s);
    ArrangementEnds(t, s);
  }

  /** The same for any ascending arrangement `t` of `s`. */
  lemma ArrangementEnds(t: seq<int>, s: seq<int>)
    requires |t| > 0 && Sorted(t) && multiset(t) == multiset(s)
    ensures t[0] in s && t[|t| - 1] in s
    ensures forall x :: x in s ==> t[0] <= x <= t[|t| - 1]
  {
    assert t[0] in multiset(s) && t[|t| - 1] in multiset(s);
    forall x | x in s
      ensures t[0] <= x <= t[|t| - 1]
    {
      assert x in multiset(t);
      var k :| 0 <= k < |t| && t[k] == x;
    }
  }
}

/** Order-preserving selection from a sequence of gaps: the shape shared by
    the boolean-mask selection of the outlier filter and the list
    comprehension of the fallback filter. */
module Filtering {

  /** The elements of `s` that satisfy `keep`, in their original order. */
  function Filter(s: seq<int>, keep: int -> bool): (r: seq<int>)
    ensures |r| <= |s|
    ensures forall x :: x in r <==> x in s && keep(x)
  {
    if s == [] then []
    else if keep(s[0]) then [s[0]] + Filter(s[1..], keep)
    else Filter(s[1..], keep)
  }

  /** `a` is obtained from `b` by deleting elements (keeping the order of
      the rest). */
  predicate IsSubsequence(a: seq<int>, b: seq<int>)
    decreases |b|
  {
    if b == [] then a == []
    else (a != [] && a[0] == b[0] && IsSubsequence(a[1..], b[1..])) || IsSubsequence(a, b[1..])
  }

  lemma {:induction false} FilterIsSubsequence(s: seq<int>, keep: int -> bool)
    ensures IsSubsequence(Filter(s, keep), s)
  {
    if s != [] {
      FilterIsSubsequence(s[1..], keep);
      if keep(s[0]) {
        var r := Filter(s, keep);
        assert r[0] == s[0] && r[1..] == Filter(s[1..], keep);
      }
    }
  }

  lemma {:induction false} FilterConcat(a: seq<int>, b: seq<int>, keep: int -> bool)
    ensures Filter(a + b, keep) == Filter(a, keep) + Filter(b, keep)
  {
    if a != [] {
      assert (a + b)[0] == a[0] && (a + b)[1..] == a[1..] + b;
      FilterConcat(a[1..], b, keep);
      if keep(a[0]) {
        assert [a[0]] + (Filter(a[1..], keep) + Filter(b, keep)) == ([a[0]] + Filter(a[1..], keep)) + Filter(b, keep);
      }
    } else {
      assert a + b == b;
    }
  }

  /** A filter whose test every element passes returns its input. */
  lemma {:induction false} FilterKeepsAll(s: seq<int>, keep: int -> bool)
    requires forall x :: x in s ==> keep(x)
    ensures Filter(s, keep) == s
  {
    if s != [] {
      var head := s[0];
      assert head in s;
      assert keep(head);
      FilterKeepsAll(s[1..], keep);
      assert s == [head] + s[1..];
    }
  }

  /** A value that passes the test is kept as many times as it occurs; any
      other value is dropped entirely. */
  lemma {:induction false} FilterMultiplicity(s: seq<int>, keep: int -> bool, v: int)
    ensures multiset(Filter(s, keep))[v] == if keep(v) then multiset(s)[v] else 0
  {
    if s != [] {
      FilterMultiplicity(s[1..], keep, v);
      assert s == [s[0]] + s[1..];
      assert multiset(s) == multiset{s[0]} + multiset(s[1..]);
      if keep(s[0]) {
        assert multiset(Filter(s, keep)) == multiset{s[0]} + multiset(Filter(s[1..], keep));
      }
    }
  }

  /** The same, for every value at once. */
  lemma FilterCounts(s: seq<int>, keep: int -> bool)
    ensures forall v :: multiset(Filter(s, keep))[v] == if keep(v) then multiset(s)[v] else 0
  {
    forall v
      ensures multiset(Filter(s, keep))[v] == if keep(v) then multiset(s)[v] else 0
    {
      FilterMultiplicity(s, keep, v);
    }
  }

  /** How many elements a filter keeps depends only on the multiset of its input. */
  lemma FilterSizeDependsOnlyOnMultiset(s: seq<int>, t: seq<int>, keep: int -> bool)
    requires multiset(s) == multiset(t)
    ensures |Filter(s, keep)| == |Filter(t, keep)|
  {
    forall v
      ensures multiset(Filter(s, keep))[v] == multiset(Filter(t, keep))[v]
    {
      FilterMultiplicity(s, keep, v);
      FilterMultiplicity(t, keep, v);
    }
    assert multiset(Filter(s, keep)) == multiset(Filter(t, keep));
    assert |multiset(Filter(s, keep))| == |multiset(Filter(t, keep))|;
  }

  /** Two positions whose elements pass the test give at least two kept elements. */
  lemma FilterKeepsTwo(s: seq<int>, i: int, j: int, keep: int -> bool)
    requires 0 <= i < j < |s|
    requires keep(s[i]) && keep(s[j])
    ensures |Filter(s, keep)| >= 2
  {
    assert s == s[..j] + s[j..];
    FilterConcat(s[..j], s[j..], keep);
    assert s[i] in s[..j];
    assert s[j] in s[j..];
  }
}

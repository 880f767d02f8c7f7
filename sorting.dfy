/** The in-place insertion sort: each element in turn is lifted out and the
    larger elements before it are shifted one place right until its slot is
    found. Modelled on integer keys. */
module Sorting {

  /** The first `n` elements of `s` are in non-decreasing order. */
  predicate SortedUpTo(s: seq<int>, n: int)
    requires n <= |s|
  {
    forall p, q :: 0 <= p < q < n ==> s[p] <= s[q]
  }

  predicate Sorted(s: seq<int>)
  {
    SortedUpTo(s, |s|)
  }

  lemma SortedTail(s: seq<int>)
    requires s != [] && Sorted(s)
    ensures Sorted(s[1..])
  {
  }

  /** `s` with the element at `hi` moved down to position `lo` and the ones
      in between shifted up by one place. */
  function MovedDown(s: seq<int>, lo: int, hi: int): seq<int>
    requires 0 <= lo <= hi < |s|
  {
    s[..lo] + [s[hi]] + s[lo..hi] + s[hi + 1..]
  }

  lemma MovedDownAt(s: seq<int>, lo: int, hi: int, k: int)
    requires 0 <= lo <= hi < |s| && 0 <= k < |s|
    ensures |MovedDown(s, lo, hi)| == |s|
    ensures MovedDown(s, lo, hi)[k] == if k < lo then s[k] else if k == lo then s[hi] else if k <= hi then s[k - 1] else s[k]
  {
  }

  /** Moving an element down keeps the same elements. */
  lemma MovedDownKeepsElements(s: seq<int>, lo: int, hi: int)
    requires 0 <= lo <= hi < |s|
    ensures multiset(MovedDown(s, lo, hi)) == multiset(s)
  {
    assert s == s[..lo] + s[lo..hi] + [s[hi]] + s[hi + 1..];
  }

  /** When the prefix before `hi` is sorted and `lo` is the slot where the
      element at `hi` fits, moving it there leaves the prefix up to and
      including `hi` sorted. */
  lemma MovedDownSorts(s: seq<int>, lo: int, hi: int)
    requires 0 <= lo <= hi < |s|
    requires SortedUpTo(s, hi)
    requires lo == 0 || s[lo - 1] <= s[hi]
    requires forall k :: lo <= k < hi ==> s[k] > s[hi]
    ensures |MovedDown(s, lo, hi)| == |s|
    ensures SortedUpTo(MovedDown(s, lo, hi), hi + 1)
  {
  }

  /** A sequence that agrees with `s` moved down, element by element, is
      a permutation of `s`, sorted up to `hi` when the slot fits, and equal
      to `s` beyond `hi`. */
  lemma MovedDownIs(s: seq<int>, u: seq<int>, lo: int, hi: int)
    requires 0 <= lo <= hi < |s| == |u|
    requires forall k :: 0 <= k < lo ==> u[k] == s[k]
    requires u[lo] == s[hi]
    requires forall k :: lo < k <= hi ==> u[k] == s[k - 1]
    requires forall k :: hi < k < |u| ==> u[k] == s[k]
    requires SortedUpTo(s, hi)
    requires lo == 0 || s[lo - 1] <= s[hi]
    requires forall k :: lo <= k < hi ==> s[k] > s[hi]
    ensures multiset(u) == multiset(s)
    ensures SortedUpTo(u, hi + 1)
    ensures u[hi + 1..] == s[hi + 1..]
  {
    var t := MovedDown(s, lo, hi);
    MovedDownAt(s, lo, hi, 0);
    forall k | 0 <= k < |u|
      ensures u[k] == t[k]
    {
      MovedDownAt(s, lo, hi, k);
    }
    assert u == t;
    MovedDownKeepsElements(s, lo, hi);
    MovedDownSorts(s, lo, hi);
  }

  /** One pass of the outer loop: lift out `a[i]`, shift the larger elements
      before it one place right, and drop it into the gap. The first `i`
      elements were sorted; afterwards the first `i + 1` are, with the same
      elements overall. */
  method InsertAt(a: array<int>, i: int)
    requires 0 < i < a.Length
    requires SortedUpTo(a[..], i)
    modifies a
    ensures SortedUpTo(a[..], i + 1)
    ensures multiset(a[..]) == multiset(old(a[..]))
    ensures a[i + 1..] == old(a[i + 1..])
  {
    var key := a[i];
    var j := i - 1;
    ghost var s := a[..];
    while j >= 0 && a[j] > key
      invariant -1 <= j <= i - 1
      invariant forall k {:trigger a[k]} :: 0 <= k <= j ==> a[k] == s[k]
      invariant forall k {:trigger a[k]} :: j + 1 < k <= i ==> a[k] == s[k - 1]
      invariant forall k {:trigger a[k]} :: i < k < a.Length ==> a[k] == s[k]
      invariant forall k :: j < k < i ==> s[k] > key
      decreases j
    {
      a[j + 1] := a[j];
      j := j - 1;
    }
    a[j + 1] := key;
    MovedDownIs(s, a[..], j + 1, i);
  }

  /** Sorts `a` in place into non-decreasing order, keeping its elements. */
  method InsertionSort(a: array<int>)
    modifies a
    ensures Sorted(a[..])
    ensures multiset(a[..]) == multiset(old(a[..]))
  {
    var i := 1;
    while i < a.Length
      invariant 1 <= i
      invariant a.Length > 0 ==> i <= a.Length && SortedUpTo(a[..], i)
      invariant multiset(a[..]) == multiset(old(a[..]))
    {
      InsertAt(a, i);
      i := i + 1;
    }
  }

  lemma SortedHeadIsLeast(s: seq<int>, x: int)
    requires Sorted(s) && x in multiset(s)
    ensures s != [] && s[0] <= x
  {
    var k :| 0 <= k < |s| && s[k] == x;
    if k > 0 {
      assert s[0] <= s[k];
    }
  }

  /** Sorting determines its result: two sorted sequences with the same
      elements are equal. So equal keys are interchangeable and any correct
      sort of the same input gives the same sequence. */
  lemma {:induction false} SortedUnique(a: seq<int>, b: seq<int>)
    requires Sorted(a) && Sorted(b) && multiset(a) == multiset(b)
    ensures a == b
    decreases |a|
  {
    if a != [] {
      assert |b| == |multiset(b)| == |multiset(a)| == |a|;
      assert a[0] in multiset(b) && b[0] in multiset(a);
      SortedHeadIsLeast(b, a[0]);
      SortedHeadIsLeast(a, b[0]);
      assert a[0] == b[0];
      assert a == [a[0]] + a[1..] && b == [b[0]] + b[1..];
      assert multiset(a) == multiset{a[0]} + multiset(a[1..]);
      assert multiset(b) == multiset{b[0]} + multiset(b[1..]);
      assert multiset(a[1..]) == multiset(a) - multiset{a[0]};
      assert multiset(b[1..]) == multiset(b) - multiset{b[0]};
      SortedTail(a);
      SortedTail(b);
      SortedUnique(a[1..], b[1..]);
    } else {
      assert |b| == |multiset(b)| == 0;
    }
  }

  /** Five items with combined bonuses 12, 5, 18, 5, 9 sort to 5, 5, 9, 12, 18. */
  lemma SortExample(r: seq<int>)
    requires Sorted(r) && multiset(r) == multiset([12, 5, 18, 5, 9])
    ensures r == [5, 5, 9, 12, 18]
  {
    var sorted := [5, 5, 9, 12, 18];
    assert multiset([12, 5, 18, 5, 9]) == multiset{5, 5, 9, 12, 18} == multiset(sorted);
    assert Sorted(sorted) by {
      forall p, q | 0 <= p < q < |sorted|
        ensures sorted[p] <= sorted[q]
      {
      }
    }
    SortedUnique(r, sorted);
  }
}

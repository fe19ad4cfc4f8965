/** Python's statistics.median, modelled as the middle of a sorted permutation of the data. */
module Stats {

  predicate Sorted(s: seq<real>)
  {
    forall i, j :: 0 <= i < j < |s| ==> s[i] <= s[j]
  }

  /** Inserts x into a sorted sequence, keeping it sorted. */
  function Insert(x: real, s: seq<real>): (r: seq<real>)
    requires Sorted(s)
    ensures Sorted(r)
    ensures multiset(r) == multiset(s) + multiset{x}
    ensures |r| == |s| + 1 && r[0] == if s == [] || x <= s[0] then x else s[0]
  {
    if s == [] then [x]
    else if x <= s[0] then [x] + s
    else
      DropFirst(s);
      var r := Insert(x, s[1..]);
      InsertBehindFirst(x, s, r);
      [s[0]] + r
  }

  /** When x goes behind the first element, the first element followed by x inserted into the
      rest is sorted and holds x and the elements of s. */
  lemma InsertBehindFirst(x: real, s: seq<real>, r: seq<real>)
    requires Sorted(s) && s != [] && s[0] < x
    requires Sorted(r) && multiset(r) == multiset(s[1..]) + multiset{x}
    requires |r| == |s| && r[0] == if |s| == 1 || x <= s[1] then x else s[1]
    ensures Sorted([s[0]] + r)
    ensures multiset([s[0]] + r) == multiset(s) + multiset{x}
  {
    SortedCons(s[0], r);
    assert s == [s[0]] + s[1..];
    assert multiset([s[0]] + r) == multiset([s[0]]) + multiset(r);
  }

  /** A sorted sequence stays sorted with an element no greater than its first in front. */
  lemma SortedCons(x: real, s: seq<real>)
    requires Sorted(s) && (s != [] ==> x <= s[0])
    ensures Sorted([x] + s)
  {
  }

  /** Insertion sort: a sorted permutation of s. */
  function Sort(s: seq<real>): (r: seq<real>)
    ensures Sorted(r)
    ensures multiset(r) == multiset(s)
    ensures |r| == |s|
  {
    if s == [] then []
    else
      assert s == [s[0]] + s[1..];
      Insert(s[0], Sort(s[1..]))
  }

  /** statistics.median: the middle element of the sorted data for an odd count, the mean of
      the two middle elements for an even count. Python raises on empty data. */
  function Median(s: seq<real>): (m: real)
    requires |s| > 0
  {
    Middle(Sort(s))
  }

  /** The middle element of a sequence of odd length, the mean of the two middle elements of
      one of even length. */
  function Middle(t: seq<real>): (m: real)
    requires |t| > 0
  {
    var n := |t|;
    if n % 2 == 1 then t[n / 2] else (t[n / 2 - 1] + t[n / 2]) / 2.0
  }

  /** The median lies between two elements of the data. */
  lemma MedianBetween(s: seq<real>)
    requires |s| > 0
    ensures exists i, j :: 0 <= i < |s| && 0 <= j < |s| && s[i] <= Median(s) <= s[j]
  {
    var t := Sort(s);
    var n := |t|;
    var hi := n / 2;
    var lo := if n % 2 == 1 then hi else hi - 1;
    assert t[lo] in multiset(t) && t[hi] in multiset(t);
    assert t[lo] in multiset(s) && t[hi] in multiset(s);
    var i :| 0 <= i < |s| && s[i] == t[lo];
    var j :| 0 <= j < |s| && s[j] == t[hi];
    assert s[i] <= Median(s) <= s[j];
  }

  /** Bounds that hold of every element hold of the median. */
  lemma MedianWithin(s: seq<real>, lo: real, hi: real)
    requires |s| > 0
    requires forall i :: 0 <= i < |s| ==> lo < s[i] < hi
    ensures lo < Median(s) < hi
  {
    MedianBetween(s);
  }

  /** A sorted sequence is determined by its multiset of elements. */
  lemma {:induction false} SortedUnique(a: seq<real>, b: seq<real>)
    requires Sorted(a) && Sorted(b)
    requires multiset(a) == multiset(b)
    ensures a == b
  {
    SameLength(a, b);
    if a != [] {
      var x, y := a[0], b[0];
      assert x in multiset(b);
      assert y in multiset(a);
      var i :| 0 <= i < |b| && b[i] == x;
      var j :| 0 <= j < |a| && a[j] == y;
      assert x == y;
      DropFirst(a);
      DropFirst(b);
      SortedUnique(a[1..], b[1..]);
    }
  }

  lemma SameLength(a: seq<real>, b: seq<real>)
    requires multiset(a) == multiset(b)
    ensures |a| == |b|
  {
    assert |a| == |multiset(a)|;
    assert |b| == |multiset(b)|;
  }

  lemma DropFirst(a: seq<real>)
    requires |a| > 0
    ensures multiset(a[1..]) == multiset(a) - multiset{a[0]}
    ensures Sorted(a) ==> Sorted(a[1..])
  {
    assert a == [a[0]] + a[1..];
  }

  /** The median depends only on the multiset of the data, not on its order. */
  lemma MedianOfPermutation(s: seq<real>, s': seq<real>)
    requires |s| > 0
    requires multiset(s) == multiset(s')
    ensures |s'| > 0 && Median(s) == Median(s')
  {
    SameLength(s, s');
    assert Sort(s) == Sort(s') by {
      SortedUnique(Sort(s), Sort(s'));
    }
  }

  /** On sorted data the median is read off the middle directly. */
  lemma MedianOfSorted(s: seq<real>)
    requires |s| > 0 && Sorted(s)
    ensures Median(s) == Middle(s)
  {
    SortOfSorted(s);
  }

  /** The median of two values is their mean, whatever their order. */
  lemma MedianOfTwo(a: real, b: real)
    ensures Median([a, b]) == (a + b) / 2.0
  {
    assert [a, b][1..] == [b] && [b][1..] == [];
    assert Sort([b]) == Insert(b, []) == [b];
    assert Sort([a, b]) == Insert(a, [b]);
    if b < a {
      assert [b, a][1..] == [a];
      assert Insert(a, [b]) == [b] + Insert(a, []) == [b, a];
    }
  }

  /** Sorting already sorted data leaves it unchanged. */
  lemma {:induction false} SortOfSorted(s: seq<real>)
    requires Sorted(s)
    ensures Sort(s) == s
  {
    if s != [] {
      var t := s[1..];
      assert s == [s[0]] + t;
      assert Sort(s) == Insert(s[0], Sort(t));
      assert Sorted(t) && (t != [] ==> s[0] <= t[0]);
      SortOfSorted(t);
      assert Insert(s[0], t) == [s[0]] + t;
    }
  }
}

/** Ascending sort of a double array, as `Arrays.sort` leaves it. The ascending
    arrangement of a multiset of reals is unique (OrderedPermutationUnique), so
    the functional insertion sort `SortAsc` is the reference for any in-place
    sorting algorithm, and `SortInPlace` is proved to produce exactly it. */
module Sorting {

  predicate Ordered(s: seq<real>)
  {
    forall i, j :: 0 <= i < j < |s| ==> s[i] <= s[j]
  }

  /** Inserts `x` into an ascending sequence before the first element not below it. */
  ghost function Insert(x: real, s: seq<real>): (r: seq<real>)
    requires Ordered(s)
    ensures Ordered(r)
    ensures multiset(r) == multiset(s) + multiset{x}
    ensures |r| == |s| + 1
    ensures r[0] == if s == [] || x <= s[0] then x else s[0]
  {
    if s == [] || x <= s[0] then
      [x] + s
    else
      var rest := Insert(x, s[1..]);
      assert s == [s[0]] + s[1..];
      [s[0]] + rest
  }

  /** Insertion sort: a witness that every sequence has an ascending permutation. */
  ghost function InsertionSort(s: seq<real>): (r: seq<real>)
    ensures Ordered(r)
    ensures multiset(r) == multiset(s)
  {
    if s == [] then []
    else
      assert s == [s[0]] + s[1..];
      Insert(s[0], InsertionSort(s[1..]))
  }

  /** The ascending permutation of `s`, unique by OrderedPermutationUnique. */
  ghost function SortAsc(s: seq<real>): (r: seq<real>)
    ensures Ordered(r)
    ensures multiset(r) == multiset(s)
    ensures |r| == |s|
  {
    assert Ordered(InsertionSort(s)) && multiset(InsertionSort(s)) == multiset(s);
    var r :| Ordered(r) && multiset(r) == multiset(s);
    assert |r| == |multiset(r)| == |multiset(s)| == |s|;
    r
  }

  /** Two ascending sequences holding the same values are equal: how a
      sort permutes equal elements cannot be observed. */
  lemma {:induction false} OrderedPermutationUnique(a: seq<real>, b: seq<real>)
    requires Ordered(a) && Ordered(b)
    requires multiset(a) == multiset(b)
    ensures a == b
  {
    assert |a| == |multiset(a)| == |multiset(b)| == |b|;
    if |a| > 0 {
      assert a == [a[0]] + a[1..];
      assert b == [b[0]] + b[1..];
      assert a[0] in multiset(b);
      var j :| 0 <= j < |b| && b[j] == a[0];
      assert b[0] <= a[0];
      assert b[0] in multiset(a);
      var k :| 0 <= k < |a| && a[k] == b[0];
      assert a[0] <= b[0];
      assert multiset(a[1..]) == multiset(a) - multiset{a[0]};
      assert multiset(b[1..]) == multiset(b) - multiset{b[0]};
      OrderedPermutationUnique(a[1..], b[1..]);
    }
  }

  /** The ascending permutation computed in any way is `SortAsc`. */
  lemma IsSortAsc(r: seq<real>, s: seq<real>)
    requires Ordered(r) && multiset(r) == multiset(s)
    ensures r == SortAsc(s)
  {
    OrderedPermutationUnique(r, SortAsc(s));
  }

  /** In-place insertion sort by adjacent swaps; leaves `a` as `SortAsc` of its
      old contents. */
  method SortInPlace(a: array<real>)
    modifies a
    ensures a[..] == SortAsc(old(a[..]))
  {
    var i := 0;
    while i < a.Length
      invariant 0 <= i <= a.Length
      invariant Ordered(a[..i])
      invariant multiset(a[..]) == multiset(old(a[..]))
    {
      SiftDown(a, i);
      i := i + 1;
    }
    assert a[..a.Length] == a[..];
    IsSortAsc(a[..], old(a[..]));
  }

  /** Moves `a[i]` left past every larger element, extending the ascending
      prefix `a[..i]` by one. */
  method SiftDown(a: array<real>, i: nat)
    requires i < a.Length
    requires Ordered(a[..i])
    modifies a
    ensures Ordered(a[..i + 1])
    ensures multiset(a[..]) == multiset(old(a[..]))
  {
    var j := i;
    while 0 < j && a[j] < a[j - 1]
      invariant 0 <= j <= i
      invariant forall k, l :: 0 <= k < l <= i && k != j && l != j ==> a[k] <= a[l]
      invariant forall l :: j < l <= i ==> a[j] <= a[l]
      invariant multiset(a[..]) == multiset(old(a[..]))
    {
      a[j - 1], a[j] := a[j], a[j - 1];
      j := j - 1;
    }
  }
}

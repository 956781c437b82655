/**
 Ascending order on sequences of reals: the `list.sort()` the plot code
 applies to the effect boundaries. Sorting is modelled by insertion; any
 sort gives the same result, because a sorted permutation is unique.
 */
module Sorting {

  /** `s` is in ascending order. */
  predicate Sorted(s: seq<real>) {
    forall i, j :: 0 <= i < j < |s| ==> s[i] <= s[j]
  }

  /** Inserts `v` into the sorted sequence `s`, keeping it sorted. */
  function Insert(v: real, s: seq<real>): (r: seq<real>)
    requires Sorted(s)
    ensures Sorted(r)
    ensures multiset(r) == multiset(s) + multiset{v}
    ensures forall w :: w in r ==> w == v || w in s
  {
    if |s| == 0 then [v]
    else if v <= s[0] then [v] + s
    else
      var rest := Insert(v, s[1..]);
      assert s == [s[0]] + s[1..];
      assert forall k :: 0 <= k < |rest| ==> s[0] <= rest[k] by {
        forall k | 0 <= k < |rest|
          ensures s[0] <= rest[k]
        {
          assert rest[k] in rest;
        }
      }
      [s[0]] + rest
  }

  /** Sorts `s` ascending, keeping every element with its multiplicity. */
  function SortAscending(s: seq<real>): (r: seq<real>)
    ensures Sorted(r)
    ensures multiset(r) == multiset(s)
    ensures |r| == |s|
  {
    if |s| == 0 then []
    else
      assert s == [s[0]] + s[1..];
      Insert(s[0], SortAscending(s[1..]))
  }

  /** Every element of a sorted sequence is at least its first element. */
  lemma HeadIsLeast(s: seq<real>, v: real)
    requires Sorted(s) && v in multiset(s)
    ensures |s| > 0 && s[0] <= v
  {
    var k :| 0 <= k < |s| && s[k] == v;
  }

  /** Two sorted permutations of each other start with the same element. */
  lemma HeadsAgree(a: seq<real>, b: seq<real>)
    requires Sorted(a) && Sorted(b) && multiset(a) == multiset(b) && |a| > 0
    ensures |b| > 0 && a[0] == b[0]
  {
    assert a[0] in multiset(b);
    HeadIsLeast(b, a[0]);
    assert b[0] in multiset(a);
    HeadIsLeast(a, b[0]);
  }

  /** Removing an equal first element from two permutations of each other leaves permutations. */
  lemma TailsArePermutations(a: seq<real>, b: seq<real>)
    requires multiset(a) == multiset(b) && |a| > 0 && |b| > 0 && a[0] == b[0]
    ensures multiset(a[1..]) == multiset(b[1..])
  {
    assert a == [a[0]] + a[1..] && b == [b[0]] + b[1..];
    assert multiset(a[1..]) == multiset(a) - multiset{a[0]};
    assert multiset(b[1..]) == multiset(b) - multiset{b[0]};
  }

  /** Two sorted sequences with the same elements are the same sequence. */
  lemma {:induction false} SortedPermutationsAreEqual(a: seq<real>, b: seq<real>)
    requires Sorted(a) && Sorted(b)
    requires multiset(a) == multiset(b)
    ensures a == b
    decreases |a|
  {
    assert |a| == |multiset(a)| == |multiset(b)| == |b|;
    if |a| > 0 {
      HeadsAgree(a, b);
      TailsArePermutations(a, b);
      SortedPermutationsAreEqual(a[1..], b[1..]);
      assert a == [a[0]] + a[1..] && b == [b[0]] + b[1..];
    }
  }

  /** The first and last elements of a sorted permutation of `s` are the least and greatest of `s`. */
  lemma {:induction false} SortedEnds(r: seq<real>, s: seq<real>)
    requires Sorted(r) && multiset(r) == multiset(s) && |s| > 0
    ensures |r| == |s|
    ensures r[0] in s && r[|r| - 1] in s
    ensures forall v :: v in s ==> r[0] <= v <= r[|r| - 1]
  {
    assert |r| == |multiset(r)| == |multiset(s)| == |s|;
    assert r[0] in multiset(r) && r[|r| - 1] in multiset(r);
    forall v | v in s
      ensures r[0] <= v <= r[|r| - 1]
    {
      assert v in multiset(s);
      var k :| 0 <= k < |r| && r[k] == v;
    }
  }
}

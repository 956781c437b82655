/**
 The interval boundaries the decomposition chart is drawn between: the
 x-quantities of the income, substitution and old bundles, and of the
 endowment-income bundle in endowment mode, with the absent entry dropped
 and the rest sorted ascending. Equal quantities are kept, not merged.
 */
module PlotBoundaries {
  import opened Outcomes
  import opened Budgets
  import opened Slutsky
  import opened Sorting

  /** Keeps the present values of `s`, in order. */
  function DropNone(s: seq<Option<real>>): (r: seq<real>)
    ensures |r| <= |s|
    ensures forall i :: 0 <= i < |r| ==> Some(r[i]) in s
    ensures (forall i :: 0 <= i < |s| ==> s[i].Some?) ==> |r| == |s|
  {
    if |s| == 0 then []
    else
      match s[0]
      case None => DropNone(s[1..])
      case Some(v) => [v] + DropNone(s[1..])
  }

  /** Each present value is kept exactly as often as it occurs: only the absent entries go. */
  lemma {:induction false} DropNoneKeepsMultiplicities(s: seq<Option<real>>, v: real)
    ensures multiset(DropNone(s))[v] == multiset(s)[Some(v)]
    decreases |s|
  {
    if |s| > 0 {
      var head, tail := s[0], s[1..];
      assert s == [head] + tail;
      assert multiset(s) == multiset{head} + multiset(tail);
      DropNoneKeepsMultiplicities(tail, v);
      match head
      case None =>
        assert DropNone(s) == DropNone(tail);
      case Some(w) =>
        assert DropNone(s) == [w] + DropNone(tail);
        assert multiset(DropNone(s)) == multiset{w} + multiset(DropNone(tail));
    }
  }

  /** The four candidate boundaries, the last absent outside endowment mode. */
  function Candidates(e: Effects): seq<Option<real>>
    requires Consistent(e)
  {
    [ Some(e.incomeBundle.x),
      Some(e.substitutionBundle.x),
      Some(e.oldBundle.x),
      if e.endowmentMode then Some(e.endowmentIncomeBundle.value.x) else None ]
  }

  /** The x-quantities of every bundle the decomposition holds. */
  function BundleXs(e: Effects): seq<real>
    requires Consistent(e)
  {
    [e.incomeBundle.x, e.substitutionBundle.x, e.oldBundle.x]
    + (if e.endowmentMode then [e.endowmentIncomeBundle.value.x] else [])
  }

  /** Dropping absent values from three present ones and an optional fourth keeps the present ones in order. */
  lemma {:induction false} DropNoneOfFour(a: real, b: real, c: real, d: Option<real>)
    ensures DropNone([Some(a), Some(b), Some(c), d]) == [a, b, c] + (if d.Some? then [d.value] else [])
  {
    var s := [Some(a), Some(b), Some(c), d];
    var tail := if d.Some? then [d.value] else [];
    assert [d][1..] == [];
    assert DropNone([d]) == tail;
    assert [Some(c), d][1..] == [d];
    assert DropNone([Some(c), d]) == [c] + tail;
    assert [Some(b), Some(c), d][1..] == [Some(c), d];
    assert DropNone([Some(b), Some(c), d]) == [b] + ([c] + tail);
    assert s[1..] == [Some(b), Some(c), d];
  }

  /**
   The sorted boundaries: three outside endowment mode and four in it, a
   permutation of the bundles' x-quantities running from their least to
   their greatest.
   */
  function EffectBoundaries(e: Effects): (r: seq<real>)
    requires Consistent(e)
    ensures Sorted(r)
    ensures |r| == if e.endowmentMode then 4 else 3
    ensures multiset(r) == multiset(BundleXs(e))
    ensures r[0] in BundleXs(e) && r[|r| - 1] in BundleXs(e)
    ensures forall v :: v in BundleXs(e) ==> r[0] <= v <= r[|r| - 1]
  {
    DropNoneOfFour(e.incomeBundle.x, e.substitutionBundle.x, e.oldBundle.x,
                   if e.endowmentMode then Some(e.endowmentIncomeBundle.value.x) else None);
    var r := SortAscending(DropNone(Candidates(e)));
    SortedEnds(r, BundleXs(e));
    r
  }

  /** When the bundles' x-quantities already ascend in candidate order, the boundaries are exactly them. */
  lemma BoundariesOfAscendingBundles(e: Effects)
    requires Consistent(e) && Sorted(BundleXs(e))
    ensures EffectBoundaries(e) == BundleXs(e)
  {
    SortedPermutationsAreEqual(EffectBoundaries(e), BundleXs(e));
  }
}

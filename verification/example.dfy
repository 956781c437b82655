/**
 A worked decomposition with an equal-weight Cobb-Douglas consumer, who
 spends half of the income on each good. The utility component is reported
 as x * y, the square of the Cobb-Douglas level; the engine never uses it
 numerically.
 */
module CobbDouglasExample {
  import opened Outcomes
  import opened Budgets
  import opened Slutsky
  import opened PlotBoundaries

  /** The equal-weight Cobb-Douglas demand; an arbitrary bundle where a price is not positive. */
  function HalfShares(px: real, py: real, m: real): Bundle {
    if px > 0.0 && py > 0.0 then
      var x := m / (2.0 * px);
      var y := m / (2.0 * py);
      Bundle(x, y, x * y)
    else
      Bundle(0.0, 0.0, 0.0)
  }

  /** At positive prices the Cobb-Douglas consumer spends the whole income. */
  lemma HalfSharesSpendsIncome(px: real, py: real, m: real)
    requires px > 0.0 && py > 0.0
    ensures OnLine(Budget(Good(px), Good(py), m, None), HalfShares(px, py, m))
  {
    var x := m / (2.0 * px);
    var y := m / (2.0 * py);
    assert px * x == m / 2.0;
    assert py * y == m / 2.0;
  }

  /** The old budget of the example: both prices 1, income 100. */
  const OldBudget := Budget(Good(1.0), Good(1.0), 100.0, None)

  /** The new budget of the example: the price of x doubled to 2. */
  const NewBudget := Budget(Good(2.0), Good(1.0), 100.0, None)

  /**
   The three demands the example queries, as the equal-weight Cobb-Douglas
   consumer makes them: at the old budget, on the pivoted budget (income
   150) and at the new budget.
   */
  predicate HalvesAtExamplePoints(opt: Optimiser) {
    && opt(1.0, 1.0, 100.0) == Bundle(50.0, 50.0, 2500.0)
    && opt(2.0, 1.0, 150.0) == Bundle(37.5, 75.0, 2812.5)
    && opt(2.0, 1.0, 100.0) == Bundle(25.0, 50.0, 1250.0)
  }

  /** The Cobb-Douglas demand makes those three demands, and spends the whole old income. */
  lemma HalfSharesFitsExample()
    ensures HalvesAtExamplePoints(HalfShares)
    ensures OnLine(OldBudget, HalfShares(1.0, 1.0, 100.0))
  {
    HalfSharesSpendsIncome(1.0, 1.0, 100.0);
  }

  /**
   Doubling the price of x: the old bundle holds 50 of x, the pivoted income
   is 150, the substitution bundle holds 37.5 and the new bundle 25, so the
   substitution and income effects are -12.5 each and the total is -25.
   */
  lemma DoublingPriceOfX(opt: Optimiser)
    requires HalvesAtExamplePoints(opt)
    ensures
      var e := Decompose(OldBudget, NewBudget, opt);
      && e.oldBundle.x == 50.0
      && e.deltaP == 1.0
      && e.pivotedBudget.income == 150.0
      && e.substitutionBundle.x == 37.5
      && e.substitutionEffect == -12.5
      && e.incomeBundle.x == 25.0
      && e.incomeEffect == -12.5
      && e.totalEffect == -25.0
      && e.endowmentIncomeEffect == 0.0
  {
    var e := Decompose(OldBudget, NewBudget, opt);
    assert e.oldBundle == Bundle(50.0, 50.0, 2500.0);
    assert e.pivotedBudget == Budget(Good(2.0), Good(1.0), 150.0, None);
  }

  /** The old bundle is still exactly affordable on the example's pivoted budget. */
  lemma DoublingPriceOfXOldBundleAffordable(opt: Optimiser)
    requires HalvesAtExamplePoints(opt)
    ensures
      var e := Decompose(OldBudget, NewBudget, opt);
      OnLine(OldBudget, e.oldBundle) && OnLine(e.pivotedBudget, e.oldBundle)
  {
    DoublingPriceOfX(opt);
  }

  /** The example's chart boundaries are the three bundles' x-quantities in ascending order. */
  lemma DoublingPriceOfXBoundaries(opt: Optimiser)
    requires HalvesAtExamplePoints(opt)
    ensures EffectBoundaries(Decompose(OldBudget, NewBudget, opt)) == [25.0, 37.5, 50.0]
  {
    DoublingPriceOfX(opt);
    var e := Decompose(OldBudget, NewBudget, opt);
    assert BundleXs(e) == [25.0, 37.5, 50.0];
    BoundariesOfAscendingBundles(e);
  }

  /** The example's rates: substitution -12.5, income 12.5, Slutsky -25. */
  lemma DoublingPriceOfXRates(opt: Optimiser)
    requires HalvesAtExamplePoints(opt)
    ensures Build(OldBudget, NewBudget, opt)
            == Ok(Decomposition(Decompose(OldBudget, NewBudget, opt), Rates(-12.5, 12.5, -25.0)))
  {
    DoublingPriceOfX(opt);
  }
}

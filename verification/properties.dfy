/**
 Properties that relate several runs of the engine, or a run to a changed
 input: how endowment mode is decided, which fields the informational
 ordinary-income budget can influence, and what the decomposition gives
 when the price or the income does not move.
 */
module SlutskyProperties {
  import opened Outcomes
  import opened Budgets
  import opened Slutsky
  import opened PlotBoundaries

  /** Two budgets with the same goods and income. */
  predicate SameLine(a: Budget, b: Budget) {
    a.goodX == b.goodX && a.goodY == b.goodY && a.income == b.income
  }

  /**
   The engine reads only the goods, the incomes and whether endowment mode
   holds: inputs that agree on those give the same result.
   */
  lemma BuildReadsOnlyLinesAndMode(old1: Budget, new1: Budget, old2: Budget, new2: Budget, opt: Optimiser)
    requires SameLine(old1, old2) && SameLine(new1, new2)
    requires EndowmentMode(old1, new1) == EndowmentMode(old2, new2)
    ensures Decompose(old1, new1, opt) == Decompose(old2, new2, opt)
    ensures Build(old1, new1, opt) == Build(old2, new2, opt)
  {
    var mode := EndowmentMode(old1, new1);
    assert Optimum(opt, old1) == Optimum(opt, old2);
    var oldBundle := Optimum(opt, old1);
    assert PriceDelta(old1, new1) == PriceDelta(old2, new2);
    assert PivotedBudget(old1, new1, oldBundle) == PivotedBudget(old2, new2, oldBundle);
    assert OrdinaryIncomeBudget(old1, new1) == OrdinaryIncomeBudget(old2, new2);
    assert IncomeBundle(opt, old1, new1, mode) == IncomeBundle(opt, old2, new2, mode);
    assert EndowmentIncomeBundle(opt, new1, mode) == EndowmentIncomeBundle(opt, new2, mode);
    var e := Decompose(old1, new1, opt);
    assert e == Decompose(old2, new2, opt);
    assert RatesOf(old1, new1, e) == RatesOf(old2, new2, e) by {
      assert SubstitutionRate(old1, new1, e) == SubstitutionRate(old2, new2, e);
      assert IncomeRate(old1, new1, e) == IncomeRate(old2, new2, e);
    }
  }

  /**
   An endowment on only one side is ignored: the engine gives exactly what
   it gives when neither budget has one.
   */
  lemma OneSidedEndowmentIsIgnored(oldBudget: Budget, newBudget: Budget, opt: Optimiser)
    requires oldBudget.endowment.None? || newBudget.endowment.None?
    ensures !Decompose(oldBudget, newBudget, opt).endowmentMode
    ensures Build(oldBudget, newBudget, opt)
            == Build(oldBudget.WithoutEndowment(), newBudget.WithoutEndowment(), opt)
  {
    BuildReadsOnlyLinesAndMode(oldBudget, newBudget, oldBudget.WithoutEndowment(), newBudget.WithoutEndowment(), opt);
  }

  /**
   Only the presence of the endowments matters, not their amounts: two
   runs that differ only in the endowment values agree everywhere.
   */
  lemma EndowmentAmountIsIgnored(oldBudget: Budget, newBudget: Budget, oldAmount: real, newAmount: real, opt: Optimiser)
    requires oldBudget.endowment.Some? && newBudget.endowment.Some?
    ensures Build(oldBudget, newBudget, opt)
            == Build(oldBudget.(endowment := Some(oldAmount)), newBudget.(endowment := Some(newAmount)), opt)
  {
    BuildReadsOnlyLinesAndMode(oldBudget, newBudget,
                               oldBudget.(endowment := Some(oldAmount)), newBudget.(endowment := Some(newAmount)), opt);
  }

  /**
   The ordinary-income budget feeds no later number: replacing it changes
   neither the rates nor the effect boundaries.
   */
  lemma OrdinaryIncomeBudgetIsInert(oldBudget: Budget, newBudget: Budget, e: Effects, other: Budget)
    requires Consistent(e)
    ensures RatesOf(oldBudget, newBudget, e) == RatesOf(oldBudget, newBudget, e.(ordinaryIncomeBudget := other))
    ensures EffectBoundaries(e) == EffectBoundaries(e.(ordinaryIncomeBudget := other))
  {
    var e' := e.(ordinaryIncomeBudget := other);
    assert Candidates(e) == Candidates(e');
    assert RatesOf(oldBudget, newBudget, e) == RatesOf(oldBudget, newBudget, e') by {
      assert SubstitutionRate(oldBudget, newBudget, e) == SubstitutionRate(oldBudget, newBudget, e');
      assert IncomeRate(oldBudget, newBudget, e) == IncomeRate(oldBudget, newBudget, e');
    }
  }

  /**
   With the price of x unchanged the pivoted budget has the old prices and
   income, so the substitution bundle is the old bundle and the
   substitution effect vanishes.
   */
  lemma NoPriceChangeNoSubstitution(oldBudget: Budget, newBudget: Budget, opt: Optimiser)
    requires newBudget.goodX == oldBudget.goodX
    ensures Decompose(oldBudget, newBudget, opt).substitutionBundle == Optimum(opt, oldBudget)
    ensures Decompose(oldBudget, newBudget, opt).substitutionEffect == 0.0
    ensures Build(oldBudget, newBudget, opt) == Err(SubstitutionRateDivisionByZero)
  {
    var e := Decompose(oldBudget, newBudget, opt);
    assert e.pivotedBudget.income == oldBudget.income;
    assert Optimum(opt, e.pivotedBudget) == Optimum(opt, oldBudget);
  }

  /**
   In endowment mode with the income unchanged, the income bundle already
   is the endowment-income bundle, so the endowment-income effect is zero.
   */
  lemma EndowmentEffectVanishesWithoutIncomeChange(oldBudget: Budget, newBudget: Budget, opt: Optimiser)
    requires oldBudget.endowment.Some? && newBudget.endowment.Some?
    requires oldBudget.income == newBudget.income
    ensures Decompose(oldBudget, newBudget, opt).endowmentIncomeBundle
            == Some(Decompose(oldBudget, newBudget, opt).incomeBundle)
    ensures Decompose(oldBudget, newBudget, opt).endowmentIncomeEffect == 0.0
  {
  }
}

/**
 The Slutsky decomposition engine. The constructor of the source's
 `Slutsky` class computes, in a fixed order, the old optimum, the price
 change, the pivoted (Slutsky-compensated) budget, the substitution, income
 and endowment-income bundles and effects, the total effect and three
 rates. Here that pipeline is `Decompose` (everything up to the total
 effect, which cannot fail), `RatesOf` (the three rates, which divide by
 the price change and may fail) and `Build` (the whole constructor).
 */
module Slutsky {
  import opened Outcomes
  import opened Budgets

  /** The numeric fields the constructor fills before the rates, in the order it fills them. */
  datatype Effects = Effects(
    endowmentMode: bool,
    oldBundle: Bundle,
    deltaP: real,
    pivotedBudget: Budget,
    substitutionBundle: Bundle,
    substitutionEffect: real,
    ordinaryIncomeBudget: Budget,
    incomeBundle: Bundle,
    incomeEffect: real,
    endowmentIncomeBundle: Option<Bundle>,
    endowmentIncomeEffect: real,
    totalEffect: real)

  /** The three rates the constructor fills last. */
  datatype Rates = Rates(substitutionRate: real, incomeRate: real, slutskyRate: real)

  /** A fully constructed engine. */
  datatype Decomposition = Decomposition(effects: Effects, rates: Rates)

  /** The `ZeroDivisionError` a rate raises, named by the rate that raises it. */
  datatype Failure = SubstitutionRateDivisionByZero | IncomeRateDivisionByZero

  /** The endowment-income bundle exists exactly in endowment mode. */
  predicate Consistent(e: Effects) {
    e.endowmentMode <==> e.endowmentIncomeBundle.Some?
  }

  /** Endowment mode: both budgets were given an endowment. */
  function EndowmentMode(oldBudget: Budget, newBudget: Budget): bool {
    oldBudget.endowment.Some? && newBudget.endowment.Some?
  }

  /** The change in the price of good x. */
  function PriceDelta(oldBudget: Budget, newBudget: Budget): real {
    newBudget.goodX.price - oldBudget.goodX.price
  }

  /**
   The budget at the new price of x and the old price of y whose income is
   shifted by the old bundle's x-quantity times the price change: it passes
   through the old bundle exactly when the old budget does.
   */
  function PivotedBudget(oldBudget: Budget, newBudget: Budget, oldBundle: Bundle): (b: Budget)
    ensures b.goodX == newBudget.goodX && b.goodY == oldBudget.goodY
    ensures OnLine(b, oldBundle) <==> OnLine(oldBudget, oldBundle)
  {
    var deltaM := oldBundle.x * PriceDelta(oldBudget, newBudget);
    Budget(newBudget.goodX, oldBudget.goodY, oldBudget.income + deltaM, None)
  }

  /**
   Whatever the optimiser returns, the old bundle leaves the same unspent
   income on the pivoted line as on the old one: the pivot shifts income by
   exactly the change in the bundle's cost.
   */
  lemma PivotKeepsSlack(oldBudget: Budget, newBudget: Budget, oldBundle: Bundle)
    ensures
      var b := PivotedBudget(oldBudget, newBudget, oldBundle);
      b.income - Cost(oldBundle, b.goodX.price, b.goodY.price)
      == oldBudget.income - Cost(oldBundle, oldBudget.goodX.price, oldBudget.goodY.price)
  {
  }

  /** The budget at the new prices and the old income (drawn, never used numerically). */
  function OrdinaryIncomeBudget(oldBudget: Budget, newBudget: Budget): Budget {
    Budget(newBudget.goodX, newBudget.goodY, oldBudget.income, None)
  }

  /** The income held fixed for the income bundle: the old income under an endowment, else the new one. */
  function IncomeLevel(oldBudget: Budget, newBudget: Budget, endowmentMode: bool): real {
    if endowmentMode then oldBudget.income else newBudget.income
  }

  /** The optimum at the new prices and the mode-dependent income. */
  function IncomeBundle(opt: Optimiser, oldBudget: Budget, newBudget: Budget, endowmentMode: bool): Bundle {
    opt(newBudget.goodX.price, newBudget.goodY.price, IncomeLevel(oldBudget, newBudget, endowmentMode))
  }

  /** The optimum at the new prices and new income, present only in endowment mode. */
  function EndowmentIncomeBundle(opt: Optimiser, newBudget: Budget, endowmentMode: bool): Option<Bundle> {
    if endowmentMode then Some(Optimum(opt, newBudget)) else None
  }

  /** The endowment-income effect: a bundle difference in endowment mode, zero otherwise. */
  function EndowmentIncomeEffect(endowmentMode: bool, endowmentIncomeBundle: Option<Bundle>, incomeBundle: Bundle): real
    requires endowmentMode ==> endowmentIncomeBundle.Some?
  {
    if endowmentMode then endowmentIncomeBundle.value.x - incomeBundle.x else 0.0
  }

  /**
   Everything the constructor computes before the rates. The effects
   telescope: the total effect is the income bundle's x-quantity less the
   old bundle's, and in endowment mode adding the endowment-income effect
   reaches the endowment-income bundle.
   */
  function Decompose(oldBudget: Budget, newBudget: Budget, opt: Optimiser): (e: Effects)
    ensures Consistent(e)
    ensures e.endowmentMode <==> oldBudget.endowment.Some? && newBudget.endowment.Some?
    ensures e.oldBundle == Optimum(opt, oldBudget)
    ensures e.deltaP == newBudget.goodX.price - oldBudget.goodX.price
    ensures e.pivotedBudget.goodX == newBudget.goodX && e.pivotedBudget.goodY == oldBudget.goodY
    ensures OnLine(oldBudget, e.oldBundle) ==> OnLine(e.pivotedBudget, e.oldBundle)
    ensures e.substitutionBundle == Optimum(opt, e.pivotedBudget)
    ensures e.ordinaryIncomeBudget.goodX == newBudget.goodX && e.ordinaryIncomeBudget.goodY == newBudget.goodY
    ensures e.ordinaryIncomeBudget.income == oldBudget.income
    ensures e.incomeBundle == opt(newBudget.goodX.price, newBudget.goodY.price,
                                  if e.endowmentMode then oldBudget.income else newBudget.income)
    ensures e.substitutionEffect == e.substitutionBundle.x - e.oldBundle.x
    ensures e.incomeEffect == e.incomeBundle.x - e.substitutionBundle.x
    ensures e.totalEffect == e.substitutionEffect + e.incomeEffect
    ensures e.totalEffect == e.incomeBundle.x - e.oldBundle.x
    ensures !e.endowmentMode ==> e.endowmentIncomeBundle == None && e.endowmentIncomeEffect == 0.0
    ensures e.endowmentMode ==> e.endowmentIncomeBundle == Some(Optimum(opt, newBudget))
    ensures e.endowmentMode ==>
              e.totalEffect + e.endowmentIncomeEffect == e.endowmentIncomeBundle.value.x - e.oldBundle.x
  {
    var mode := EndowmentMode(oldBudget, newBudget);
    var oldBundle := Optimum(opt, oldBudget);
    var deltaP := PriceDelta(oldBudget, newBudget);
    var pivoted := PivotedBudget(oldBudget, newBudget, oldBundle);
    var substitutionBundle := Optimum(opt, pivoted);
    var substitutionEffect := substitutionBundle.x - oldBundle.x;
    var ordinary := OrdinaryIncomeBudget(oldBudget, newBudget);
    var incomeBundle := IncomeBundle(opt, oldBudget, newBudget, mode);
    var incomeEffect := incomeBundle.x - substitutionBundle.x;
    var endowmentBundle := EndowmentIncomeBundle(opt, newBudget, mode);
    var endowmentEffect := EndowmentIncomeEffect(mode, endowmentBundle, incomeBundle);
    Effects(mode, oldBundle, deltaP, pivoted, substitutionBundle, substitutionEffect, ordinary,
            incomeBundle, incomeEffect, endowmentBundle, endowmentEffect,
            substitutionEffect + incomeEffect)
  }

  /**
   The pivoted budget `Decompose` stores is the pivot through the old
   optimum: its income is the old income plus the old x-quantity times the
   stored price change, whether or not the optimiser spends the old income,
   and the substitution bundle is queried on it.
   */
  lemma DecomposePivotsAtOldBundle(oldBudget: Budget, newBudget: Budget, opt: Optimiser)
    ensures
      var e := Decompose(oldBudget, newBudget, opt);
      && e.pivotedBudget == PivotedBudget(oldBudget, newBudget, e.oldBundle)
      && e.pivotedBudget.income == oldBudget.income + e.oldBundle.x * e.deltaP
      && e.substitutionBundle
         == opt(newBudget.goodX.price, oldBudget.goodY.price, oldBudget.income + e.oldBundle.x * e.deltaP)
  {
  }

  /**
   The substitution rate, recomputing the substitution effect and the price
   change from the budgets; it fails exactly when the price of x is unchanged.
   */
  function SubstitutionRate(oldBudget: Budget, newBudget: Budget, e: Effects): (r: Result<real, Failure>)
    ensures r.Err? <==> newBudget.goodX.price == oldBudget.goodX.price
    ensures r.Err? ==> r.error == SubstitutionRateDivisionByZero
    ensures r.Ok? ==>
              r.value * (newBudget.goodX.price - oldBudget.goodX.price)
              == e.substitutionBundle.x - e.oldBundle.x
  {
    var deltaS := e.substitutionBundle.x - e.oldBundle.x;
    var deltaP := PriceDelta(oldBudget, newBudget);
    if deltaP == 0.0 then Err(SubstitutionRateDivisionByZero) else Ok(deltaS / deltaP)
  }

  /** Dividing by a product and multiplying back by one factor divides by the other. */
  lemma CancelFactor(a: real, b: real, c: real)
    requires b != 0.0 && c != 0.0
    ensures a / (b * c) * b == a / c
  {
    var q := a / (b * c);
    assert q * (b * c) == a;
    assert (q * b) * c == a;
  }

  /**
   The income rate: minus the income effect over the income-equivalent of
   the price change, scaled back by the old x-quantity. It fails exactly
   when that income-equivalent is zero, and otherwise reduces to minus the
   income effect over the price change.
   */
  function IncomeRate(oldBudget: Budget, newBudget: Budget, e: Effects): (r: Result<real, Failure>)
    ensures r.Err? <==> e.oldBundle.x == 0.0 || newBudget.goodX.price == oldBudget.goodX.price
    ensures r.Err? ==> r.error == IncomeRateDivisionByZero
    ensures r.Ok? ==>
              r.value == (e.substitutionBundle.x - e.incomeBundle.x)
                         / (newBudget.goodX.price - oldBudget.goodX.price)
  {
    var deltaP := PriceDelta(oldBudget, newBudget);
    var deltaM := e.oldBundle.x * deltaP;
    var deltaX1M := -(e.incomeBundle.x - e.substitutionBundle.x);
    if deltaM == 0.0 then
      Err(IncomeRateDivisionByZero)
    else
      CancelFactor(deltaX1M, e.oldBundle.x, deltaP);
      Ok(deltaX1M / deltaM * e.oldBundle.x)
  }

  /**
   The three rates, in the constructor's order: the substitution rate first,
   so an unchanged price fails there. The substitution rate is the
   substitution effect over the price change, the income rate minus the
   income effect over it, and the Slutsky rate, their difference, is the
   total effect over it.
   */
  function RatesOf(oldBudget: Budget, newBudget: Budget, e: Effects): (r: Result<Rates, Failure>)
    ensures newBudget.goodX.price == oldBudget.goodX.price ==> r == Err(SubstitutionRateDivisionByZero)
    ensures newBudget.goodX.price != oldBudget.goodX.price && e.oldBundle.x == 0.0 ==>
              r == Err(IncomeRateDivisionByZero)
    ensures r.Ok? <==> newBudget.goodX.price != oldBudget.goodX.price && e.oldBundle.x != 0.0
    ensures r.Ok? ==>
              r.value.slutskyRate
              == (e.incomeBundle.x - e.oldBundle.x) / (newBudget.goodX.price - oldBudget.goodX.price)
    ensures r.Ok? ==>
              r.value.substitutionRate
              == (e.substitutionBundle.x - e.oldBundle.x) / (newBudget.goodX.price - oldBudget.goodX.price)
    ensures r.Ok? ==>
              r.value.incomeRate
              == (e.substitutionBundle.x - e.incomeBundle.x) / (newBudget.goodX.price - oldBudget.goodX.price)
    ensures r.Ok? ==> r.value.slutskyRate == r.value.substitutionRate - r.value.incomeRate
  {
    var substitutionRate := SubstitutionRate(oldBudget, newBudget, e);
    if substitutionRate.Err? then
      Err(substitutionRate.error)
    else
      var incomeRate := IncomeRate(oldBudget, newBudget, e);
      if incomeRate.Err? then
        Err(incomeRate.error)
      else
        Ok(Rates(substitutionRate.value, incomeRate.value, substitutionRate.value - incomeRate.value))
  }

  /**
   The whole constructor. It fails, with the error of the first rate that
   divides by zero, exactly when the price of x is unchanged or the old
   bundle holds no x; otherwise every rate times the stored price change
   gives back its effect.
   */
  function Build(oldBudget: Budget, newBudget: Budget, opt: Optimiser): (r: Result<Decomposition, Failure>)
    ensures r.Err? <==> Decompose(oldBudget, newBudget, opt).deltaP == 0.0
                        || Optimum(opt, oldBudget).x == 0.0
    ensures r.Err? ==>
              r.error == (if newBudget.goodX.price == oldBudget.goodX.price
                          then SubstitutionRateDivisionByZero else IncomeRateDivisionByZero)
    ensures r.Ok? ==> r.value.effects == Decompose(oldBudget, newBudget, opt)
    ensures r.Ok? ==> r.value.rates.substitutionRate * r.value.effects.deltaP == r.value.effects.substitutionEffect
    ensures r.Ok? ==> r.value.rates.incomeRate * r.value.effects.deltaP == -r.value.effects.incomeEffect
    ensures r.Ok? ==> r.value.rates.slutskyRate * r.value.effects.deltaP == r.value.effects.totalEffect
    ensures r.Ok? ==> r.value.rates.slutskyRate == r.value.rates.substitutionRate - r.value.rates.incomeRate
  {
    var e := Decompose(oldBudget, newBudget, opt);
    var rates := RatesOf(oldBudget, newBudget, e);
    if rates.Err? then Err(rates.error) else Ok(Decomposition(e, rates.value))
  }
}

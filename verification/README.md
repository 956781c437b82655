# Slutsky decomposition engine, in Dafny

This project models the Slutsky decomposition engine of MIES (`mies/econtools/slutsky.py`).
It takes an old and a new budget constraint over two goods, plus a utility optimiser. From these it
splits the change in demand for good x, caused by a change in its price, into a substitution
effect and an income effect. When both budgets carry an endowment, it also reports an
endowment-income effect. It then computes the substitution, income and Slutsky rates, and the
sorted interval boundaries that the decomposition chart is drawn between.

Everything is exact `real` arithmetic over immutable datatypes:

- `outcomes.dfy` (`Outcomes`): `Option` for the endowment and the endowment-income bundle, and
  `Result` for the constructor's `ZeroDivisionError`.
- `budgets.dfy` (`Budgets`): `Good`, `Budget`, `Bundle`, and the optimiser
  `optimal_bundle(price_x, price_y, income)` as a function-typed parameter `Optimiser`. It also has
  `OnLine`, which says that a bundle spends a budget's whole income.
- `slutsky.dfy` (`Slutsky`): the constructor's pipeline. `Decompose` covers lines 25-42 and cannot
  fail. `SubstitutionRate`, `IncomeRate` and `RatesOf` cover lines 43-45 and fail when a divisor
  is zero. `Build` is the whole constructor.
- `sorting.dfy` (`Sorting`): ascending sort by insertion. It also proves that a sorted
  permutation is unique, so any sorting algorithm gives the same list.
- `boundaries.dfy` (`PlotBoundaries`): the `effect_boundaries` list built inside `get_plot`.
- `properties.dfy` (`SlutskyProperties`): lemmas that compare runs on different inputs.
- `example.dfy` (`CobbDouglasExample`): an equal-weight Cobb-Douglas consumer facing a doubled
  price of x.

The optimiser is not part of this model: any total function can stand in for it. The fact that
the optimum exhausts the budget is never assumed. It appears only as an explicit hypothesis,
`OnLine(oldBudget, oldBundle)`, inside an implication.

Three points about how the model matches the code:

- The chart boundaries keep every present x-quantity, equal ones included, in ascending order.
  On Python versions before 3.14, `filter(None.__ne__, …)` treats the `NotImplemented` that
  `None.__ne__` returns for a float as true, so it removes only the `None` entry and keeps `0.0`.
- In the worked example (old prices 1 and 1, income 100, new price of x 2), the equal-weight
  Cobb-Douglas substitution bundle holds 37.5 units of x. The substitution and income effects are
  -12.5 each, and the total effect is -25. `DoublingPriceOfX` proves these numbers for every
  optimiser that makes the consumer's three demands (`HalvesAtExamplePoints`), and
  `HalfSharesFitsExample` shows that the Cobb-Douglas demand `HalfShares` makes them.
- `Budget`'s constructor is not part of this model. The pivoted and ordinary-income budgets are
  built with the four-argument call, so the model records them with no endowment.

The source's step methods are small helpers in `slutsky.dfy`. Their rows are the clauses of
`Slutsky.Decompose` that pin down the field each one fills:

- `EndowmentMode` (`__toggle_endowment`, lines 48-55): the clause `e.endowmentMode <==>` both endowments present.
- `PriceDelta` (line 33): `e.deltaP == ` new x-price minus old.
- `PivotedBudget` (lines 57-69): its own row, plus `PivotKeepsSlack`; `DecomposePivotsAtOldBundle` shows `Decompose` stores exactly that budget.
- `calculate_substitution_bundle` (lines 71-80): `e.substitutionBundle == Optimum(opt, e.pivotedBudget)`.
- `calculate_substitution_effect` (lines 82-84): `e.substitutionEffect == e.substitutionBundle.x - e.oldBundle.x`.
- `OrdinaryIncomeBudget` (lines 86-93): the two `e.ordinaryIncomeBudget` clauses.
- `IncomeLevel` and `IncomeBundle` (lines 95-110): `e.incomeBundle == opt(` new prices, old income in endowment mode and new income otherwise `)`.
- `calculate_income_effect` (lines 112-114): `e.incomeEffect == e.incomeBundle.x - e.substitutionBundle.x`.
- `EndowmentIncomeBundle` (lines 116-126): `e.endowmentIncomeBundle == None` outside endowment mode, `Some(Optimum(opt, newBudget))` in it.
- `EndowmentIncomeEffect` (lines 128-135): `e.endowmentIncomeEffect == 0.0` outside endowment mode; in it, total plus endowment-income effect equals the endowment-income bundle's x minus the old bundle's x.
- The total effect (line 42): `e.totalEffect == e.substitutionEffect + e.incomeEffect`, and the derived telescoping `e.totalEffect == e.incomeBundle.x - e.oldBundle.x`.
- `PlotBoundaries.Candidates` (lines 165-170): covered by the `PlotBoundaries.EffectBoundaries` and `PlotBoundaries.DropNoneOfFour` rows.

## Model

| member | source | states |
|---|---|---|
| Slutsky.PivotedBudget | mies/econtools/slutsky.py:57-69 | The pivoted budget takes the new good x and the old good y. The old bundle lies on the pivoted line if and only if it lies on the old line, so the old bundle stays exactly affordable at the new price. |
| Slutsky.PivotKeepsSlack | mies/econtools/slutsky.py:57-69 | For any old bundle, spent in full or not, the income it leaves unspent is the same on the pivoted line as on the old line. |
| Slutsky.Decompose | mies/econtools/slutsky.py:25-42 | Endowment mode holds iff both budgets have an endowment. The stored delta is the new x-price minus the old. The substitution bundle is the optimum on the pivoted budget, and the substitution effect is its x minus the old bundle's x. The income bundle is queried at the new prices, with the old income in endowment mode and the new income otherwise. The income effect is the income bundle's x minus the substitution bundle's x. The ordinary-income budget has the new goods and the old income. The total effect is the sum of the two effects, and so telescopes to income-bundle x minus old-bundle x. Outside endowment mode the endowment-income bundle is None and its effect is 0. In endowment mode that bundle is the optimum at the new prices and new income, and total plus endowment-income effect equals its x minus old-bundle x. |
| Slutsky.DecomposePivotsAtOldBundle | mies/econtools/slutsky.py:33-35 | For every input, spent in full or not, the stored pivoted budget is the pivot through the old optimum: its income is the old income plus old-bundle x times the stored price delta, and the substitution bundle is the optimum at the new x-price, the old y-price and that income. |
| Slutsky.SubstitutionRate | mies/econtools/slutsky.py:137-141 | Fails with a division by zero iff the price of x is unchanged. Otherwise the rate times the price change gives back the substitution effect. |
| Slutsky.IncomeRate | mies/econtools/slutsky.py:143-148 | Fails iff old-bundle x times the price change is zero. Otherwise `(-income_effect / delta_m) * old_x` simplifies to minus the income effect over the price change. |
| Slutsky.RatesOf | mies/econtools/slutsky.py:43-45 | An unchanged price fails at the substitution rate first. Otherwise an old bundle with no x fails at the income rate. Success happens exactly when neither applies. Then the substitution rate is (substitution x minus old x) over the price change, the income rate is (substitution x minus income x) over it, and the Slutsky rate is their difference, equal to (income x minus old x) over the price change. |
| Slutsky.Build | mies/econtools/slutsky.py:13-46 | Construction fails exactly when the stored price delta is zero or the old bundle holds no x, and it reports which rate failed. On success, each rate times the stored delta gives back its effect. This covers substitution, minus income, and total, and it shows the recomputed delta equals the stored one. The Slutsky rate is the substitution rate minus the income rate. |
| Sorting.Insert | mies/econtools/slutsky.py:172 | Inserting into a sorted list keeps it sorted and adds exactly one occurrence of the value. |
| Sorting.SortAscending | mies/econtools/slutsky.py:172 | The result is sorted ascending and is a permutation of the input, with multiplicities kept. |
| Sorting.SortedPermutationsAreEqual | mies/econtools/slutsky.py:172 | Two sorted permutations of the same values are equal, so the sorted list does not depend on the sorting algorithm. |
| Sorting.SortedEnds | mies/econtools/slutsky.py:172 | The first and last elements of a sorted permutation are members of the input, and they are its minimum and maximum. |
| PlotBoundaries.DropNone | mies/econtools/slutsky.py:171 | Never lengthens the list, keeps only present values, and drops nothing from a list with no `None`. |
| PlotBoundaries.DropNoneKeepsMultiplicities | mies/econtools/slutsky.py:171 | Each value is kept exactly as often as it occurs as a present entry. Only `None` entries are removed. |
| PlotBoundaries.DropNoneOfFour | mies/econtools/slutsky.py:165-171 | From three present values and an optional fourth, the filter keeps the present values in order. |
| PlotBoundaries.EffectBoundaries | mies/econtools/slutsky.py:165-172 | The boundaries are sorted ascending. There are 3 outside endowment mode and 4 in it. They are a permutation of the bundles' x-values, with no de-duplication. The first is their minimum and the last their maximum. |
| PlotBoundaries.BoundariesOfAscendingBundles | mies/econtools/slutsky.py:165-172 | When the bundles' x-values already ascend in candidate order, the boundaries are exactly those values. |
| SlutskyProperties.BuildReadsOnlyLinesAndMode | mies/econtools/slutsky.py:25-45 | Inputs that agree on goods, incomes and endowment mode give the same decomposition and the same construction result. |
| SlutskyProperties.OneSidedEndowmentIsIgnored | mies/econtools/slutsky.py:48-55 | With an endowment on only one side, endowment mode is off and the result equals the result with no endowment on either side. |
| SlutskyProperties.EndowmentAmountIsIgnored | mies/econtools/slutsky.py:48-55 | Only the presence of both endowments matters: changing their amounts changes nothing. |
| SlutskyProperties.OrdinaryIncomeBudgetIsInert | mies/econtools/slutsky.py:86-93 | Replacing the ordinary-income budget changes neither the rates nor the effect boundaries. |
| SlutskyProperties.NoPriceChangeNoSubstitution | mies/econtools/slutsky.py:57-84 | With good x unchanged, the substitution bundle is the old optimum, the substitution effect is 0, and construction fails at the substitution rate. |
| SlutskyProperties.EndowmentEffectVanishesWithoutIncomeChange | mies/econtools/slutsky.py:95-135 | In endowment mode with equal incomes, the endowment-income bundle is the income bundle and the endowment-income effect is 0. |
| CobbDouglasExample.DoublingPriceOfX | mies/econtools/slutsky.py:25-42 | For the equal-weight Cobb-Douglas demands, doubling the x-price from 1 to 2 at income 100 gives old x 50, delta 1, pivoted income 150, substitution x 37.5, income x 25, effects -12.5 and -12.5, and total -25. |
| CobbDouglasExample.DoublingPriceOfXOldBundleAffordable | mies/econtools/slutsky.py:57-69 | In the example the old bundle spends the old income and is still exactly affordable on the pivoted budget. |
| CobbDouglasExample.DoublingPriceOfXBoundaries | mies/econtools/slutsky.py:165-172 | The example's chart boundaries are 25, 37.5 and 50. |
| CobbDouglasExample.DoublingPriceOfXRates | mies/econtools/slutsky.py:43-45 | The example's rates are substitution -12.5, income 12.5 and Slutsky -25. |

## Left out

- `get_plot` apart from `effect_boundaries`, and `show_plot`: figure construction, traces, shapes, annotations and axis ranges are presentation built on plotly.
- The renaming of the two input budgets to "Old Budget" and "New Budget": it only sets display names.
- `Budget` and `CobbDouglas` internals: they are not part of this model. The optimiser is a parameter, and its failures (non-positive prices or income) are not modelled, since it is treated as total. Rejection of non-positive prices by `Budget` is left out for the same reason.
- PlotBoundaries.EffectBoundaries: follows Python before 3.14, where `bool(NotImplemented)` is true. From Python 3.14, `bool(NotImplemented)` raises TypeError, so `filter(None.__ne__, …)` fails on every input, and with it `get_plot` and the constructor. That failure is not modelled.
- Python float rounding: the model uses exact reals. The simplification of the income rate holds only over reals.
- The `Bundle.utility` component is carried but never constrained. In the example it is reported as x*y, a monotone transform of the Cobb-Douglas level.
- Determinism of two constructions on equal inputs holds trivially, because every member is a pure function.
- `src/entities/insurer.py` and `mies/utilities/queries/bank_queries.py`: database access, random draws and a statistical model fit, outside the decomposition engine.

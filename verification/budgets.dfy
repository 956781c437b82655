/**
 Goods, budgets and consumption bundles: the values the Slutsky engine
 consumes and produces. The utility optimiser is an uninterpreted
 collaborator, so it enters as a function-typed parameter.
 */
module Budgets {
  import opened Outcomes

  /** A commodity with its unit price. */
  datatype Good = Good(price: real)

  /** A budget constraint over two goods, with an optional endowment. */
  datatype Budget = Budget(goodX: Good, goodY: Good, income: real, endowment: Option<real>)
  {
    /** The same constraint with no endowment recorded. */
    function WithoutEndowment(): Budget {
      this.(endowment := None)
    }
  }

  /** An optimal bundle: quantity of good x, quantity of good y, utility reached. */
  datatype Bundle = Bundle(x: real, y: real, utility: real)

  /**
   The utility optimiser `optimal_bundle(price_x, price_y, income)`. Its
   internals are not part of this model; any total function may stand in.
   */
  type Optimiser = (real, real, real) -> Bundle

  /** The optimum on a budget: the optimiser queried at the budget's prices and income. */
  function Optimum(opt: Optimiser, b: Budget): Bundle {
    opt(b.goodX.price, b.goodY.price, b.income)
  }

  /** What `bundle` costs at the prices `px` and `py`. */
  function Cost(bundle: Bundle, px: real, py: real): real {
    px * bundle.x + py * bundle.y
  }

  /** `bundle` lies exactly on the budget line of `b`: it spends the whole income. */
  predicate OnLine(b: Budget, bundle: Bundle) {
    Cost(bundle, b.goodX.price, b.goodY.price) == b.income
  }
}

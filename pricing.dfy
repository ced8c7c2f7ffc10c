/**
 * The price of an order: the service's rate is per 1000 units and a quantity
 * that is not a whole number of thousands pays its exact share.
 */
module Pricing {

  /** Units a service's rate is quoted for. */
  const PerUnits: int := 1000

  /** Cost of `quantity` units at `rate` per 1000, prorated with no rounding. */
  function OrderCost(quantity: int, rate: real): (cost: real)
    ensures cost * PerUnits as real == quantity as real * rate
  {
    (quantity as real / PerUnits as real) * rate
  }

  /** Splitting an order in two never changes what is paid in total. */
  lemma CostAdditive(a: int, b: int, rate: real)
    ensures OrderCost(a + b, rate) == OrderCost(a, rate) + OrderCost(b, rate)
  {
    var thousand := PerUnits as real;
    calc {
      OrderCost(a + b, rate) * thousand;
      (a + b) as real * rate;
      a as real * rate + b as real * rate;
      OrderCost(a, rate) * thousand + OrderCost(b, rate) * thousand;
      (OrderCost(a, rate) + OrderCost(b, rate)) * thousand;
    }
  }

  /** At a non-negative rate, more units never cost less. */
  lemma CostMonotone(a: int, b: int, rate: real)
    requires a <= b && rate >= 0.0
    ensures OrderCost(a, rate) <= OrderCost(b, rate)
  {
    CostAdditive(a, b - a, rate);
    assert OrderCost(b - a, rate) * PerUnits as real == (b - a) as real * rate;
    assert (b - a) as real * rate >= 0.0;
  }

  /** A non-negative quantity at a non-negative rate has a non-negative cost. */
  lemma CostNonNegative(quantity: int, rate: real)
    requires quantity >= 0 && rate >= 0.0
    ensures OrderCost(quantity, rate) >= 0.0
  {
  }

  /** The catalog's first instagram service: 500 units at 2.50 per 1000. */
  lemma CostOfFiveHundredAtTwoFifty()
    ensures OrderCost(500, 2.50) == 1.25
  {
  }
}

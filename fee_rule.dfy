/** The progressive-scale commission rule of the agent fee calculator.

    The agent receives a fixed amount when the home sells at the minimum
    sales price, and the fixed amount plus a ratio-scaled share of the
    surplus above that minimum when it sells for more. A final price below
    the minimum is not a valid scenario. Prices and amounts are exact reals:
    the floating-point rounding of the browser is not modelled. */
module FeeRule {

  /** What the rule yields: a numeric commission, or the one domain error.
      The browser code returns the error as a message string on the same
      path as the number; here the two are kept apart. */
  datatype FeeResult = Fee(amount: real) | InvalidPriceRange

  /** The commission for a sale at `finalPurchasePrice`, given the minimum
      sales price, the fixed amount and the progressive-scale ratio. */
  function CalculateAgentFee(finalPurchasePrice: real, minimumAllowed: real,
                             constantAmount: real, ratio: real): (r: FeeResult)
    // the error arises exactly when the final price is below the minimum,
    // whatever the ratio: the ratio is never range-checked
    ensures r.InvalidPriceRange? <==> finalPurchasePrice < minimumAllowed
    // on every valid sale, including the one exactly at the minimum, the fee
    // is the fixed amount plus the ratio-scaled surplus
    ensures r.Fee? ==>
      r.amount == constantAmount + (finalPurchasePrice - minimumAllowed) * ratio
  {
    if finalPurchasePrice == minimumAllowed then
      Fee(constantAmount)
    else if finalPurchasePrice > minimumAllowed then
      var difference := finalPurchasePrice - minimumAllowed;
      Fee(constantAmount + difference * ratio)
    else
      InvalidPriceRange
  }

  /** A sale exactly at the minimum pays the fixed amount, and the ratio has
      no say in it. */
  lemma FeeAtMinimum(minimumAllowed: real, constantAmount: real, ratio1: real, ratio2: real)
    ensures CalculateAgentFee(minimumAllowed, minimumAllowed, constantAmount, ratio1)
         == CalculateAgentFee(minimumAllowed, minimumAllowed, constantAmount, ratio2)
         == Fee(constantAmount)
  {
  }

  /** A sale below the minimum never yields a numeric fee. */
  lemma BelowMinimumIsError(finalPurchasePrice: real, minimumAllowed: real,
                            constantAmount: real, ratio: real)
    requires finalPurchasePrice < minimumAllowed
    ensures CalculateAgentFee(finalPurchasePrice, minimumAllowed, constantAmount, ratio)
         == InvalidPriceRange
    ensures forall amount ::
              CalculateAgentFee(finalPurchasePrice, minimumAllowed, constantAmount, ratio) != Fee(amount)
  {
  }

  /** With a non-negative ratio the agent never gets less than the fixed
      amount on a valid sale. */
  lemma FeeAtLeastConstant(finalPurchasePrice: real, minimumAllowed: real,
                           constantAmount: real, ratio: real)
    requires minimumAllowed <= finalPurchasePrice && 0.0 <= ratio
    ensures CalculateAgentFee(finalPurchasePrice, minimumAllowed, constantAmount, ratio).amount
         >= constantAmount
  {
  }

  /** The scale is progressive: with a non-negative ratio a higher final
      price never pays less, and with a positive ratio it pays strictly more. */
  lemma FeeIncreasesWithPrice(lower: real, higher: real, minimumAllowed: real,
                              constantAmount: real, ratio: real)
    requires minimumAllowed <= lower <= higher && 0.0 <= ratio
    ensures CalculateAgentFee(lower, minimumAllowed, constantAmount, ratio).amount
         <= CalculateAgentFee(higher, minimumAllowed, constantAmount, ratio).amount
    ensures lower < higher && 0.0 < ratio ==>
              CalculateAgentFee(lower, minimumAllowed, constantAmount, ratio).amount
              < CalculateAgentFee(higher, minimumAllowed, constantAmount, ratio).amount
  {
    var surplusLower, surplusHigher := lower - minimumAllowed, higher - minimumAllowed;
    var feeLower := CalculateAgentFee(lower, minimumAllowed, constantAmount, ratio);
    var feeHigher := CalculateAgentFee(higher, minimumAllowed, constantAmount, ratio);
    assert feeLower.amount == constantAmount + surplusLower * ratio;
    assert feeHigher.amount == constantAmount + surplusHigher * ratio;
    ScaleKeepsOrder(surplusLower, surplusHigher, ratio);
  }

  /** Within the labelled range 0 to 1, the agent's share never exceeds the
      surplus, so the seller keeps at least the minimum less the fixed
      amount, and keeps more the higher the final price. */
  lemma LabelledRatioSharesSurplus(lower: real, higher: real, minimumAllowed: real,
                                   constantAmount: real, ratio: real)
    requires minimumAllowed <= lower <= higher && 0.0 <= ratio <= 1.0
    ensures lower - CalculateAgentFee(lower, minimumAllowed, constantAmount, ratio).amount
         >= minimumAllowed - constantAmount
    ensures lower - CalculateAgentFee(lower, minimumAllowed, constantAmount, ratio).amount
         <= higher - CalculateAgentFee(higher, minimumAllowed, constantAmount, ratio).amount
  {
    var surplusLower, surplusHigher := lower - minimumAllowed, higher - minimumAllowed;
    SubtractScaled(surplusLower, surplusLower, ratio);
    SubtractScaled(surplusHigher, surplusLower, ratio);
    ProductOfNonNegatives(surplusLower, 1.0 - ratio);
    ProductOfNonNegatives(surplusHigher - surplusLower, 1.0 - ratio);
    Unscaled(surplusLower, ratio);
    Unscaled(surplusHigher - surplusLower, ratio);
  }

  /** The ratio is not checked against its labelled range: a ratio above 1
      still yields a numeric fee, and on any sale above the minimum that fee
      takes more than the whole surplus. */
  lemma RatioAboveOneExceedsSurplus(finalPurchasePrice: real, minimumAllowed: real,
                                    constantAmount: real, ratio: real)
    requires minimumAllowed < finalPurchasePrice && 1.0 < ratio
    ensures CalculateAgentFee(finalPurchasePrice, minimumAllowed, constantAmount, ratio).Fee?
    ensures CalculateAgentFee(finalPurchasePrice, minimumAllowed, constantAmount, ratio).amount
            - constantAmount > finalPurchasePrice - minimumAllowed
  {
    var surplus := finalPurchasePrice - minimumAllowed;
    var fee := CalculateAgentFee(finalPurchasePrice, minimumAllowed, constantAmount, ratio);
    assert fee.amount - constantAmount == surplus * ratio;
    ProductOfPositives(surplus, ratio - 1.0);
    assert surplus * ratio == surplus + surplus * (ratio - 1.0);
  }

  /** Arithmetic helper: scaling by a non-negative factor keeps the order of
      two reals, and scaling by a positive one keeps it strict. */
  lemma ScaleKeepsOrder(a: real, b: real, c: real)
    requires a <= b && 0.0 <= c
    ensures a * c <= b * c
    ensures a < b && 0.0 < c ==> a * c < b * c
  {
    SubtractScaled(b, a, c);
    ProductOfNonNegatives(b - a, c);
    if a < b && 0.0 < c {
      ProductOfPositives(b - a, c);
    }
  }

  /** Arithmetic helper: scaling distributes over a difference. */
  lemma SubtractScaled(a: real, b: real, c: real)
    ensures a * c - b * c == (a - b) * c
  {
  }

  /** Arithmetic helper: what scaling by `c` leaves of `a`. */
  lemma Unscaled(a: real, c: real)
    ensures a - a * c == a * (1.0 - c)
  {
  }

  /** Arithmetic helper: the product of two non-negative reals is non-negative. */
  lemma ProductOfNonNegatives(a: real, b: real)
    requires 0.0 <= a && 0.0 <= b
    ensures 0.0 <= a * b
  {
  }

  /** Arithmetic helper: the product of two positive reals is positive. */
  lemma ProductOfPositives(a: real, b: real)
    requires 0.0 < a && 0.0 < b
    ensures 0.0 < a * b
  {
  }

  /** Worked cases of the rule: at the minimum, above it, below it, all
      zero, and a ratio of exactly 1. */
  lemma Examples()
    ensures CalculateAgentFee(100000.0, 100000.0, 2000.0, 0.1) == Fee(2000.0)
    ensures CalculateAgentFee(150000.0, 100000.0, 2000.0, 0.1) == Fee(7000.0)
    ensures CalculateAgentFee(90000.0, 100000.0, 2000.0, 0.1) == InvalidPriceRange
    ensures CalculateAgentFee(0.0, 0.0, 0.0, 0.0) == Fee(0.0)
    ensures CalculateAgentFee(200000.0, 100000.0, 0.0, 1.0) == Fee(100000.0)
  {
  }
}

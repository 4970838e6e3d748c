/** Valuation arithmetic of an Employee Stock Purchase Plan lot (the `EsppOrder` type). */
module EsppTypes {

  import opened GoErrors
  import RealFacts

  /** One ESPP sale. Go's `float64` fields are reals and its `int` fields are integers. */
  datatype EsppOrder = EsppOrder(
    discountPercent: real,
    costPerShare: real,
    sellingPricePerShare: real,
    numberOfSharesSold: int,
    considerTransactionCommission: bool,
    commissionPaidPerTransaction: real,
    numberOfTransactions: int,
    considerCapitalGainTax: bool,
    capitalGainTaxPercent: real)

  /** Go's zero value `EsppOrder{}`. */
  const ZeroEsppOrder := EsppOrder(0.0, 0.0, 0.0, 0, false, 0.0, 0, false, 0.0)

  /** The employer's discount on one share: `discountPercent` percent of the cost. */
  function DiscountAmount(e: EsppOrder): (r: real)
    ensures e.costPerShare == 0.0 ==> r == 0.0
    ensures e.discountPercent == 0.0 ==> r == 0.0
    ensures e.discountPercent == 100.0 ==> r == e.costPerShare
  {
    (e.costPerShare * e.discountPercent) / 100.0
  }

  /** What one share actually cost the employee once the discount is taken off. */
  function EffectiveCostPerShare(e: EsppOrder): (r: real)
    ensures r + DiscountAmount(e) == e.costPerShare
    ensures e.discountPercent == 0.0 ==> r == e.costPerShare
    ensures e.discountPercent == 100.0 ==> r == 0.0
  {
    var discountAmount := DiscountAmount(e);
    e.costPerShare - discountAmount
  }

  /** The discount is `discountPercent` hundredths of the cost, and the effective
      cost is the cost scaled by the fraction of it the employee pays. */
  lemma EffectiveCostIsDiscountedPrice(e: EsppOrder)
    ensures DiscountAmount(e) == e.discountPercent / 100.0 * e.costPerShare
    ensures EffectiveCostPerShare(e) == e.costPerShare * (1.0 - e.discountPercent / 100.0)
  {
  }

  /** A discount of between 0 and 100 percent takes off between nothing and the
      whole cost, so the effective cost lies between 0 and `costPerShare`. */
  lemma DiscountWithinCost(e: EsppOrder)
    requires e.costPerShare >= 0.0 && 0.0 <= e.discountPercent <= 100.0
    ensures 0.0 <= DiscountAmount(e) <= e.costPerShare
    ensures 0.0 <= EffectiveCostPerShare(e) <= e.costPerShare
  {
  }

  /** The commission charged on the sale: zero unless the commission toggle is on. */
  function EffectiveTransactionCommission(e: EsppOrder): (c: real)
    ensures !e.considerTransactionCommission ==> c == 0.0
    ensures e.numberOfTransactions >= 0 && e.commissionPaidPerTransaction >= 0.0 ==> c >= 0.0
  {
    if e.considerTransactionCommission then
      (e.numberOfTransactions as real) * e.commissionPaidPerTransaction
    else
      0.0
  }

  /** Profit (positive) or loss (negative) of the sale, before any tax. */
  function ProfitOrLoss(e: EsppOrder): (r: real) {
    (e.numberOfSharesSold as real) * (e.sellingPricePerShare - EffectiveCostPerShare(e))
      - EffectiveTransactionCommission(e)
  }

  /** Capital-gains tax owed on `profit`; a negative profit is an error, with amount 0. */
  function CapitalGainTaxAmount(e: EsppOrder, profit: real): (r: Returned<real>)
    ensures r.Failed() <==> profit < 0.0
    ensures profit < 0.0 ==> r == Returned(0.0, Some(NegativeProfit))
    ensures profit >= 0.0 ==> r == Returned(profit * e.capitalGainTaxPercent / 100.0, None)
  {
    if profit < 0.0 then
      Returned(0.0, Some(NegativeProfit))
    else
      Returned(profit * e.capitalGainTaxPercent / 100.0, None)
  }

  /** The selling price per share at which the sale neither gains nor loses:
      the effective cost plus each share's part of the commission. */
  function BreakEvenSellingPrice(e: EsppOrder): (price: real)
    requires e.numberOfSharesSold != 0
  {
    EffectiveCostPerShare(e) + EffectiveTransactionCommission(e) / (e.numberOfSharesSold as real)
  }

  /** On a non-negative profit, a percent in [0, 100] yields a tax between 0 and the profit,
      and no profit means no tax. */
  lemma CapitalGainTaxBounds(e: EsppOrder, profit: real)
    requires profit >= 0.0
    ensures e.capitalGainTaxPercent >= 0.0 ==> CapitalGainTaxAmount(e, profit).value >= 0.0
    ensures e.capitalGainTaxPercent <= 100.0 ==> CapitalGainTaxAmount(e, profit).value <= profit
    ensures profit == 0.0 ==> CapitalGainTaxAmount(e, profit) == Returned(0.0, None)
  {
    var percent := e.capitalGainTaxPercent;
    if profit == 0.0 {
      assert profit * percent == 0.0 * percent == 0.0;
    }
    if percent <= 100.0 {
      calc {
        CapitalGainTaxAmount(e, profit).value;
        profit * percent / 100.0;
        <= { assert profit * (100.0 - percent) >= 0.0; }
        profit * 100.0 / 100.0;
        profit;
      }
    }
  }

  /** With the commission toggle off, the commission fields are never read:
      the result is shares times the per-share margin, whatever they hold. */
  lemma ProfitIgnoresCommissionWhenOff(e: EsppOrder, commission: real, transactions: int)
    requires !e.considerTransactionCommission
    ensures ProfitOrLoss(e) == (e.numberOfSharesSold as real) * (e.sellingPricePerShare - EffectiveCostPerShare(e))
    ensures ProfitOrLoss(e.(commissionPaidPerTransaction := commission, numberOfTransactions := transactions))
         == ProfitOrLoss(e)
  {
  }

  /** With the toggle on, exactly `numberOfTransactions * commissionPaidPerTransaction` is deducted. */
  lemma ProfitDeductsCommissionWhenOn(e: EsppOrder)
    requires e.considerTransactionCommission
    ensures ProfitOrLoss(e) + (e.numberOfTransactions as real) * e.commissionPaidPerTransaction
         == ProfitOrLoss(e.(considerTransactionCommission := false))
  {
  }

  /** Selling higher always earns more when at least one share is sold. */
  lemma ProfitStrictlyIncreasingInSellingPrice(e: EsppOrder, lower: real, higher: real)
    requires e.numberOfSharesSold > 0 && lower < higher
    ensures ProfitOrLoss(e.(sellingPricePerShare := lower)) < ProfitOrLoss(e.(sellingPricePerShare := higher))
  {
    var lo, hi := e.(sellingPricePerShare := lower), e.(sellingPricePerShare := higher);
    assert EffectiveCostPerShare(lo) == EffectiveCostPerShare(hi);
    assert EffectiveTransactionCommission(lo) == EffectiveTransactionCommission(hi);
    assert ProfitOrLoss(hi) - ProfitOrLoss(lo) == (e.numberOfSharesSold as real) * (higher - lower);
    RealFacts.ProductOfPositives(e.numberOfSharesSold as real, higher - lower);
  }

  /** The sale breaks even exactly at the break-even price, and profits exactly above it. */
  lemma ProfitSignAroundBreakEven(e: EsppOrder)
    requires e.numberOfSharesSold > 0
    ensures ProfitOrLoss(e) == 0.0 <==> e.sellingPricePerShare == BreakEvenSellingPrice(e)
    ensures ProfitOrLoss(e) > 0.0 <==> e.sellingPricePerShare > BreakEvenSellingPrice(e)
  {
  }

  /** The test order: 15% off $100, one share, one $5 commission, 24% tax.
      The effective cost is 85, break-even is 90, and at 90 no tax is due. */
  lemma BreakEvenScenario()
    ensures var e := EsppOrder(15.0, 100.0, 90.0, 1, true, 5.0, 1, true, 24.0);
      && EffectiveCostPerShare(e) == 85.0
      && BreakEvenSellingPrice(e) == 90.0
      && ProfitOrLoss(e) == 0.0
      && CapitalGainTaxAmount(e, ProfitOrLoss(e)) == Returned(0.0, None)
  {
  }
}

/** Valuation arithmetic of a Restricted Stock Unit sale (the `RsuOrder` type). */
module RsuTypes {

  import opened GoErrors
  import RealFacts

  /** One RSU sale. RSUs are granted, not bought, so there is no purchase price. */
  datatype RsuOrder = RsuOrder(
    sellingPricePerShare: real,
    numberOfSharesSold: int,
    considerTransactionCommission: bool,
    commissionPaidPerTransaction: real,
    numberOfTransactions: int,
    considerCapitalGainTax: bool,
    capitalGainTaxPercent: real,
    considerIncomeTaxOnVestedStock: bool,
    incomeTaxPercentOnVestedStockPerShare: real,
    marketPriceOnVestedStockPerShare: real)

  /** The commission charged on the sale: zero unless the commission toggle is on. */
  function EffectiveTransactionCommission(r: RsuOrder): (c: real)
    ensures !r.considerTransactionCommission ==> c == 0.0
    ensures r.numberOfTransactions >= 0 && r.commissionPaidPerTransaction >= 0.0 ==> c >= 0.0
  {
    if r.considerTransactionCommission then
      (r.numberOfTransactions as real) * r.commissionPaidPerTransaction
    else
      0.0
  }

  /** Proceeds of the sale less commission; the cost basis is zero. */
  function ProfitOrLoss(r: RsuOrder): (p: real) {
    (r.numberOfSharesSold as real) * r.sellingPricePerShare - EffectiveTransactionCommission(r)
  }

  /** The selling price per share at which the sale neither gains nor loses:
      each share's part of the commission, since the cost basis is zero. */
  function BreakEvenSellingPrice(r: RsuOrder): (price: real)
    requires r.numberOfSharesSold != 0
  {
    EffectiveTransactionCommission(r) / (r.numberOfSharesSold as real)
  }

  /** Capital-gains tax owed on `profit`; a negative profit is an error, with amount 0. */
  function CapitalGainTaxAmount(r: RsuOrder, profit: real): (t: Returned<real>)
    ensures t.Failed() <==> profit < 0.0
    ensures profit < 0.0 ==> t == Returned(0.0, Some(NegativeProfit))
    ensures profit >= 0.0 ==> t == Returned(profit * r.capitalGainTaxPercent / 100.0, None)
  {
    if profit < 0.0 then
      Returned(0.0, Some(NegativeProfit))
    else
      Returned(profit * r.capitalGainTaxPercent / 100.0, None)
  }

  /** Income tax on the sold shares, valued at the market price when they vested. */
  function EffectiveIncomeTaxAmount(r: RsuOrder): (t: real)
    ensures r.numberOfSharesSold >= 0 && r.marketPriceOnVestedStockPerShare >= 0.0 && r.incomeTaxPercentOnVestedStockPerShare >= 0.0
      ==> t >= 0.0
  {
    (r.numberOfSharesSold as real) * r.marketPriceOnVestedStockPerShare
      * r.incomeTaxPercentOnVestedStockPerShare / 100.0
  }

  /** With the commission toggle off, nothing is deducted from the proceeds,
      whatever the commission fields hold. */
  lemma ProfitIgnoresCommissionWhenOff(r: RsuOrder, commission: real, transactions: int)
    requires !r.considerTransactionCommission
    ensures ProfitOrLoss(r) == (r.numberOfSharesSold as real) * r.sellingPricePerShare
    ensures ProfitOrLoss(r.(commissionPaidPerTransaction := commission, numberOfTransactions := transactions))
         == ProfitOrLoss(r)
  {
  }

  /** With the toggle on, exactly `numberOfTransactions * commissionPaidPerTransaction` is deducted. */
  lemma ProfitDeductsCommissionWhenOn(r: RsuOrder)
    requires r.considerTransactionCommission
    ensures ProfitOrLoss(r) + (r.numberOfTransactions as real) * r.commissionPaidPerTransaction
         == (r.numberOfSharesSold as real) * r.sellingPricePerShare
  {
  }

  /** Zero cost basis: neither the vesting price nor any tax field enters the profit. */
  lemma ProfitHasZeroCostBasis(r: RsuOrder, price: real, incomeTaxPercent: real, capitalGainTaxPercent: real,
                               considerIncomeTax: bool, considerCapitalGainTax: bool)
    ensures ProfitOrLoss(r.(marketPriceOnVestedStockPerShare := price,
                            incomeTaxPercentOnVestedStockPerShare := incomeTaxPercent,
                            considerIncomeTaxOnVestedStock := considerIncomeTax,
                            capitalGainTaxPercent := capitalGainTaxPercent,
                            considerCapitalGainTax := considerCapitalGainTax))
         == ProfitOrLoss(r)
  {
  }

  /** Selling higher always earns more when at least one share is sold. */
  lemma ProfitStrictlyIncreasingInSellingPrice(r: RsuOrder, lower: real, higher: real)
    requires r.numberOfSharesSold > 0 && lower < higher
    ensures ProfitOrLoss(r.(sellingPricePerShare := lower)) < ProfitOrLoss(r.(sellingPricePerShare := higher))
  {
    var lo, hi := r.(sellingPricePerShare := lower), r.(sellingPricePerShare := higher);
    assert EffectiveTransactionCommission(lo) == EffectiveTransactionCommission(hi);
    assert ProfitOrLoss(hi) - ProfitOrLoss(lo) == (r.numberOfSharesSold as real) * (higher - lower);
    RealFacts.ProductOfPositives(r.numberOfSharesSold as real, higher - lower);
  }

  /** With a zero cost basis the sale breaks even exactly when the selling price
      covers each share's part of the commission, and profits exactly above it. */
  lemma ProfitSignAroundBreakEven(r: RsuOrder)
    requires r.numberOfSharesSold > 0
    ensures ProfitOrLoss(r) == 0.0 <==> r.sellingPricePerShare == BreakEvenSellingPrice(r)
    ensures ProfitOrLoss(r) > 0.0 <==> r.sellingPricePerShare > BreakEvenSellingPrice(r)
  {
  }

  /** The income tax is linear in the number of shares sold. */
  lemma IncomeTaxLinearInSharesSold(r: RsuOrder, a: int, b: int)
    ensures EffectiveIncomeTaxAmount(r.(numberOfSharesSold := a + b))
         == EffectiveIncomeTaxAmount(r.(numberOfSharesSold := a)) + EffectiveIncomeTaxAmount(r.(numberOfSharesSold := b))
  {
  }

  /** A percent of at most 100 never taxes more than the vested value of the shares sold. */
  lemma IncomeTaxAtMostVestedValue(r: RsuOrder)
    requires r.numberOfSharesSold >= 0 && r.marketPriceOnVestedStockPerShare >= 0.0
    requires r.incomeTaxPercentOnVestedStockPerShare <= 100.0
    ensures EffectiveIncomeTaxAmount(r) <= (r.numberOfSharesSold as real) * r.marketPriceOnVestedStockPerShare
  {
    var vested := (r.numberOfSharesSold as real) * r.marketPriceOnVestedStockPerShare;
    var percent := r.incomeTaxPercentOnVestedStockPerShare;
    assert vested >= 0.0;
    calc {
      EffectiveIncomeTaxAmount(r);
      vested * percent / 100.0;
      <= { assert vested * (100.0 - percent) >= 0.0; }
      vested * 100.0 / 100.0;
      vested;
    }
  }

  /** The income tax ignores `considerIncomeTaxOnVestedStock`: the toggle is never read. */
  lemma IncomeTaxIgnoresToggle(r: RsuOrder, consider: bool)
    ensures EffectiveIncomeTaxAmount(r.(considerIncomeTaxOnVestedStock := consider)) == EffectiveIncomeTaxAmount(r)
  {
  }

  /** The inputs of the RSU summary test: one share at $200 with one $5 commission
      nets $195. The gain of 79.66 is supplied, not derived: it is the selling
      price less the test's market value per share (120.34), which is not a field
      of this order, and the test itself only prints its summary. A 24% tax on
      that gain is 19.1184. */
  lemma SaleScenario(r: RsuOrder)
    requires r.sellingPricePerShare == 200.0 && r.numberOfSharesSold == 1
    requires r.considerTransactionCommission && r.commissionPaidPerTransaction == 5.0 && r.numberOfTransactions == 1
    requires r.capitalGainTaxPercent == 24.0
    ensures ProfitOrLoss(r) == 195.0
    ensures CapitalGainTaxAmount(r, 79.66) == Returned(19.1184, None)
  {
  }
}

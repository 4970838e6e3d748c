/** Building an RSU order from the values entered in the RSU input form. */
module RsuForm {

  /** The order `buildRsuOrder` fills in: exactly the eleven fields it assigns.
      Three of them (the income tax incurred, the number of stocks vested and the
      market value per share) are not fields of `RsuTypes.RsuOrder`. */
  datatype RsuFormOrder = RsuFormOrder(
    sellingPricePerShare: real,
    numberOfSharesSold: int,
    considerTransactionCommission: bool,
    commissionPaidPerTransaction: real,
    numberOfTransactions: int,
    considerCapitalGainTax: bool,
    capitalGainTaxPercent: real,
    considerIncomeTaxOnVestedStock: bool,
    incomeTaxIncurredWhenStockVested: real,
    numberOfStocksVested: int,
    marketValuePerShare: real)

  /** Go's zero value of the order. */
  const ZeroRsuFormOrder := RsuFormOrder(0.0, 0, false, 0.0, 0, false, 0.0, false, 0.0, 0, 0.0)

  /** The raw form values `buildRsuOrder` receives, in its parameter order. */
  datatype RsuFormValues = RsuFormValues(
    sellingPricePerShare: real,
    shareQty: int,
    considerCommission: bool,
    commissionAmount: real,
    numOfTransactions: int,
    considerCapitalGainTax: bool,
    capitalGainTax: real,
    considerIncomeTax: bool,
    incomeTaxIncurred: real,
    noOfStocksVested: int,
    marketPriceOnVestedStockPerShare: real)

  /** `o` is the order built from `v`: selling price, quantity and market value
      are copied, and each of the three optional groups is copied when its
      checkbox is on and left at Go's zero value (false, 0) when it is off. */
  predicate BuiltFrom(o: RsuFormOrder, v: RsuFormValues) {
    && o.sellingPricePerShare == v.sellingPricePerShare
    && o.numberOfSharesSold == v.shareQty
    && o.considerTransactionCommission == v.considerCommission
    && o.commissionPaidPerTransaction == (if v.considerCommission then v.commissionAmount else 0.0)
    && o.numberOfTransactions == (if v.considerCommission then v.numOfTransactions else 0)
    && o.considerCapitalGainTax == v.considerCapitalGainTax
    && o.capitalGainTaxPercent == (if v.considerCapitalGainTax then v.capitalGainTax else 0.0)
    && o.considerIncomeTaxOnVestedStock == v.considerIncomeTax
    && o.incomeTaxIncurredWhenStockVested == (if v.considerIncomeTax then v.incomeTaxIncurred else 0.0)
    && o.numberOfStocksVested == (if v.considerIncomeTax then v.noOfStocksVested else 0)
    && o.marketValuePerShare == v.marketPriceOnVestedStockPerShare
  }

  /** Starts from the zero order and assigns its fields one by one, the optional
      groups only under their checkbox. */
  method BuildRsuOrder(sellingPricePerShare: real, shareQty: int,
                       considerCommission: bool, commissionAmount: real, numOfTransactions: int,
                       considerCapitalGainTax: bool, capitalGainTax: real,
                       considerIncomeTax: bool, incomeTaxIncurred: real, noOfStocksVested: int,
                       marketPriceOnVestedStockPerShare: real)
    returns (rsuOrder: RsuFormOrder)
    ensures BuiltFrom(rsuOrder, RsuFormValues(sellingPricePerShare, shareQty,
                                              considerCommission, commissionAmount, numOfTransactions,
                                              considerCapitalGainTax, capitalGainTax,
                                              considerIncomeTax, incomeTaxIncurred, noOfStocksVested,
                                              marketPriceOnVestedStockPerShare))
  {
    rsuOrder := ZeroRsuFormOrder;
    rsuOrder := rsuOrder.(sellingPricePerShare := sellingPricePerShare);
    rsuOrder := rsuOrder.(numberOfSharesSold := shareQty);

    if considerCommission {
      rsuOrder := rsuOrder.(considerTransactionCommission := true);
      rsuOrder := rsuOrder.(commissionPaidPerTransaction := commissionAmount);
      rsuOrder := rsuOrder.(numberOfTransactions := numOfTransactions);
    }

    if considerCapitalGainTax {
      rsuOrder := rsuOrder.(considerCapitalGainTax := true);
      rsuOrder := rsuOrder.(capitalGainTaxPercent := capitalGainTax);
    }

    if considerIncomeTax {
      rsuOrder := rsuOrder.(considerIncomeTaxOnVestedStock := true);
      rsuOrder := rsuOrder.(incomeTaxIncurredWhenStockVested := incomeTaxIncurred);
      rsuOrder := rsuOrder.(numberOfStocksVested := noOfStocksVested);
    }
    rsuOrder := rsuOrder.(marketValuePerShare := marketPriceOnVestedStockPerShare);
  }

  /** The form values determine every field of the order: nothing else is set. */
  lemma BuiltOrderIsUnique(o1: RsuFormOrder, o2: RsuFormOrder, v: RsuFormValues)
    requires BuiltFrom(o1, v) && BuiltFrom(o2, v)
    ensures o1 == o2
  {
  }

  /** With every checkbox off only the selling price, quantity and market value
      are set; the rest of the order is Go's zero value. */
  lemma AllTogglesOffLeavesZeroes(o: RsuFormOrder, v: RsuFormValues)
    requires !v.considerCommission && !v.considerCapitalGainTax && !v.considerIncomeTax
    requires BuiltFrom(o, v)
    ensures o == ZeroRsuFormOrder.(sellingPricePerShare := v.sellingPricePerShare,
                                   numberOfSharesSold := v.shareQty,
                                   marketValuePerShare := v.marketPriceOnVestedStockPerShare)
  {
  }

  /** Flipping the commission checkbox changes the commission group and nothing else. */
  lemma CommissionToggleIsolated(v: RsuFormValues, consider: bool, o1: RsuFormOrder, o2: RsuFormOrder)
    requires BuiltFrom(o1, v) && BuiltFrom(o2, v.(considerCommission := consider))
    ensures o2 == o1.(considerTransactionCommission := consider,
                      commissionPaidPerTransaction := if consider then v.commissionAmount else 0.0,
                      numberOfTransactions := if consider then v.numOfTransactions else 0)
  {
  }

  /** Flipping the capital-gains checkbox changes the capital-gains group and nothing else. */
  lemma CapitalGainTaxToggleIsolated(v: RsuFormValues, consider: bool, o1: RsuFormOrder, o2: RsuFormOrder)
    requires BuiltFrom(o1, v) && BuiltFrom(o2, v.(considerCapitalGainTax := consider))
    ensures o2 == o1.(considerCapitalGainTax := consider,
                      capitalGainTaxPercent := if consider then v.capitalGainTax else 0.0)
  {
  }

  /** Flipping the income-tax checkbox changes the income-tax group and nothing else;
      in particular the market value per share stays as entered. */
  lemma IncomeTaxToggleIsolated(v: RsuFormValues, consider: bool, o1: RsuFormOrder, o2: RsuFormOrder)
    requires BuiltFrom(o1, v) && BuiltFrom(o2, v.(considerIncomeTax := consider))
    ensures o2 == o1.(considerIncomeTaxOnVestedStock := consider,
                      incomeTaxIncurredWhenStockVested := if consider then v.incomeTaxIncurred else 0.0,
                      numberOfStocksVested := if consider then v.noOfStocksVested else 0)
  {
  }
}

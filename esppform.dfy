/** Building an `EsppOrder` from the values entered in the ESPP input form. */
module EsppForm {

  import opened GoErrors
  import opened EsppTypes

  /** The raw form values `buildEsppOrder` receives, in its parameter order. */
  datatype EsppFormValues = EsppFormValues(
    costPerShare: real,
    discountPercent: real,
    sellingPricePerShare: real,
    shareQty: int,
    considerCommission: bool,
    commissionAmount: real,
    numOfTransactions: int,
    considerCapitalGainTax: bool,
    capitalGainTax: real)

  /** `o` is the order built from `v`: the price and quantity fields are copied,
      and each optional group is copied when its checkbox is on and left at
      Go's zero value (false, 0) when it is off. */
  predicate BuiltFrom(o: EsppOrder, v: EsppFormValues) {
    && o.costPerShare == v.costPerShare
    && o.discountPercent == v.discountPercent
    && o.sellingPricePerShare == v.sellingPricePerShare
    && o.numberOfSharesSold == v.shareQty
    && o.considerTransactionCommission == v.considerCommission
    && o.commissionPaidPerTransaction == (if v.considerCommission then v.commissionAmount else 0.0)
    && o.numberOfTransactions == (if v.considerCommission then v.numOfTransactions else 0)
    && o.considerCapitalGainTax == v.considerCapitalGainTax
    && o.capitalGainTaxPercent == (if v.considerCapitalGainTax then v.capitalGainTax else 0.0)
  }

  /** Starts from the zero order and assigns its fields one by one, the optional
      groups only under their checkbox. */
  method BuildEsppOrder(costPerShare: real, discountPercent: real, sellingPricePerShare: real, shareQty: int,
                        considerCommission: bool, commissionAmount: real, numOfTransactions: int,
                        considerCapitalGainTax: bool, capitalGainTax: real)
    returns (esppOrder: EsppOrder)
    ensures BuiltFrom(esppOrder, EsppFormValues(costPerShare, discountPercent, sellingPricePerShare, shareQty,
                                                considerCommission, commissionAmount, numOfTransactions,
                                                considerCapitalGainTax, capitalGainTax))
  {
    esppOrder := ZeroEsppOrder;
    esppOrder := esppOrder.(costPerShare := costPerShare);
    esppOrder := esppOrder.(discountPercent := discountPercent);
    esppOrder := esppOrder.(sellingPricePerShare := sellingPricePerShare);
    esppOrder := esppOrder.(numberOfSharesSold := shareQty);

    if considerCommission {
      esppOrder := esppOrder.(considerTransactionCommission := true);
      esppOrder := esppOrder.(commissionPaidPerTransaction := commissionAmount);
      esppOrder := esppOrder.(numberOfTransactions := numOfTransactions);
    }

    if considerCapitalGainTax {
      esppOrder := esppOrder.(considerCapitalGainTax := true);
      esppOrder := esppOrder.(capitalGainTaxPercent := capitalGainTax);
    }
  }

  /** The form values determine every field of the order: nothing else is set. */
  lemma BuiltOrderIsUnique(o1: EsppOrder, o2: EsppOrder, v: EsppFormValues)
    requires BuiltFrom(o1, v) && BuiltFrom(o2, v)
    ensures o1 == o2
  {
  }

  /** With the commission checkbox off, the commission arguments do not reach the
      order, so its profit or loss is the same whatever they were. */
  lemma CommissionArgumentsIgnoredWhenOff(v: EsppFormValues, commissionAmount: real, numOfTransactions: int,
                                          o1: EsppOrder, o2: EsppOrder)
    requires !v.considerCommission
    requires BuiltFrom(o1, v)
    requires BuiltFrom(o2, v.(commissionAmount := commissionAmount, numOfTransactions := numOfTransactions))
    ensures o1 == o2
    ensures ProfitOrLoss(o1) == ProfitOrLoss(o2)
  {
  }

  /** Flipping the commission checkbox changes the commission group and nothing else. */
  lemma CommissionToggleIsolated(v: EsppFormValues, consider: bool, o1: EsppOrder, o2: EsppOrder)
    requires BuiltFrom(o1, v) && BuiltFrom(o2, v.(considerCommission := consider))
    ensures o2 == o1.(considerTransactionCommission := consider,
                      commissionPaidPerTransaction := if consider then v.commissionAmount else 0.0,
                      numberOfTransactions := if consider then v.numOfTransactions else 0)
  {
  }

  /** Flipping the capital-gains checkbox changes the capital-gains group and nothing else. */
  lemma CapitalGainTaxToggleIsolated(v: EsppFormValues, consider: bool, o1: EsppOrder, o2: EsppOrder)
    requires BuiltFrom(o1, v) && BuiltFrom(o2, v.(considerCapitalGainTax := consider))
    ensures o2 == o1.(considerCapitalGainTax := consider,
                      capitalGainTaxPercent := if consider then v.capitalGainTax else 0.0)
  {
  }

  /** The test order entered through the form: it breaks even at 90 and owes no tax there. */
  lemma BreakEvenScenarioThroughForm(o: EsppOrder)
    requires BuiltFrom(o, EsppFormValues(100.0, 15.0, 90.0, 1, true, 5.0, 1, true, 24.0))
    ensures EffectiveCostPerShare(o) == 85.0
    ensures ProfitOrLoss(o) == 0.0
    ensures CapitalGainTaxAmount(o, ProfitOrLoss(o)) == Returned(0.0, None)
  {
    BreakEvenScenario();
  }
}

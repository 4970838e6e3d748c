/** The ESPP and RSU capital-gains taxes are one formula written twice. */
module CapitalGainTaxAgreement {

  import opened GoErrors
  import EsppTypes
  import RsuTypes

  /** Given the same percent and profit, both orders report the same tax and the same error. */
  lemma SameCapitalGainTax(e: EsppTypes.EsppOrder, r: RsuTypes.RsuOrder, profit: real)
    requires e.capitalGainTaxPercent == r.capitalGainTaxPercent
    ensures EsppTypes.CapitalGainTaxAmount(e, profit) == RsuTypes.CapitalGainTaxAmount(r, profit)
  {
    var espp := EsppTypes.CapitalGainTaxAmount(e, profit);
    var rsu := RsuTypes.CapitalGainTaxAmount(r, profit);
    if profit < 0.0 {
      assert espp == rsu;
    } else {
      assert espp.value == profit * r.capitalGainTaxPercent / 100.0 == rsu.value;
    }
  }

  /** The bounds proved for the ESPP tax carry over to the RSU tax: on a
      non-negative profit, a percent in [0, 100] yields a tax between 0 and
      the profit, and no profit means no tax. */
  lemma RsuCapitalGainTaxBounds(r: RsuTypes.RsuOrder, profit: real)
    requires profit >= 0.0
    ensures r.capitalGainTaxPercent >= 0.0 ==> RsuTypes.CapitalGainTaxAmount(r, profit).value >= 0.0
    ensures r.capitalGainTaxPercent <= 100.0 ==> RsuTypes.CapitalGainTaxAmount(r, profit).value <= profit
    ensures profit == 0.0 ==> RsuTypes.CapitalGainTaxAmount(r, profit) == Returned(0.0, None)
  {
    var e := EsppTypes.ZeroEsppOrder.(capitalGainTaxPercent := r.capitalGainTaxPercent);
    EsppTypes.CapitalGainTaxBounds(e, profit);
    SameCapitalGainTax(e, r, profit);
  }
}

/** The component's mutable state: the target ratio set by the slider, the
    scenario chosen by the toggle, and the `calculatedValues` record that the
    two effects overwrite field by field. */
module Analyzer {
  import opened Financials
  import opened Engine

  datatype Outcome = Pass | Fail(error: EngineError)

  /** The revenue branch of the projection effect, written out field by field,
      is `Update` in revenue mode. */
  lemma RevenueEffectIsUpdate(prev: CalculatedValues, s: Snapshot, ratio: real, v: CalculatedValues)
    requires prev.marketCap != 0.0 && s.sharesOutstanding != 0.0
    requires v == prev.(newRevenueGrowth := ratio * s.salesAndMarketing,
                        additionalRevenue := ratio * s.salesAndMarketing - s.revenueGrowth,
                        marketCapImpact := (ratio * s.salesAndMarketing - s.revenueGrowth) * s.psRatio,
                        newMarketCap := prev.marketCap
                          + (ratio * s.salesAndMarketing - s.revenueGrowth) * s.psRatio,
                        percentageGrowth := ((ratio * s.salesAndMarketing - s.revenueGrowth) * s.psRatio
                                             / prev.marketCap) * 100.0,
                        epsImpact := (ratio * s.salesAndMarketing - s.revenueGrowth)
                                     / s.sharesOutstanding)
    ensures Update(prev, s, ratio, RevenueGrowth) == Ok(v)
  {
    var p := ProjectRevenue(s, prev.marketCap, ratio);
    assert p == RevenueProjection(v.newRevenueGrowth, v.additionalRevenue, v.marketCapImpact,
                                  v.newMarketCap, v.percentageGrowth, v.epsImpact);
  }

  /** The cost branch of the projection effect, for a non-zero ratio, written
      out field by field, is `Update` in cost mode. */
  lemma CostEffectIsUpdate(prev: CalculatedValues, s: Snapshot, ratio: real, v: CalculatedValues)
    requires prev.marketCap != 0.0 && s.sharesOutstanding != 0.0 && ratio != 0.0
    requires v == prev.(newSalesAndMarketing := s.revenueGrowth / ratio,
                        costReduction := s.salesAndMarketing - s.revenueGrowth / ratio,
                        marketCapImpact := (s.salesAndMarketing - s.revenueGrowth / ratio) * s.peRatio,
                        newMarketCap := prev.marketCap
                          + (s.salesAndMarketing - s.revenueGrowth / ratio) * s.peRatio,
                        percentageGrowth := ((s.salesAndMarketing - s.revenueGrowth / ratio) * s.peRatio
                                             / prev.marketCap) * 100.0,
                        epsImpact := (s.salesAndMarketing - s.revenueGrowth / ratio)
                                     / s.sharesOutstanding)
    ensures Update(prev, s, ratio, CostReduction) == Ok(v)
  {
    var p := ProjectCost(s, prev.marketCap, ratio);
    assert p.Ok?;
    assert p.value.newSalesAndMarketing == v.newSalesAndMarketing;
    assert p.value.costReduction == v.costReduction;
    assert p.value.marketCapImpact == v.marketCapImpact;
    assert p.value.percentageGrowth == v.percentageGrowth;
    assert p == Ok(CostProjection(v.newSalesAndMarketing, v.costReduction, v.marketCapImpact,
                                  v.newMarketCap, v.percentageGrowth, v.epsImpact));
  }

  class CommercialRatioAnalyzer {
    const financials: Snapshot
    var commercialRatio: real
    var impactType: Mode
    var calculatedValues: CalculatedValues
    // False while the selected scenario has no value at the current ratio
    // (cost mode at ratio 0): the projection fields are then stale and must be
    // shown as undefined.
    var projectionDefined: bool

    /** The snapshot is well formed, the ratio lies within the slider's bounds
        and the baseline fields hold the snapshot's baseline. */
    ghost predicate Consistent()
      reads this
    {
      WellFormed(financials) &&
      InSliderRange(commercialRatio) &&
      Baseline(calculatedValues.totalExpenses, calculatedValues.ebitda,
               calculatedValues.marketCap) == ComputeBaseline(financials)
    }

    /** Besides consistency, the projection is marked undefined exactly in cost
        mode at ratio 0, and otherwise the record holds the projection of the
        selected scenario at the current ratio. */
    ghost predicate Valid()
      reads this
    {
      Consistent() &&
      (projectionDefined <==> !(impactType == CostReduction && commercialRatio == 0.0)) &&
      (projectionDefined ==> Settled(calculatedValues, financials, commercialRatio, impactType))
    }

    /** Mounting the component: the initial state (target 0.51, revenue mode,
        an all-zero record), then the baseline effect, then the projection. */
    constructor ()
      ensures Valid() && projectionDefined
      ensures financials == Initial && commercialRatio == 0.51 && impactType == RevenueGrowth
      ensures Update(WithBaseline(Zero, Initial), Initial, 0.51, RevenueGrowth).Ok?
      ensures calculatedValues
           == Update(WithBaseline(Zero, Initial), Initial, 0.51, RevenueGrowth).value
    {
      financials := Initial;
      commercialRatio := 0.51;
      impactType := RevenueGrowth;
      calculatedValues := Zero;
      new;
      InitialBaseline();
      RefreshBaseline();
      var _ := Recompute();
    }

    /** The baseline effect: writes total expenses, EBITDA and market cap. */
    method RefreshBaseline()
      modifies this`calculatedValues
      ensures calculatedValues == WithBaseline(old(calculatedValues), financials)
    {
      var totalExpenses := financials.salesAndMarketing + financials.researchAndDevelopment
                           + financials.generalAndAdmin + financials.otherExpenses;
      var ebitda := financials.revenue - financials.costOfRevenue - totalExpenses;
      var marketCap := financials.stockPrice * financials.sharesOutstanding;
      calculatedValues := calculatedValues.(totalExpenses := totalExpenses,
                                            ebitda := ebitda,
                                            marketCap := marketCap);
    }

    /** The projection effect for the current ratio and scenario. In cost mode
        a zero ratio fails, leaves the record as it was and marks the projection
        undefined. */
    method Recompute() returns (outcome: Outcome)
      requires Consistent()
      modifies this`calculatedValues, this`projectionDefined
      ensures Valid() && projectionDefined == outcome.Pass?
      ensures outcome.Pass? <==> Update(old(calculatedValues), financials, commercialRatio, impactType).Ok?
      ensures outcome.Pass? ==>
        calculatedValues == Update(old(calculatedValues), financials, commercialRatio, impactType).value
      ensures outcome.Fail? ==>
        outcome.error == DivisionByZero && calculatedValues == old(calculatedValues)
    {
      ghost var prev := calculatedValues;
      var marketCap := calculatedValues.marketCap;
      if impactType == RevenueGrowth {
        var newRevenueGrowth := commercialRatio * financials.salesAndMarketing;
        var additionalRevenue := newRevenueGrowth - financials.revenueGrowth;
        var marketCapImpact := additionalRevenue * financials.psRatio;
        var newMarketCap := marketCap + marketCapImpact;
        var percentageGrowth := (marketCapImpact / marketCap) * 100.0;
        var epsImpact := additionalRevenue / financials.sharesOutstanding;
        calculatedValues := calculatedValues.(newRevenueGrowth := newRevenueGrowth,
                                              additionalRevenue := additionalRevenue,
                                              marketCapImpact := marketCapImpact,
                                              newMarketCap := newMarketCap,
                                              percentageGrowth := percentageGrowth,
                                              epsImpact := epsImpact);
        RevenueEffectIsUpdate(prev, financials, commercialRatio, calculatedValues);
        outcome := Pass;
      } else if commercialRatio == 0.0 {
        outcome := Fail(DivisionByZero);
        projectionDefined := false;
        return;
      } else {
        var newSalesAndMarketing := financials.revenueGrowth / commercialRatio;
        var costReduction := financials.salesAndMarketing - newSalesAndMarketing;
        var marketCapImpact := costReduction * financials.peRatio;
        var newMarketCap := marketCap + marketCapImpact;
        var percentageGrowth := (marketCapImpact / marketCap) * 100.0;
        var epsImpact := costReduction / financials.sharesOutstanding;
        calculatedValues := calculatedValues.(newSalesAndMarketing := newSalesAndMarketing,
                                              costReduction := costReduction,
                                              marketCapImpact := marketCapImpact,
                                              newMarketCap := newMarketCap,
                                              percentageGrowth := percentageGrowth,
                                              epsImpact := epsImpact);
        CostEffectIsUpdate(prev, financials, commercialRatio, calculatedValues);
        outcome := Pass;
      }
      projectionDefined := true;
      assert Update(prev, financials, commercialRatio, impactType) == Ok(calculatedValues);
      UpdateIdempotent(prev, financials, commercialRatio, impactType);
      assert Settled(calculatedValues, financials, commercialRatio, impactType);
      assert calculatedValues.totalExpenses == prev.totalExpenses
          && calculatedValues.ebitda == prev.ebitda && calculatedValues.marketCap == marketCap;
    }

    /** The slider handler followed by the projection effect it triggers. */
    method SetCommercialRatio(ratio: real) returns (outcome: Outcome)
      requires Valid() && InSliderRange(ratio)
      modifies this`commercialRatio, this`calculatedValues, this`projectionDefined
      ensures Valid() && projectionDefined == outcome.Pass?
      ensures commercialRatio == ratio && impactType == old(impactType)
      ensures outcome.Pass? <==> Update(old(calculatedValues), financials, ratio, impactType).Ok?
      ensures outcome.Pass? ==>
        calculatedValues == Update(old(calculatedValues), financials, ratio, impactType).value
      ensures outcome.Fail? ==>
        outcome.error == DivisionByZero && calculatedValues == old(calculatedValues)
    {
      commercialRatio := ratio;
      outcome := Recompute();
    }

    /** The scenario toggle followed by the projection effect it triggers. */
    method SetImpactType(mode: Mode) returns (outcome: Outcome)
      requires Valid()
      modifies this`impactType, this`calculatedValues, this`projectionDefined
      ensures Valid() && projectionDefined == outcome.Pass?
      ensures impactType == mode && commercialRatio == old(commercialRatio)
      ensures outcome.Pass? <==> Update(old(calculatedValues), financials, commercialRatio, mode).Ok?
      ensures outcome.Pass? ==>
        calculatedValues == Update(old(calculatedValues), financials, commercialRatio, mode).value
      ensures outcome.Fail? ==>
        outcome.error == DivisionByZero && calculatedValues == old(calculatedValues)
    {
      impactType := mode;
      outcome := Recompute();
    }
  }
}

/** The projection engine: the `calculatedValues` record, the baseline effect
    and the per-mode scenario projection, all as pure functions over reals. */
module Engine {
  import opened Financials

  /** `impactType`: which scenario the projection effect computes. */
  datatype Mode = RevenueGrowth | CostReduction

  /** Cost-reduction mode divides revenue growth by the target ratio. */
  datatype EngineError = DivisionByZero

  datatype Result<T> = Ok(value: T) | Err(error: EngineError)

  /** The component's `calculatedValues` record. */
  datatype CalculatedValues = CalculatedValues(
    totalExpenses: real,
    ebitda: real,
    marketCap: real,
    newRevenueGrowth: real,
    additionalRevenue: real,
    newSalesAndMarketing: real,
    costReduction: real,
    marketCapImpact: real,
    newMarketCap: real,
    percentageGrowth: real,
    epsImpact: real)

  /** The record before any effect has run: every field 0. */
  const Zero := CalculatedValues(0.0, 0.0, 0.0, 0.0, 0.0, 0.0, 0.0, 0.0, 0.0, 0.0, 0.0)

  /** The baseline effect: the three baseline fields take the snapshot's
      baseline and every other field keeps its previous value. */
  function WithBaseline(prev: CalculatedValues, s: Snapshot): (v: CalculatedValues)
    ensures Baseline(v.totalExpenses, v.ebitda, v.marketCap) == ComputeBaseline(s)
    ensures v.(totalExpenses := prev.totalExpenses, ebitda := prev.ebitda,
               marketCap := prev.marketCap) == prev
  {
    var b := ComputeBaseline(s);
    prev.(totalExpenses := b.totalExpenses, ebitda := b.ebitda, marketCap := b.marketCap)
  }

  /** The six figures the revenue-growth scenario produces. */
  datatype RevenueProjection = RevenueProjection(
    newRevenueGrowth: real,
    additionalRevenue: real,
    marketCapImpact: real,
    newMarketCap: real,
    percentageGrowth: real,
    epsImpact: real)

  /** Revenue-growth scenario: keep S&M spend and grow revenue until the target
      ratio is reached. The new growth is the target ratio times the S&M spend,
      so it realises that ratio. The extra revenue is the growth above today's,
      valued at the P/S multiple. The percentage is the market cap's relative
      change, and the EPS impact is the extra revenue per share. */
  function ProjectRevenue(s: Snapshot, marketCap: real, ratio: real): (p: RevenueProjection)
    requires marketCap != 0.0 && s.sharesOutstanding != 0.0
    ensures p.newRevenueGrowth == ratio * s.salesAndMarketing
    ensures s.salesAndMarketing != 0.0 ==> p.newRevenueGrowth / s.salesAndMarketing == ratio
    ensures s.revenueGrowth + p.additionalRevenue == p.newRevenueGrowth
    ensures p.marketCapImpact == p.additionalRevenue * s.psRatio
    ensures p.newMarketCap - marketCap == p.marketCapImpact
    ensures marketCap * (1.0 + p.percentageGrowth / 100.0) == p.newMarketCap
    ensures p.epsImpact * s.sharesOutstanding == p.additionalRevenue
  {
    var newRevenueGrowth := ratio * s.salesAndMarketing;
    var additionalRevenue := newRevenueGrowth - s.revenueGrowth;
    var marketCapImpact := additionalRevenue * s.psRatio;
    RevenueProjection(
      newRevenueGrowth,
      additionalRevenue,
      marketCapImpact,
      marketCap + marketCapImpact,
      (marketCapImpact / marketCap) * 100.0,
      additionalRevenue / s.sharesOutstanding)
  }

  /** The six figures the cost-reduction scenario produces. */
  datatype CostProjection = CostProjection(
    newSalesAndMarketing: real,
    costReduction: real,
    marketCapImpact: real,
    newMarketCap: real,
    percentageGrowth: real,
    epsImpact: real)

  /** Cost-reduction scenario: keep revenue growth and cut S&M spend until the
      target ratio is reached. A zero ratio has no such spend and is rejected.
      Otherwise the new spend realises the target ratio, the saving is the spend
      above it, valued at the P/E multiple, and the percentage and EPS impact
      relate to the market cap and share count as in the revenue scenario. */
  function ProjectCost(s: Snapshot, marketCap: real, ratio: real): (r: Result<CostProjection>)
    requires marketCap != 0.0 && s.sharesOutstanding != 0.0
    ensures r.Err? <==> ratio == 0.0
    ensures r.Ok? ==> r.value.newSalesAndMarketing * ratio == s.revenueGrowth
    ensures r.Ok? ==> r.value.newSalesAndMarketing + r.value.costReduction == s.salesAndMarketing
    ensures r.Ok? ==> r.value.marketCapImpact == r.value.costReduction * s.peRatio
    ensures r.Ok? ==> r.value.newMarketCap - marketCap == r.value.marketCapImpact
    ensures r.Ok? ==> marketCap * (1.0 + r.value.percentageGrowth / 100.0) == r.value.newMarketCap
    ensures r.Ok? ==> r.value.epsImpact * s.sharesOutstanding == r.value.costReduction
  {
    if ratio == 0.0 then Err(DivisionByZero)
    else
      var newSalesAndMarketing := s.revenueGrowth / ratio;
      var costReduction := s.salesAndMarketing - newSalesAndMarketing;
      var marketCapImpact := costReduction * s.peRatio;
      Ok(CostProjection(
        newSalesAndMarketing,
        costReduction,
        marketCapImpact,
        marketCap + marketCapImpact,
        (marketCapImpact / marketCap) * 100.0,
        costReduction / s.sharesOutstanding))
  }

  /** The projection effect as a record update: each mode writes its own six
      fields with that mode's projection from the record's own market cap, and
      keeps all the others, including the other mode's fields and the baseline. */
  function Update(prev: CalculatedValues, s: Snapshot, ratio: real, mode: Mode)
    : (r: Result<CalculatedValues>)
    requires prev.marketCap != 0.0 && s.sharesOutstanding != 0.0
    ensures r.Err? <==> mode == CostReduction && ratio == 0.0
    ensures r.Ok? && mode == RevenueGrowth ==>
      r.value.(newRevenueGrowth := prev.newRevenueGrowth,
               additionalRevenue := prev.additionalRevenue,
               marketCapImpact := prev.marketCapImpact,
               newMarketCap := prev.newMarketCap,
               percentageGrowth := prev.percentageGrowth,
               epsImpact := prev.epsImpact) == prev
    ensures r.Ok? && mode == RevenueGrowth ==>
      var p := ProjectRevenue(s, prev.marketCap, ratio);
      r.value.newRevenueGrowth == p.newRevenueGrowth &&
      r.value.additionalRevenue == p.additionalRevenue &&
      r.value.marketCapImpact == p.marketCapImpact &&
      r.value.newMarketCap == p.newMarketCap &&
      r.value.percentageGrowth == p.percentageGrowth &&
      r.value.epsImpact == p.epsImpact
    ensures r.Ok? && mode == CostReduction ==>
      r.value.(newSalesAndMarketing := prev.newSalesAndMarketing,
               costReduction := prev.costReduction,
               marketCapImpact := prev.marketCapImpact,
               newMarketCap := prev.newMarketCap,
               percentageGrowth := prev.percentageGrowth,
               epsImpact := prev.epsImpact) == prev
    ensures r.Ok? && mode == CostReduction ==>
      ProjectCost(s, prev.marketCap, ratio).Ok? &&
      var p := ProjectCost(s, prev.marketCap, ratio).value;
      r.value.newSalesAndMarketing == p.newSalesAndMarketing &&
      r.value.costReduction == p.costReduction &&
      r.value.marketCapImpact == p.marketCapImpact &&
      r.value.newMarketCap == p.newMarketCap &&
      r.value.percentageGrowth == p.percentageGrowth &&
      r.value.epsImpact == p.epsImpact
  {
    match mode
    case RevenueGrowth =>
      var p := ProjectRevenue(s, prev.marketCap, ratio);
      Ok(prev.(newRevenueGrowth := p.newRevenueGrowth,
               additionalRevenue := p.additionalRevenue,
               marketCapImpact := p.marketCapImpact,
               newMarketCap := p.newMarketCap,
               percentageGrowth := p.percentageGrowth,
               epsImpact := p.epsImpact))
    case CostReduction =>
      match ProjectCost(s, prev.marketCap, ratio)
      case Err(e) => Err(e)
      case Ok(p) =>
        Ok(prev.(newSalesAndMarketing := p.newSalesAndMarketing,
                 costReduction := p.costReduction,
                 marketCapImpact := p.marketCapImpact,
                 newMarketCap := p.newMarketCap,
                 percentageGrowth := p.percentageGrowth,
                 epsImpact := p.epsImpact))
  }

  /** In both modes the projected percentage is the relative change from the
      record's market cap to the new one, and that change is the impact. */
  lemma UpdateGrowsMarketCap(prev: CalculatedValues, s: Snapshot, ratio: real, mode: Mode)
    requires prev.marketCap != 0.0 && s.sharesOutstanding != 0.0
    requires Update(prev, s, ratio, mode).Ok?
    ensures var v := Update(prev, s, ratio, mode).value;
      v.newMarketCap - prev.marketCap == v.marketCapImpact &&
      prev.marketCap * (1.0 + v.percentageGrowth / 100.0) == v.newMarketCap
  {
    var v := Update(prev, s, ratio, mode).value;
    if mode == RevenueGrowth {
      var p := ProjectRevenue(s, prev.marketCap, ratio);
      assert v.marketCapImpact == p.marketCapImpact && v.newMarketCap == p.newMarketCap;
      assert v.percentageGrowth == p.percentageGrowth;
    } else {
      var p := ProjectCost(s, prev.marketCap, ratio).value;
      assert v.marketCapImpact == p.marketCapImpact && v.newMarketCap == p.newMarketCap;
      assert v.percentageGrowth == p.percentageGrowth;
    }
  }

  /** A record is settled for a ratio and a mode when re-running the projection
      effect would not change it. */
  predicate Settled(v: CalculatedValues, s: Snapshot, ratio: real, mode: Mode)
    requires v.marketCap != 0.0 && s.sharesOutstanding != 0.0
  {
    Update(v, s, ratio, mode) == Ok(v)
  }

  /** A settled record holds the selected mode's projection at that ratio. */
  lemma SettledHoldsProjection(v: CalculatedValues, s: Snapshot, ratio: real, mode: Mode)
    requires v.marketCap != 0.0 && s.sharesOutstanding != 0.0
    requires Settled(v, s, ratio, mode)
    ensures mode == RevenueGrowth ==>
      var p := ProjectRevenue(s, v.marketCap, ratio);
      v.newRevenueGrowth == p.newRevenueGrowth && v.additionalRevenue == p.additionalRevenue &&
      v.marketCapImpact == p.marketCapImpact && v.newMarketCap == p.newMarketCap &&
      v.percentageGrowth == p.percentageGrowth && v.epsImpact == p.epsImpact
    ensures mode == CostReduction ==>
      ProjectCost(s, v.marketCap, ratio).Ok? &&
      var p := ProjectCost(s, v.marketCap, ratio).value;
      v.newSalesAndMarketing == p.newSalesAndMarketing && v.costReduction == p.costReduction &&
      v.marketCapImpact == p.marketCapImpact && v.newMarketCap == p.newMarketCap &&
      v.percentageGrowth == p.percentageGrowth && v.epsImpact == p.epsImpact
  {
  }

  /** The extra revenue is affine in the target ratio, with slope the S&M spend. */
  lemma RevenueAffine(s: Snapshot, marketCap: real, r1: real, r2: real)
    requires marketCap != 0.0 && s.sharesOutstanding != 0.0
    ensures ProjectRevenue(s, marketCap, r2).additionalRevenue
          - ProjectRevenue(s, marketCap, r1).additionalRevenue
         == (r2 - r1) * s.salesAndMarketing
  {
  }

  /** With positive S&M spend a higher target ratio always means more extra
      revenue, and (with a positive P/S multiple) a larger market-cap impact. */
  lemma RevenueStrictlyIncreasing(s: Snapshot, marketCap: real, r1: real, r2: real)
    requires marketCap != 0.0 && s.sharesOutstanding != 0.0
    requires s.salesAndMarketing > 0.0 && r1 < r2
    ensures ProjectRevenue(s, marketCap, r1).additionalRevenue
          < ProjectRevenue(s, marketCap, r2).additionalRevenue
    ensures s.psRatio > 0.0 ==>
      ProjectRevenue(s, marketCap, r1).marketCapImpact
      < ProjectRevenue(s, marketCap, r2).marketCapImpact
  {
    RevenueAffine(s, marketCap, r1, r2);
    var p1, p2 := ProjectRevenue(s, marketCap, r1), ProjectRevenue(s, marketCap, r2);
    assert p2.marketCapImpact - p1.marketCapImpact
        == (p2.additionalRevenue - p1.additionalRevenue) * s.psRatio;
  }

  /** With positive revenue growth a higher (positive) target ratio always means
      a lower required S&M spend, hence a larger saving and, with a positive
      P/E multiple, a larger market-cap impact. */
  lemma CostStrictlyIncreasing(s: Snapshot, marketCap: real, r1: real, r2: real)
    requires marketCap != 0.0 && s.sharesOutstanding != 0.0
    requires s.revenueGrowth > 0.0 && 0.0 < r1 < r2
    ensures ProjectCost(s, marketCap, r1).Ok? && ProjectCost(s, marketCap, r2).Ok?
    ensures ProjectCost(s, marketCap, r1).value.costReduction
          < ProjectCost(s, marketCap, r2).value.costReduction
    ensures s.peRatio > 0.0 ==>
      ProjectCost(s, marketCap, r1).value.marketCapImpact
      < ProjectCost(s, marketCap, r2).value.marketCapImpact
  {
    var g := s.revenueGrowth;
    var q1, q2 := g / r1, g / r2;
    assert q1 * r1 == g && q2 * r2 == g;
    assert q2 < q1 by {
      // q1 * r1 == q2 * r2 and r1 < r2 with everything positive.
      assert q2 > 0.0;
      assert q2 * r1 < q2 * r2;
    }
    var p1, p2 := ProjectCost(s, marketCap, r1).value, ProjectCost(s, marketCap, r2).value;
    assert p2.marketCapImpact - p1.marketCapImpact
        == (p2.costReduction - p1.costReduction) * s.peRatio;
  }

  /** At the current ratio (revenue growth over S&M spend) both scenarios are the
      status quo: no extra revenue or saving, no market-cap change, no EPS change. */
  lemma FixedPointAtCurrentRatio(prev: CalculatedValues, s: Snapshot, mode: Mode)
    requires prev.marketCap != 0.0 && s.sharesOutstanding != 0.0
    requires s.salesAndMarketing != 0.0
    requires mode == CostReduction ==> s.revenueGrowth != 0.0
    ensures Update(prev, s, CurrentRatio(s), mode).Ok?
    ensures var v := Update(prev, s, CurrentRatio(s), mode).value;
      (mode == RevenueGrowth ==>
         v.newRevenueGrowth == s.revenueGrowth && v.additionalRevenue == 0.0) &&
      (mode == CostReduction ==>
         v.newSalesAndMarketing == s.salesAndMarketing && v.costReduction == 0.0) &&
      v.marketCapImpact == 0.0 && v.newMarketCap == prev.marketCap &&
      v.percentageGrowth == 0.0 && v.epsImpact == 0.0
  {
    var cr := CurrentRatio(s);
    match mode
    case RevenueGrowth =>
      assert cr * s.salesAndMarketing == s.revenueGrowth;
    case CostReduction =>
      assert cr != 0.0;
      var n := ProjectCost(s, prev.marketCap, cr).value.newSalesAndMarketing;
      assert n * cr == s.salesAndMarketing * cr;
  }

  /** Re-running the projection effect on its own output changes nothing: the
      effect reads only the market cap, which it never writes. */
  lemma UpdateIdempotent(prev: CalculatedValues, s: Snapshot, ratio: real, mode: Mode)
    requires prev.marketCap != 0.0 && s.sharesOutstanding != 0.0
    requires Update(prev, s, ratio, mode).Ok?
    ensures Update(prev, s, ratio, mode).value.marketCap == prev.marketCap
    ensures Update(Update(prev, s, ratio, mode).value, s, ratio, mode)
         == Update(prev, s, ratio, mode)
  {
  }

  /** The two effects touch disjoint fields, except that the projection reads the
      market cap the baseline writes: running the baseline first and then the
      projection leaves the same record as projecting from the baseline's market
      cap and then writing the baseline. */
  lemma BaselineThenUpdate(prev: CalculatedValues, s: Snapshot, ratio: real, mode: Mode)
    requires WellFormed(s) && prev.marketCap == ComputeBaseline(s).marketCap
    ensures Update(WithBaseline(prev, s), s, ratio, mode)
         == match Update(prev, s, ratio, mode)
            case Ok(v) => Ok(WithBaseline(v, s))
            case Err(e) => Err(e)
  {
  }

  /** The scenario of the baked-in snapshot at target ratio 1.00 in revenue mode:
      169.19 new growth, 82.61 extra revenue, 521.2691 market-cap impact on a
      2690 market cap, a 19.38% rise and 0.8261 per share. */
  lemma InitialRevenueScenario()
    ensures var p := ProjectRevenue(Initial, 2690.0, 1.0);
      p.newRevenueGrowth == 169.19 && p.additionalRevenue == 82.61 &&
      p.marketCapImpact == 521.2691 && p.newMarketCap == 3211.2691 &&
      19.375 <= p.percentageGrowth < 19.385 && p.epsImpact == 0.8261
  {
  }

  /** The slider's bounds for the target ratio. */
  const SliderMin := 0.0
  const SliderMax := 2.0

  predicate InSliderRange(ratio: real) {
    SliderMin <= ratio <= SliderMax
  }

  /** An S&M spend at which the given revenue growth yields the given ratio. */
  predicate RealisesRatio(spend: real, ratio: real, growth: real) {
    spend * ratio == growth
  }

  /** Every ratio within the slider's bounds projects an impact between the
      impacts at the two ends of the slider. */
  lemma RevenueImpactBounded(s: Snapshot, marketCap: real, ratio: real)
    requires marketCap != 0.0 && s.sharesOutstanding != 0.0
    requires s.salesAndMarketing > 0.0 && s.psRatio > 0.0 && InSliderRange(ratio)
    ensures ProjectRevenue(s, marketCap, SliderMin).marketCapImpact
         <= ProjectRevenue(s, marketCap, ratio).marketCapImpact
         <= ProjectRevenue(s, marketCap, SliderMax).marketCapImpact
  {
    if SliderMin < ratio { RevenueStrictlyIncreasing(s, marketCap, SliderMin, ratio); }
    if ratio < SliderMax { RevenueStrictlyIncreasing(s, marketCap, ratio, SliderMax); }
  }

  /** The market-cap impacts the slider can reach in revenue mode: with positive
      S&M spend and P/S multiple, an impact is reached by some ratio in [0, 2]
      exactly when it lies between the impacts at the two ends of the slider. */
  lemma RevenueImpactRange(s: Snapshot, marketCap: real, impact: real)
    requires marketCap != 0.0 && s.sharesOutstanding != 0.0
    requires s.salesAndMarketing > 0.0 && s.psRatio > 0.0
    ensures (exists ratio :: InSliderRange(ratio)
               && ProjectRevenue(s, marketCap, ratio).marketCapImpact == impact)
        <==> ProjectRevenue(s, marketCap, SliderMin).marketCapImpact <= impact
               <= ProjectRevenue(s, marketCap, SliderMax).marketCapImpact
  {
    if exists ratio :: InSliderRange(ratio)
         && ProjectRevenue(s, marketCap, ratio).marketCapImpact == impact {
      var ratio :| InSliderRange(ratio)
                   && ProjectRevenue(s, marketCap, ratio).marketCapImpact == impact;
      RevenueImpactBounded(s, marketCap, ratio);
    }
    var low := ProjectRevenue(s, marketCap, SliderMin).marketCapImpact;
    var high := ProjectRevenue(s, marketCap, SliderMax).marketCapImpact;
    if low <= impact <= high {
      var ratio := RatioForImpact(s, impact);
      RatioForImpactInRange(s, marketCap, impact);
      assert InSliderRange(ratio) && ProjectRevenue(s, marketCap, ratio).marketCapImpact == impact;
    }
  }

  /** Inverts the valuation and the growth formulas: the ratio whose extra
      revenue, valued at the P/S multiple, is the given impact. */
  function RatioForImpact(s: Snapshot, impact: real): (ratio: real)
    requires s.salesAndMarketing != 0.0 && s.psRatio != 0.0
    ensures (ratio * s.salesAndMarketing - s.revenueGrowth) * s.psRatio == impact
  {
    (impact / s.psRatio + s.revenueGrowth) / s.salesAndMarketing
  }

  /** An impact between those at the slider's ends is reached by a ratio on
      the slider. */
  lemma RatioForImpactInRange(s: Snapshot, marketCap: real, impact: real)
    requires marketCap != 0.0 && s.sharesOutstanding != 0.0
    requires s.salesAndMarketing > 0.0 && s.psRatio > 0.0
    requires ProjectRevenue(s, marketCap, SliderMin).marketCapImpact <= impact
               <= ProjectRevenue(s, marketCap, SliderMax).marketCapImpact
    ensures InSliderRange(RatioForImpact(s, impact))
    ensures ProjectRevenue(s, marketCap, RatioForImpact(s, impact)).marketCapImpact == impact
  {
    var ratio := RatioForImpact(s, impact);
    RatioForExtraRevenue(s, marketCap, impact / s.psRatio);
    assert ProjectRevenue(s, marketCap, ratio).marketCapImpact == impact;
    if ratio < SliderMin { RevenueStrictlyIncreasing(s, marketCap, ratio, SliderMin); }
    if SliderMax < ratio { RevenueStrictlyIncreasing(s, marketCap, SliderMax, ratio); }
  }

  /** The ratio that yields a given extra revenue. */
  lemma RatioForExtraRevenue(s: Snapshot, marketCap: real, extra: real)
    requires marketCap != 0.0 && s.sharesOutstanding != 0.0 && s.salesAndMarketing != 0.0
    ensures ProjectRevenue(s, marketCap, (extra + s.revenueGrowth) / s.salesAndMarketing)
              .additionalRevenue == extra
  {
  }

  /** The savings cost mode can project: with positive revenue growth, a saving
      is reached by some positive target ratio exactly when it is below today's
      S&M spend (the required spend stays positive). */
  lemma CostSavingRange(s: Snapshot, marketCap: real, saving: real)
    requires marketCap != 0.0 && s.sharesOutstanding != 0.0
    requires s.revenueGrowth > 0.0
    ensures (exists ratio :: 0.0 < ratio && ProjectCost(s, marketCap, ratio).Ok?
               && ProjectCost(s, marketCap, ratio).value.costReduction == saving)
        <==> saving < s.salesAndMarketing
  {
    if exists ratio :: 0.0 < ratio && ProjectCost(s, marketCap, ratio).Ok?
         && ProjectCost(s, marketCap, ratio).value.costReduction == saving {
      var ratio :| 0.0 < ratio && ProjectCost(s, marketCap, ratio).Ok?
                   && ProjectCost(s, marketCap, ratio).value.costReduction == saving;
      CostSavingBelowSpend(s, marketCap, ratio);
    }
    if saving < s.salesAndMarketing {
      // The ratio at which the required spend is today's spend less the saving.
      var ratio := s.revenueGrowth / (s.salesAndMarketing - saving);
      RatioForSaving(s, marketCap, saving);
      assert 0.0 < ratio && ProjectCost(s, marketCap, ratio).Ok?
             && ProjectCost(s, marketCap, ratio).value.costReduction == saving;
    }
  }

  /** With positive revenue growth and target ratio the required spend is
      positive, so the saving stays below today's spend. */
  lemma CostSavingBelowSpend(s: Snapshot, marketCap: real, ratio: real)
    requires marketCap != 0.0 && s.sharesOutstanding != 0.0
    requires s.revenueGrowth > 0.0 && 0.0 < ratio
    ensures ProjectCost(s, marketCap, ratio).Ok?
    ensures ProjectCost(s, marketCap, ratio).value.costReduction < s.salesAndMarketing
  {
    var spend := ProjectCost(s, marketCap, ratio).value.newSalesAndMarketing;
    assert spend * ratio == s.revenueGrowth;
  }

  /** The positive ratio that yields a given saving below today's spend. */
  lemma RatioForSaving(s: Snapshot, marketCap: real, saving: real)
    requires marketCap != 0.0 && s.sharesOutstanding != 0.0
    requires s.revenueGrowth > 0.0 && saving < s.salesAndMarketing
    ensures 0.0 < s.revenueGrowth / (s.salesAndMarketing - saving)
    ensures var r := ProjectCost(s, marketCap, s.revenueGrowth / (s.salesAndMarketing - saving));
      r.Ok? && r.value.costReduction == saving
  {
    var gap := s.salesAndMarketing - saving;
    var ratio := s.revenueGrowth / gap;
    assert ratio * gap == s.revenueGrowth;
    assert 0.0 < ratio;
    var r := ProjectCost(s, marketCap, ratio);
    assert r.Ok? && r.value.newSalesAndMarketing * ratio == s.revenueGrowth;
    // Both spends realise the same ratio, so they differ by nothing.
    var d := r.value.newSalesAndMarketing - gap;
    assert d * ratio == 0.0;
  }

  /** The required-spend formula divides revenue growth by the target ratio
      unguarded, and the slider's lower bound is in range: there, with any
      non-zero growth, no spend realises the ratio at all, and the projection
      rejects the input rather than producing an infinite spend. */
  lemma SliderMinimumHasNoSpend(prev: CalculatedValues, s: Snapshot)
    requires prev.marketCap != 0.0 && s.sharesOutstanding != 0.0
    requires s.revenueGrowth != 0.0
    ensures InSliderRange(SliderMin)
    ensures forall spend :: !RealisesRatio(spend, SliderMin, s.revenueGrowth)
    ensures Update(prev, s, SliderMin, CostReduction) == Err(DivisionByZero)
  {
  }
}

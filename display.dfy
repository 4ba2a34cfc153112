/** Figures the component derives from the record for display: the gauge
    needle, the projected stock price, the projected column of the detailed
    financials and the current benchmark position. */
module Display {
  import opened Financials
  import opened Engine
  import opened Zones

  /** Horizontal position of the gauge needle, in percent of the gauge width:
      half the ratio, clamped to the gauge. Over the slider's range [0, 2] it
      is linear; outside it the needle rests at an end. */
  function NeedlePosition(ratio: real): (p: real)
    ensures 0.0 <= p <= 100.0
    ensures 0.0 <= ratio <= 2.0 ==> p == 50.0 * ratio
    ensures ratio <= 0.0 ==> p == 0.0
    ensures 2.0 <= ratio ==> p == 100.0
  {
    var half := ratio / 2.0;
    var atLeastZero := if half > 0.0 then half else 0.0;
    (if atLeastZero < 1.0 then atLeastZero else 1.0) * 100.0
  }

  /** The needle never moves left when the ratio grows. */
  lemma NeedleMonotone(r1: real, r2: real)
    requires r1 <= r2
    ensures NeedlePosition(r1) <= NeedlePosition(r2)
  {
  }

  /** The projected share price: today's price grown by the projected
      percentage. Over the share count it is the baseline market cap grown by
      the same percentage. It is above today's price exactly when the
      percentage is positive, and at least today's price exactly when the card
      colours the percentage green (non-negative). */
  function ProjectedStockPrice(s: Snapshot, v: CalculatedValues): (price: real)
    ensures price * s.sharesOutstanding
         == ComputeBaseline(s).marketCap * (1.0 + v.percentageGrowth / 100.0)
    ensures s.stockPrice > 0.0 ==> (price > s.stockPrice <==> v.percentageGrowth > 0.0)
    ensures s.stockPrice > 0.0 ==> (price >= s.stockPrice <==> v.percentageGrowth >= 0.0)
  {
    s.stockPrice * (1.0 + v.percentageGrowth / 100.0)
  }

  /** Whenever the record's market cap is the baseline one, the projected price
      times the share count is exactly the projected market cap, in both modes. */
  lemma StockPriceMatchesNewMarketCap(prev: CalculatedValues, s: Snapshot, ratio: real, mode: Mode)
    requires WellFormed(s) && prev.marketCap == ComputeBaseline(s).marketCap
    requires Update(prev, s, ratio, mode).Ok?
    ensures var v := Update(prev, s, ratio, mode).value;
      ProjectedStockPrice(s, v) * s.sharesOutstanding == v.newMarketCap
  {
    UpdateGrowsMarketCap(prev, s, ratio, mode);
  }

  /** In revenue mode, with positive S&M spend and P/S multiple, a higher target
      ratio always projects a strictly higher share price. */
  lemma StockPriceIncreasing(prev: CalculatedValues, s: Snapshot, r1: real, r2: real)
    requires WellFormed(s) && prev.marketCap == ComputeBaseline(s).marketCap
    requires s.salesAndMarketing > 0.0 && s.psRatio > 0.0 && r1 < r2
    ensures ProjectedStockPrice(s, Update(prev, s, r1, RevenueGrowth).value)
          < ProjectedStockPrice(s, Update(prev, s, r2, RevenueGrowth).value)
  {
    var v1, v2 := Update(prev, s, r1, RevenueGrowth).value, Update(prev, s, r2, RevenueGrowth).value;
    StockPriceMatchesNewMarketCap(prev, s, r1, RevenueGrowth);
    StockPriceMatchesNewMarketCap(prev, s, r2, RevenueGrowth);
    RevenueStrictlyIncreasing(s, prev.marketCap, r1, r2);
    assert v1.newMarketCap < v2.newMarketCap;
    CancelPositiveFactor(ProjectedStockPrice(s, v1), ProjectedStockPrice(s, v2), s.sharesOutstanding);
  }

  /** A positive factor can be cancelled from a strict inequality. */
  lemma CancelPositiveFactor(a: real, b: real, k: real)
    requires 0.0 < k && a * k < b * k
    ensures a < b
  {
  }

  /** The projected EBITDA of the detailed financials: today's EBITDA plus the
      extra revenue or the S&M saving, whichever scenario is selected. When the
      record holds the baseline EBITDA, it is the EBITDA of the projected
      statement: revenue grown by the extra revenue, or operating expenses
      reduced by the saving. */
  function ProjectedEbitda(s: Snapshot, v: CalculatedValues, mode: Mode): (e: real)
    ensures v.ebitda == ComputeBaseline(s).ebitda && mode == RevenueGrowth ==>
      e == (s.revenue + v.additionalRevenue) - s.costOfRevenue - ComputeBaseline(s).totalExpenses
    ensures v.ebitda == ComputeBaseline(s).ebitda && mode == CostReduction ==>
      e == s.revenue - s.costOfRevenue - (ComputeBaseline(s).totalExpenses - v.costReduction)
  {
    match mode
    case RevenueGrowth => v.ebitda + v.additionalRevenue
    case CostReduction => v.ebitda + v.costReduction
  }

  /** One column of the detailed-financials table. */
  datatype Statement = Statement(
    revenue: real,
    costOfRevenue: real,
    grossMargin: real,
    salesAndMarketing: real,
    otherOperating: real,  // R&D + G&A + Other
    ebitda: real)

  /** The "Current" column. Revenue, cost of revenue and S&M are the
      snapshot's figures and EBITDA is the record's; the "R&D + G&A + Other"
      row is total operating expenses less S&M, and the column adds up whenever
      the record holds the baseline EBITDA. */
  function CurrentColumn(s: Snapshot, v: CalculatedValues): (c: Statement)
    ensures c.revenue == s.revenue && c.costOfRevenue == s.costOfRevenue
    ensures c.grossMargin == s.revenue - s.costOfRevenue
    ensures c.salesAndMarketing == s.salesAndMarketing && c.ebitda == v.ebitda
    ensures c.otherOperating == ComputeBaseline(s).totalExpenses - s.salesAndMarketing
    ensures v.ebitda == ComputeBaseline(s).ebitda ==> AddsUp(c)
  {
    Statement(s.revenue, s.costOfRevenue, s.revenue - s.costOfRevenue, s.salesAndMarketing,
              s.researchAndDevelopment + s.generalAndAdmin + s.otherExpenses, v.ebitda)
  }

  /** The "Projected" column: revenue grows by the extra revenue in revenue mode,
      S&M drops to the new spend in cost mode, and the EBITDA row is
      `ProjectedEbitda`. Against the current column it changes only the rows
      the scenario moves, by the amounts the "Change" column shows. */
  function ProjectedColumn(s: Snapshot, v: CalculatedValues, mode: Mode): (c: Statement)
    ensures var cur := CurrentColumn(s, v);
      c.costOfRevenue == cur.costOfRevenue && c.otherOperating == cur.otherOperating &&
      c.revenue - cur.revenue == (if mode == RevenueGrowth then v.additionalRevenue else 0.0) &&
      c.grossMargin - cur.grossMargin == c.revenue - cur.revenue &&
      c.salesAndMarketing
        == (if mode == CostReduction then v.newSalesAndMarketing else cur.salesAndMarketing) &&
      c.ebitda - cur.ebitda
        == (if mode == RevenueGrowth then v.additionalRevenue else v.costReduction)
  {
    var revenue := if mode == RevenueGrowth then s.revenue + v.additionalRevenue else s.revenue;
    Statement(
      revenue,
      s.costOfRevenue,
      revenue - s.costOfRevenue,
      if mode == CostReduction then v.newSalesAndMarketing else s.salesAndMarketing,
      s.researchAndDevelopment + s.generalAndAdmin + s.otherExpenses,
      ProjectedEbitda(s, v, mode))
  }

  /** A column adds up when its EBITDA is gross margin less the operating lines. */
  predicate AddsUp(c: Statement) {
    c.grossMargin == c.revenue - c.costOfRevenue &&
    c.ebitda == c.grossMargin - c.salesAndMarketing - c.otherOperating
  }

  /** After the baseline and a successful projection both columns of the table
      add up: the projected EBITDA shortcut agrees with recomputing EBITDA from
      the projected revenue, or from the projected S&M spend. */
  lemma ColumnsAddUp(prev: CalculatedValues, s: Snapshot, ratio: real, mode: Mode)
    requires WellFormed(s)
    requires Baseline(prev.totalExpenses, prev.ebitda, prev.marketCap) == ComputeBaseline(s)
    requires Update(prev, s, ratio, mode).Ok?
    ensures var v := Update(prev, s, ratio, mode).value;
      AddsUp(CurrentColumn(s, v)) && AddsUp(ProjectedColumn(s, v, mode))
  {
    var v := Update(prev, s, ratio, mode).value;
    assert v.ebitda == prev.ebitda;
    if mode == RevenueGrowth {
      assert v.additionalRevenue == ProjectRevenue(s, prev.marketCap, ratio).additionalRevenue;
    } else {
      var p := ProjectCost(s, prev.marketCap, ratio).value;
      assert v.costReduction == p.costReduction;
      assert v.newSalesAndMarketing == p.newSalesAndMarketing;
    }
  }

  /** The benchmark quartile of the company's current ratio, computed with the
      same breakpoints as the target position. With positive S&M spend it
      compares revenue growth directly against the breakpoints scaled by the
      spend. */
  function CurrentPositionQuartile(s: Snapshot): (q: Quartile)
    requires s.salesAndMarketing != 0.0
    ensures s.salesAndMarketing > 0.0 ==>
      (q == Bottom <==> s.revenueGrowth < 0.40 * s.salesAndMarketing)
    ensures s.salesAndMarketing > 0.0 ==>
      (q == Second <==> 0.40 * s.salesAndMarketing <= s.revenueGrowth < 0.85 * s.salesAndMarketing)
    ensures s.salesAndMarketing > 0.0 ==>
      (q == Third <==> 0.85 * s.salesAndMarketing <= s.revenueGrowth < 1.20 * s.salesAndMarketing)
    ensures s.salesAndMarketing > 0.0 ==>
      (q == Top <==> 1.20 * s.salesAndMarketing <= s.revenueGrowth)
  {
    var cr := CurrentRatio(s);
    BelowBreakpoint(cr, 0.40, s.salesAndMarketing, s.revenueGrowth);
    BelowBreakpoint(cr, 0.85, s.salesAndMarketing, s.revenueGrowth);
    BelowBreakpoint(cr, 1.20, s.salesAndMarketing, s.revenueGrowth);
    QuartileOf(cr)
  }

  /** A ratio realised by a positive spend lies below a breakpoint exactly when
      the growth lies below the breakpoint scaled by that spend. */
  lemma BelowBreakpoint(ratio: real, breakpoint: real, spend: real, growth: real)
    ensures 0.0 < spend && ratio * spend == growth ==>
      (ratio < breakpoint <==> growth < breakpoint * spend)
  {
    if 0.0 < spend && ratio * spend == growth {
      assert (breakpoint - ratio) * spend == breakpoint * spend - growth;
    }
  }

  /** The baked-in company sits in the second quartile, and the ratio it shows
      (0.51) is classified the same way when chosen as the target. */
  lemma InitialCurrentPosition()
    ensures Initial.salesAndMarketing != 0.0
    ensures CurrentPositionQuartile(Initial) == Second
    ensures QuartileOf(0.51) == CurrentPositionQuartile(Initial)
  {
    InitialCurrentRatio();
  }
}

/** The fixed company snapshot the analyzer works on, and the baseline figures
    derived from it once when the component mounts. All amounts are in millions
    of dollars; the multiples are plain factors. Quantities are exact reals. */
module Financials {

  /** The `financials` record: reported figures and market multiples. */
  datatype Snapshot = Snapshot(
    revenue: real,
    revenuePrevYear: real,
    revenueGrowth: real,
    costOfRevenue: real,
    salesAndMarketing: real,
    researchAndDevelopment: real,
    generalAndAdmin: real,
    otherExpenses: real,
    psRatio: real,            // price to sales
    peRatio: real,            // price to earnings
    sharesOutstanding: real,  // millions of shares
    stockPrice: real)

  /** The snapshot baked into the component. */
  const Initial := Snapshot(
    426.96, 340.38, 86.58, 109.38,
    169.19, 80.79, 65.31, 0.00,
    6.31, 25.0, 100.0, 26.90)

  /** Amounts and multiples are non-negative (growth may be signed), and the
      share count and price are positive, so the market cap never divides by zero. */
  predicate WellFormed(s: Snapshot) {
    s.revenue >= 0.0 && s.revenuePrevYear >= 0.0 && s.costOfRevenue >= 0.0 &&
    s.salesAndMarketing >= 0.0 && s.researchAndDevelopment >= 0.0 &&
    s.generalAndAdmin >= 0.0 && s.otherExpenses >= 0.0 &&
    s.psRatio >= 0.0 && s.peRatio >= 0.0 &&
    s.sharesOutstanding > 0.0 && s.stockPrice > 0.0
  }

  /** Total operating expenses, EBITDA and market capitalisation. */
  datatype Baseline = Baseline(totalExpenses: real, ebitda: real, marketCap: real)

  /** The baseline effect's three figures. Its contract states how they
      reconcile with the snapshot: operating expenses split into S&M and the
      "R&D + G&A + Other" line of the detailed financials, revenue splits into
      cost of revenue, operating expenses and EBITDA, and the market cap is
      what the share price is a per-share fraction of. */
  function ComputeBaseline(s: Snapshot): (b: Baseline)
    ensures b.totalExpenses - s.salesAndMarketing
         == s.researchAndDevelopment + s.generalAndAdmin + s.otherExpenses
    ensures s.costOfRevenue + b.totalExpenses + b.ebitda == s.revenue
    ensures b.marketCap == s.stockPrice * s.sharesOutstanding
    ensures s.sharesOutstanding != 0.0 ==> b.marketCap / s.sharesOutstanding == s.stockPrice
    ensures WellFormed(s) ==> b.marketCap > 0.0 && b.totalExpenses >= s.salesAndMarketing
  {
    var totalExpenses := s.salesAndMarketing + s.researchAndDevelopment
                         + s.generalAndAdmin + s.otherExpenses;
    Baseline(totalExpenses,
             s.revenue - s.costOfRevenue - totalExpenses,
             s.stockPrice * s.sharesOutstanding)
  }

  /** The Commercial Ratio the company runs at today: revenue growth over S&M spend. */
  function CurrentRatio(s: Snapshot): (cr: real)
    requires s.salesAndMarketing != 0.0
    ensures cr * s.salesAndMarketing == s.revenueGrowth
  {
    s.revenueGrowth / s.salesAndMarketing
  }

  /** The baked-in snapshot is well formed and its baseline is 315.29 / 2.29 / 2690. */
  lemma InitialBaseline()
    ensures WellFormed(Initial)
    ensures ComputeBaseline(Initial) == Baseline(315.29, 2.29, 2690.0)
  {
  }

  /** The baked-in snapshot's current ratio is 0.5117…, which the header and the
      ratio card print as "0.51" (it rounds to 0.51 at two decimals). */
  lemma InitialCurrentRatio()
    ensures 0.505 <= CurrentRatio(Initial) < 0.515
  {
  }
}

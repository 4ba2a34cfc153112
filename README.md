# Commercial Ratio Analyzer — projection engine

The Commercial Ratio Analyzer is a dashboard widget. It shows the Commercial
Ratio (CR): revenue growth divided by sales & marketing (S&M) spend. It then
projects how a target CR would change market capitalisation, EPS and EBITDA for
one fixed company snapshot. This project models the arithmetic core of that
widget over exact reals:

- `financials.dfy` (module `Financials`): the snapshot record, the baseline
  figures derived from it (total operating expenses, EBITDA, market cap) and
  the current CR.
- `engine.dfy` (module `Engine`): the `calculatedValues` record and the two
  effects that overwrite it. These are the baseline effect and the projection
  effect in its revenue-growth and cost-reduction modes, written as pure record
  updates. The lemmas cover linearity, monotonicity, the fixed point at the
  current ratio, idempotence and the worked example.
- `zones.dfy` (module `Zones`): the performance-zone classifier `getCRZone`,
  the inline zone conditional of the functional-impact tab, and the benchmark
  quartile classifier.
- `display.dfy` (module `Display`): derived display figures. These are the
  gauge needle position, the projected stock price, the current and projected
  columns of the detailed financials, and the current benchmark position.
- `analyzer.dfy` (module `Analyzer`): the component's mutable state as a class.
  It holds the target ratio, the scenario toggle and the record. Its methods
  are the mount sequence, the two effects and the two input handlers. Each
  method is specified by the pure functions of `Engine`.

The model departs from the code in two places:

- In cost-reduction mode the code divides by the target ratio with no guard,
  and the slider can reach 0. The model rejects that input with
  `Err(DivisionByZero)`. The component keeps the chosen ratio and scenario and
  leaves the record unchanged, but marks the projection as undefined, where the
  code produces infinities.
- The projection needs a non-zero market cap and share count, so these are
  preconditions. Every well-formed snapshot meets them once the baseline
  effect has run (`Financials.WellFormed`).

## Model

| member | source | states |
|---|---|---|
| `Financials.ComputeBaseline` | commercial-ratio-analyzer.tsx:45-52 | Market cap is share price times share count, and divided by the share count it gives the share price back. Total operating expenses minus S&M equals R&D + G&A + other. Revenue equals cost of revenue + operating expenses + EBITDA. For a well-formed snapshot the market cap is positive and expenses are at least S&M. |
| `Financials.CurrentRatio` | commercial-ratio-analyzer.tsx:643 | The current CR times S&M spend gives back the revenue growth. |
| `Financials.InitialBaseline` | commercial-ratio-analyzer.tsx:5-52 | The baked-in snapshot is well formed. Its baseline is 315.29 total expenses, 2.29 EBITDA and a 2690 market cap. |
| `Financials.InitialCurrentRatio` | commercial-ratio-analyzer.tsx:121-123 | The snapshot's current CR lies in [0.505, 0.515), so the hard-coded "0.51" is its two-decimal rounding. |
| `Engine.WithBaseline` | commercial-ratio-analyzer.tsx:54-59 | The baseline effect sets the three baseline fields to the snapshot's baseline. Undoing those three fields gives back the previous record, so nothing else changes. |
| `Engine.ProjectRevenue` | commercial-ratio-analyzer.tsx:64-71 | The new growth is the target ratio times S&M, so divided by a non-zero S&M it is the target ratio. The extra revenue is new growth minus current growth, valued at the P/S multiple. The new market cap is the old one plus the impact. The market cap times (1 + percentage/100) is the new market cap. The EPS impact times the share count is the extra revenue. |
| `Engine.ProjectCost` | commercial-ratio-analyzer.tsx:82-89 | Fails exactly when the ratio is 0. Otherwise the new S&M times the ratio is the revenue growth, and the new S&M plus the saving is the current S&M. The saving is valued at the P/E multiple. The market-cap, percentage and EPS relations are the same as in revenue mode. |
| `Engine.Update` | commercial-ratio-analyzer.tsx:63-101 | Fails exactly in cost mode at ratio 0. On success the selected mode's six fields hold that mode's projection (`ProjectRevenue` or `ProjectCost`) at the record's own market cap. Undoing those six fields gives back the previous record, so the other mode's fields and the baseline are untouched. |
| `Engine.UpdateGrowsMarketCap` | commercial-ratio-analyzer.tsx:68-70 | In both modes the new market cap minus the record's market cap is the impact. The record's market cap grown by the projected percentage is the new market cap. The cost branch repeats these formulas at lines 86-88. |
| `Engine.SettledHoldsProjection` | commercial-ratio-analyzer.tsx:63-101 | A record on which re-running the projection changes nothing holds, in the selected mode's six fields, exactly that mode's projection at the ratio. |
| `Engine.RevenueAffine` | commercial-ratio-analyzer.tsx:66-67 | The difference in extra revenue between two ratios is the ratio difference times the S&M spend. |
| `Engine.RevenueStrictlyIncreasing` | commercial-ratio-analyzer.tsx:66-68 | With positive S&M, a larger ratio gives strictly more extra revenue. With a positive P/S it also gives a strictly larger market-cap impact. |
| `Engine.CostStrictlyIncreasing` | commercial-ratio-analyzer.tsx:84-86 | With positive growth and 0 < r1 < r2, both projections succeed. The saving at r1 is strictly smaller than at r2, and so is the market-cap impact when P/E is positive. |
| `Engine.FixedPointAtCurrentRatio` | commercial-ratio-analyzer.tsx:63-101 | At target = current CR, either mode gives zero extra revenue or saving, zero impact, an unchanged market cap, 0% growth and zero EPS impact. The new growth or new S&M equals today's. |
| `Engine.UpdateIdempotent` | commercial-ratio-analyzer.tsx:63-101 | The projection keeps the market cap it reads. Re-running it on its own output gives the same record. |
| `Engine.BaselineThenUpdate` | commercial-ratio-analyzer.tsx:45-101 | When the record already holds the baseline market cap, running the baseline effect and then the projection gives the same result as the projection followed by the baseline effect. |
| `Engine.RatioForExtraRevenue` | commercial-ratio-analyzer.tsx:66-67 | Target ratio (extra + current growth) / S&M yields exactly the given extra revenue. This is the inverse of the revenue formula. |
| `Engine.RevenueImpactBounded` | commercial-ratio-analyzer.tsx:66-68 | With positive S&M and P/S, every ratio within the slider bounds projects an impact between the impacts at ratio 0 and ratio 2. |
| `Engine.RevenueImpactRange` | commercial-ratio-analyzer.tsx:66-68 | With positive S&M and P/S, some slider ratio reaches a market-cap impact exactly when the impact lies between the impacts at ratio 0 and ratio 2. |
| `Engine.RatioForImpact` | commercial-ratio-analyzer.tsx:66-68 | The inverted ratio's extra revenue, valued at the P/S multiple, is the given impact. |
| `Engine.RatioForImpactInRange` | commercial-ratio-analyzer.tsx:66-68 | With positive S&M and P/S, an impact between the impacts at the slider's ends is reached by the inverted ratio, and that ratio lies on the slider. |
| `Engine.CostSavingRange` | commercial-ratio-analyzer.tsx:84-85 | With positive revenue growth, some positive target ratio reaches a saving exactly when the saving is below today's S&M spend. |
| `Engine.CostSavingBelowSpend` | commercial-ratio-analyzer.tsx:84-85 | With positive growth and a positive ratio, cost mode succeeds and the saving is below today's S&M spend. |
| `Engine.RatioForSaving` | commercial-ratio-analyzer.tsx:84-85 | With positive growth, a saving below today's spend is produced by the positive ratio growth / (S&M − saving). |
| `Engine.InitialRevenueScenario` | commercial-ratio-analyzer.tsx:64-71 | For the snapshot at ratio 1.00 in revenue mode: new growth 169.19, extra revenue 82.61, impact 521.2691, new market cap 3211.2691, growth 19.38% to two decimals, EPS impact 0.8261. |
| `Engine.SliderMinimumHasNoSpend` | commercial-ratio-analyzer.tsx:244-250 | The slider's minimum, 0, is in its range. At that ratio no S&M spend realises a non-zero revenue growth, and cost mode yields `Err(DivisionByZero)` for every record. |
| `Zones.GetCRZone` | commercial-ratio-analyzer.tsx:104-108 | Unsustainable exactly below 0.75. Balanced exactly on [0.75, 1.25], both ends included. Underinvesting exactly above 1.25. |
| `Zones.TargetStateZone` | commercial-ratio-analyzer.tsx:516-520 | The functional-impact tab's conditional gives the same zone as `getCRZone` for every ratio. The marketing copy at lines 554-558 uses the same conditional. |
| `Zones.ZoneMonotone` | commercial-ratio-analyzer.tsx:104-108 | A larger ratio never lands in a lower zone. |
| `Zones.ZoneBoundaries` | commercial-ratio-analyzer.tsx:104-108 | 0.7499 is unsustainable, 0.75 and 1.25 are balanced, 1.2501 is underinvesting. |
| `Zones.QuartileOf` | commercial-ratio-analyzer.tsx:768-771 | Bottom exactly below 0.40, second exactly on [0.40, 0.85), third exactly on [0.85, 1.20), top exactly from 1.20. |
| `Zones.QuartileMonotone` | commercial-ratio-analyzer.tsx:768-771 | The quartile rank is non-decreasing in the ratio. |
| `Zones.QuartileBoundaries` | commercial-ratio-analyzer.tsx:768-771 | 0.39 is bottom, 0.40 and 0.84 are second, 0.85 and 1.19 are third, 1.20 is top. |
| `Zones.StatedCurrentQuartileDisagrees` | commercial-ratio-analyzer.tsx:764 | The "bottom quartile" stated for CR 0.51 is not the classifier's band for 0.51. Nor is it the band for any current ratio in [0.505, 0.515), which is the second quartile. |
| `Display.NeedlePosition` | commercial-ratio-analyzer.tsx:313 | The needle lies in [0, 100]. On the slider range [0, 2] it is 50 × ratio. At or below 0 it is 0, and at or above 2 it is 100. |
| `Display.NeedleMonotone` | commercial-ratio-analyzer.tsx:313 | The needle never moves left as the ratio grows. |
| `Display.ProjectedStockPrice` | commercial-ratio-analyzer.tsx:215 | The projected price times the share count is the baseline market cap grown by the projected percentage. With a positive share price, the projection is above today's price exactly when the percentage is positive. It is at least today's price exactly when the card colours the percentage green (line 217). The same formula appears at line 414. |
| `Display.StockPriceMatchesNewMarketCap` | commercial-ratio-analyzer.tsx:215 | When the record holds the baseline market cap, after a successful projection in either mode the projected price times the share count is the new market cap. The same formula appears at line 414. |
| `Display.StockPriceIncreasing` | commercial-ratio-analyzer.tsx:215 | In revenue mode with positive S&M and P/S, a larger target ratio projects a strictly higher share price. |
| `Display.ProjectedEbitda` | commercial-ratio-analyzer.tsx:721-723 | When the record holds the baseline EBITDA, the projected EBITDA is the EBITDA of the projected statement. In revenue mode revenue grows by the extra revenue. In cost mode operating expenses drop by the saving. |
| `Display.CurrentColumn` | commercial-ratio-analyzer.tsx:663-719 | Revenue, cost of revenue and S&M are the snapshot's figures. Gross margin is revenue less cost of revenue. EBITDA is the record's. The "R&D + G&A + Other" row is total operating expenses minus S&M. The column adds up whenever the record holds the baseline EBITDA. |
| `Display.ProjectedColumn` | commercial-ratio-analyzer.tsx:663-729 | Cost of revenue and the other operating lines are unchanged. Revenue and gross margin move by the extra revenue in revenue mode and by 0 in cost mode. S&M becomes the new spend in cost mode only. EBITDA moves by the extra revenue or the saving, as the change column shows. |
| `Display.ColumnsAddUp` | commercial-ratio-analyzer.tsx:663-723 | After the baseline and a successful projection, both table columns add up. Gross margin is revenue minus cost of revenue, and EBITDA is gross margin minus S&M minus the other operating lines. So the EBITDA shortcut at lines 721-723 agrees with the projected revenue and S&M rows. |
| `Display.CurrentPositionQuartile` | commercial-ratio-analyzer.tsx:762-771 | The quartile the "Current Position" text should state: the tsx:768-771 breakpoints applied to the current CR. With positive S&M, each of the four quartiles holds exactly when growth lies in its band of the S&M-scaled breakpoints: below 0.40 × S&M, from 0.40 × S&M up to 0.85 × S&M, from 0.85 × S&M up to 1.20 × S&M, and from 1.20 × S&M on. |
| `Display.InitialCurrentPosition` | commercial-ratio-analyzer.tsx:762-771 | `CurrentPositionQuartile` of the snapshot is the second quartile. The displayed 0.51, chosen as a target, falls in the same quartile. |
| `Analyzer.CommercialRatioAnalyzer.constructor` | commercial-ratio-analyzer.tsx:20-101 | Mounting starts at target 0.51 in revenue mode with an all-zero record. The baseline effect and then the projection effect run. The resulting state is valid and its projection is defined. |
| `Analyzer.CommercialRatioAnalyzer.RefreshBaseline` | commercial-ratio-analyzer.tsx:45-60 | The new record is `WithBaseline` of the old one. |
| `Analyzer.RevenueEffectIsUpdate` | commercial-ratio-analyzer.tsx:64-81 | The revenue branch's field-by-field arithmetic and spread update give exactly `Update` in revenue mode. |
| `Analyzer.CostEffectIsUpdate` | commercial-ratio-analyzer.tsx:84-99 | For a non-zero ratio, the cost branch's field-by-field arithmetic and spread update give exactly `Update` in cost mode. |
| `Analyzer.CommercialRatioAnalyzer.Recompute` | commercial-ratio-analyzer.tsx:63-101 | Ends in a valid state: the projection is marked defined exactly when it succeeds, and when defined the record is settled at the current ratio and scenario. Succeeds exactly when `Update` does, and the new record is `Update` of the old one. On failure it reports `DivisionByZero`, keeps the record and marks the projection undefined. |
| `Analyzer.CommercialRatioAnalyzer.SetCommercialRatio` | commercial-ratio-analyzer.tsx:244-250 | Takes a ratio within the slider bounds, stores it, keeps the scenario, and re-projects as `Recompute` does, including marking the projection undefined on failure. |
| `Analyzer.CommercialRatioAnalyzer.SetImpactType` | commercial-ratio-analyzer.tsx:265-276 | Stores the chosen scenario, keeps the ratio, and re-projects as `Recompute` does, including marking the projection undefined on failure. |

## Left out

- Rendering, styling and narrative text are presentation with no logic
  beyond choosing strings. This covers the JSX markup, the Tailwind class
  table `zoneClasses`, the tab state `activeTab` and the copy.
- `toFixed` rounding, `Math.abs` on the headline cards and the signs printed
  in front of values are formatting. Some displays print "+" before a negative
  value, which is cosmetic.
- Some display percentages are not modelled because they are one-off
  divisions shown as text:
  - EPS relative to EBITDA per share (line 194).
  - EBITDA impact relative to EBITDA (lines 206-208).
  - Saving and extra revenue relative to spend and growth (lines 357, 368).
  - Year-on-year growth and S&M share of revenue (lines 634, 639).
- React effect scheduling is not modelled. Effects re-run when their
  dependencies change. On the first render the projection effect briefly sees
  a market cap of 0 and divides by it. The model runs the mount sequence as
  the baseline effect followed by the projection, and requires a non-zero
  market cap.
- IEEE-754 floating point (rounding, Infinity, NaN) is not modelled. All
  quantities are exact reals.
- `parseFloat` on the slider's string value and the slider's 0.01 step are
  not modelled. The target ratio is any real in [0, 2].
- `Analyzer.CommercialRatioAnalyzer.Recompute`: in cost mode at ratio 0 the
  code stores infinite figures. The method instead fails, keeps the previous
  record and clears `projectionDefined` so that the figures read as undefined
  (see Findings).

## Findings

| source | as written | input that shows it | evidently intended | confidence | as-written member | corrected member |
|---|---|---|---|---|---|---|
| commercial-ratio-analyzer.tsx:84 | The required S&M spend is revenue growth divided by the target ratio, with no guard. The slider's minimum is 0 (line 246). | Cost-reduction mode, slider at 0.00: no spend realises a ratio of 0 for growth 86.58. | Reject a zero ratio in cost mode, or show it as undefined. | not executed; high | `Engine.SliderMinimumHasNoSpend` | `Engine.ProjectCost` |
| commercial-ratio-analyzer.tsx:764 | The current position text says a CR of 0.51 is in the "bottom quartile". | CR 0.51, or the exact 86.58 / 169.19: the breakpoints at lines 768-771 (0.40, 0.85, 1.20) put it in the second quartile. | State the quartile the benchmark breakpoints give for the current CR: second. | not executed; medium | `Zones.StatedCurrentQuartileDisagrees` | `Display.InitialCurrentPosition` |

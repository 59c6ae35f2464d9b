# ntropii-xyz dashboard core, modelled in Dafny

The dashboard reads protocols, pools, loans and their events from a mock API layer
(`lib/api/services.ts` over the fixtures and generators of `lib/api/mocks.ts`), then draws
them in a handful of protocol components. This project models that core:

- **Services**: filtering by the optional query filters, newest-first ordering of events,
  page arithmetic (`page || 1`, `pageSize || 10`, `Math.ceil`, `Array.slice`), and lookups by
  id. The fixture store is an immutable value passed to every operation, so no operation
  can change the fixtures. Event listings copy the filtered events into a fresh array and
  sort it in place with a stable insertion sort. That sort is proved equal to a sort
  function, which is itself proved sorted, a permutation and stable.
- **Mocks**: the joined lookups (`getProtocolWithPools`, `getPoolWithLoans`,
  `getPoolExtended`), the dashboard summary, and the three time-series generators (capital
  flows, pool capacity, pool velocity). Each `Math.random()` draw is an input, supplied as
  one record per period in the order the source draws them. Dates are day numbers, and
  "today" is a parameter.
- **Charts**: the `transformData` mapping of the three chart components, the thinning of
  long series to at most 30 points, the currency formatter, the tooltips and the legend
  labels.
- **Headers**: the pool details card, the canvas subject and the canvas banner, covering
  the net-change trend, the status, protocol, loan, NAV, asset and default badges, and the
  two micro charts.
  - The bar micro chart of the details card shows monthly net flows over the last six
    months.
  - The sparkline of the canvas subject shows monthly closing positions.
  - The banner's micro chart (`components/protocol/canvas-content-banner.tsx:31-115`) is
    the same code as the subject's. Its badges (lines 128-250) repeat those of
    `components/protocol/canvas-content-subject.tsx:129-232`. Both are modelled once, by
    the `MicroCharts` and `Cards` members below.
- **Events table**: address shortening, the badge variant of an event type and the
  human-readable event label.

JavaScript semantics are written out where they matter:

- `x || d` on numbers: 0 and absence both fall back.
- `Array.slice` with negative and out-of-range bounds.
- `Math.round` is `floor(x + 0.5)`.
- `Math.ceil` of a quotient.
- `substring(0, 7)` on a short string.
- The first-insertion order of a `Map`'s keys.
- The `\b\w` regular expression, with ASCII case mapping.

A negative `page` therefore selects a window counted from the end, exactly as the source's
`slice` does.

## Model

| member | source | states |
|---|---|---|
| Seqs.OrDefault | lib/api/services.ts:67-68 | `v \|\| d`: the value when present and non-zero, otherwise the default |
| Seqs.CeilDiv | lib/api/services.ts:70 | the result is the ceiling of the real quotient a/b |
| Seqs.JsSlice | lib/api/services.ts:72 | `Array.slice`: negative bounds count from the end, bounds are clamped to the length, and crossed bounds give the empty list |
| Seqs.Find | lib/api/services.ts:169 | `Array.find`: None exactly when no element matches; otherwise the first matching element |
| Seqs.FilterStage | lib/api/services.ts:57-65 | applying a filter stage only when its filter is given equals one filter by the conjunction of the stages |
| Seqs.Round | lib/api/mocks.ts:660-663 | `Math.round`: the result is within one half of x, and halves round up |
| EventSort.SortNewestSortsAndPermutes | lib/api/services.ts:114-116 | sorting by descending timestamp yields a newest-first order and a permutation of the input |
| EventSort.SortNewestIsStable | lib/api/services.ts:114-116 | events with equal timestamps keep their relative order |
| EventSort.SortNewestFirst | lib/api/services.ts:114-116 | the in-place array sort leaves the array equal to the specification sort of its old contents |
| Paging.Paginate | lib/api/services.ts:67-82 | page defaults to 1 and size to 10 (on 0 or absence); totalItems is the number of matches; data is the page's slice |
| Paging.PageSlice | lib/api/services.ts:71-72 | for page and size at least 1, the page is the window starting at (page-1)*size, cut at the end of the list |
| Paging.TotalPagesIsCeiling | lib/api/services.ts:70 | totalPages is the smallest count of pages that holds every item |
| Paging.PagesCoverAll | lib/api/services.ts:67-72 | concatenating pages 1..totalPages gives back the whole filtered list |
| Paging.PastTheEndIsEmpty | lib/api/services.ts:71-72 | a page after the last one is empty |
| Paging.PageWithin | lib/api/services.ts:72 | every item of a page is one of the listed items |
| Services.SortedCopy | lib/api/services.ts:114-116 | `[...events].sort(...)` returns a newest-first permutation of its input and leaves the input alone |
| Services.FilterPools | lib/api/services.ts:55-65 | the staged filters by protocol, status and asset class keep exactly the pools matching every given filter, in order |
| Services.GetPools | lib/api/services.ts:52-83 | the response is the requested page of the matching pools; every listed pool is a fixture matching the filters |
| Services.FilterLoans | lib/api/services.ts:140-147 | keeps exactly the loans of the given pool and status, in order |
| Services.GetLoans | lib/api/services.ts:137-165 | the response is the requested page of the matching loans; every listed loan is a fixture matching the filters |
| Services.GetLoan | lib/api/services.ts:167-170 | None exactly when no loan has the id; otherwise the first loan with that id |
| Services.FilterPoolEvents | lib/api/services.ts:97-111 | keeps exactly the pool's events of the given type inside the given time bounds |
| Services.GetPoolEvents | lib/api/services.ts:91-134 | the page is cut from the newest-first sort of the matching events; every listed event is a matching fixture |
| Services.FilterLoanEvents | lib/api/services.ts:179-184 | keeps exactly the loan's events of the given type |
| Services.GetLoanEvents | lib/api/services.ts:173-206 | the page is cut from the newest-first sort of the matching loan events; every listed event is a matching fixture |
| Mocks.FindProtocol | lib/api/mocks.ts:526 | `find` on the protocols: None exactly when no id matches, and the first protocol with the id otherwise |
| Mocks.FindPool | lib/api/mocks.ts:535 | `find` on the pools: None exactly when no id matches, and the first pool with the id otherwise |
| Mocks.GetProtocolWithPools | lib/api/mocks.ts:525-531 | None exactly when no protocol has the id; otherwise the first protocol with that id, with the pools whose protocolId is the id |
| Mocks.GetPoolWithLoans | lib/api/mocks.ts:534-540 | None exactly when no pool has the id; otherwise the first pool with that id, with the loans whose poolId is the id |
| Mocks.ApplyPatch | lib/api/mocks.ts:725-726 | `{ ...pool, ...extended }`: each of the pool's fields, named one by one, takes the extension's value when the extension sets it and keeps the pool's otherwise; an empty extension changes nothing |
| Mocks.GetPoolExtended | lib/api/mocks.ts:721-727 | None exactly when no pool has the id; otherwise the first pool with the id, patched by its extension (`|| {}` when it has none, which leaves it unchanged) |
| Mocks.BaseTvl | lib/api/mocks.ts:621-622 | for the first pool with the id, its TVL when non-zero and 50,000,000 when it is 0; 50,000,000 for an unknown pool; never 0 |
| Mocks.StartUtilization | lib/api/mocks.ts:740 | 70 for an unknown pool; for the first pool with the id, its utilisation when non-zero and 70 when it is 0; never 0 |
| Mocks.PoolName | lib/api/mocks.ts:804 | the name of the first pool with the id when it is non-empty, otherwise "Unknown Pool"; never empty |
| Mocks.AssetSymbol | lib/api/mocks.ts:805 | the extension's asset symbol when the extension has an asset with a non-empty symbol, otherwise "USDC"; never empty |
| Mocks.Briefs | lib/api/mocks.ts:515-521 | one summary entry per protocol, in order, copying its id, name, TVL, APY and pool count |
| Mocks.Summarize | lib/api/mocks.ts:510-522 | the protocol list is the briefs; the average APY times the protocol count is the APY sum, and it is undefined with no protocols |
| Mocks.AvgApyBetween | lib/api/mocks.ts:513-514 | the average APY lies between the least and the greatest protocol APY |
| Mocks.MockSummaryTotals | lib/api/mocks.ts:510-522 | over the fixtures, in exact reals (no floating-point rounding): total TVL 640,000,000, 98 active loans, average APY 9.4, four protocols in fixture order |
| Series.StepDays | lib/api/mocks.ts:643-645 | 1 day exactly for daily, 30 exactly for monthly, 7 otherwise |
| Series.MakeWindow | lib/api/mocks.ts:617-647 | defaults for granularity, limit, end and start (end - 90 days); the count is 0 exactly for an empty window or a limit <= 0, at most the limit, and stops at the first step past the end |
| Series.DatesAscend | lib/api/mocks.ts:650-652 | the generated dates strictly increase |
| Series.WeeklyFourPoints | lib/api/mocks.ts:641-652 | a 28-day weekly window yields exactly four points, one week apart |
| Series.PageInfo | lib/api/mocks.ts:712-716 | total is the number of points, limit is the window's limit, and offset is `offset \|\| 0` |
| CapitalFlowData.PeriodAmounts | lib/api/mocks.ts:655-668 | inflows = deposits + repayments, outflows = withdrawals + drawdowns + defaults, net = inflows - outflows; a default only when the roll exceeds 0.95 |
| CapitalFlowData.AmountShares | lib/api/mocks.ts:655-663 | for draws in [0, 1), each amount lies within its stated share band of the TVL (rounded) |
| CapitalFlowData.NetChangeIsNetFlow | lib/api/mocks.ts:691-710 | total inflows minus total outflows equals the sum of the net flows |
| CapitalFlowData.FlowRows | lib/api/mocks.ts:650-689 | one row per window date from its draw; each row's cumulative position is the base TVL plus the net flows so far |
| CapitalFlowData.GenerateCapitalFlowData | lib/api/mocks.ts:613-717 | the summary totals are sums of the rows; net change = inflows - outflows = final position - base TVL |
| CapacityData.Drift | lib/api/mocks.ts:778-782 | balances after a period are never negative; each is `balance + balance * (draw * w - w/2)` (w = 0.06 outstanding, 0.08 idle) while that is non-negative, and 0 when it would be negative |
| CapacityData.DriftBand | lib/api/mocks.ts:778-781 | for a draw in [0, 1), the outstanding balance moves by at most 3% per period |
| CapacityData.IdleDriftBand | lib/api/mocks.ts:779-782 | for a draw in [0, 1), idle cash moves by at most 4% per period |
| CapacityData.Opening | lib/api/mocks.ts:770-771 | the opening outstanding balance and idle cash add up to the TVL |
| CapacityData.CapNonZero | lib/api/mocks.ts:743 | the liquidity cap is non-zero, and for a positive TVL it lies between 120% and 150% of it |
| CapacityData.PointOf | lib/api/mocks.ts:784-797 | a point holds the balances it was built from, and is coherent: TVL = outstanding + idle, available = cap - TVL, utilisation = outstanding / cap |
| CapacityData.CapacityRows | lib/api/mocks.ts:773-798 | one coherent point per window date, carrying the balances evolved through the draws so far |
| CapacityData.GeneratePoolCapacityData | lib/api/mocks.ts:730-821 | every point is coherent; `current` fails exactly when there are no points, otherwise it repeats the last point |
| VelocityData.PeriodVelocity | lib/api/mocks.ts:863-882 | the period ends on its date and spans one step; with draws in [0, 1) it has 0-3 loans over 1-5 days and 0-7 redemptions over 7-21 days |
| VelocityData.WeightedAverage | lib/api/mocks.ts:911-912 | for a positive count, average times count equals the sum; otherwise 0 |
| VelocityData.FundDaysBounds | lib/api/mocks.ts:884-887 | the count-weighted funding days lie between lo and hi times the loan count |
| VelocityData.ProcessDaysBounds | lib/api/mocks.ts:884-888 | the count-weighted processing days lie between lo and hi times the redemption count |
| VelocityData.TotalsBounded | lib/api/mocks.ts:874-886 | total loans are at most 3 per period and total redemptions at most 7 per period |
| VelocityData.SummaryAveragesInRange | lib/api/mocks.ts:911-912 | the summary averages stay within the per-period ranges: 1-5 days to fund, 7-21 to process |
| VelocityData.VelocityRows | lib/api/mocks.ts:863-909 | one point per window date from its draw; the running totals and weighted sums are those of the points |
| VelocityData.GeneratePoolVelocityData | lib/api/mocks.ts:823-939 | the summary totals are sums of the points; the averages are count-weighted (0 with no count); medians are 0.9 and 0.95 of the averages |
| ChartCommon.EveryKthShape | components/protocol/capital-flow-chart.tsx:126 | keeping indices i with i % k == 0 keeps exactly the elements at 0, k, 2k, ... |
| ChartCommon.Stride | components/protocol/capital-flow-chart.tsx:126 | `Math.ceil(n / 30)`: for a series longer than 30, at least 2, 30 strides cover the series and 30 strides of one less do not |
| ChartCommon.Downsample | components/protocol/capital-flow-chart.tsx:124-127 | a series of at most 30 points is kept whole; a longer one keeps exactly the points at multiples of the stride, in order: at most 30, always the first, and as many as there are multiples below the length |
| ChartCommon.FormatCurrency | components/protocol/capital-flow-chart.tsx:28-36 | suffix M exactly from 1,000,000, K exactly from 1,000 (both on the absolute value); the scaled value times the unit gives back the value |
| ChartCommon.LegendLabel | components/protocol/capital-flow-chart.tsx:220 | `labels[key] \|\| key`: a non-empty label when there is one; the key for an unknown key and for an empty label |
| CapitalFlowChart.TransformData | components/protocol/capital-flow-chart.tsx:53-63 | one chart point per row; inflows as given, outflows negated (never positive for non-negative rows), position as given |
| CapitalFlowChart.DisplayData | components/protocol/capital-flow-chart.tsx:124-127 | at most 30 points, each the transform of a stride-multiple row, including the first, and one per stride multiple below the length |
| CapitalFlowChart.Line | components/protocol/capital-flow-chart.tsx:80-99 | a line is negative exactly for a negative value; it shows the sign and the formatted absolute value |
| CapitalFlowChart.Tooltip | components/protocol/capital-flow-chart.tsx:74-99 | no tooltip exactly when inactive or the payload is empty; otherwise one line per entry other than netPosition, in order |
| CapitalFlowChart.LegendLabel | components/protocol/capital-flow-chart.tsx:212-220 | each of the five series keys gets its label ("Net Position" for the position); any other key shows itself |
| CapacityChart.TransformData | components/protocol/pool-capacity-chart.tsx:56-65 | one chart point per row, copying cap, outstanding, idle and utilisation |
| CapacityChart.DisplayData | components/protocol/pool-capacity-chart.tsx:142-145 | at most 30 points, each the transform of a stride-multiple row, including the first, and one per stride multiple below the length |
| CapacityChart.MaxLiquidityCap | components/protocol/pool-capacity-chart.tsx:148-151 | 0 for no points; otherwise a cap that occurs and bounds every displayed cap |
| CapacityChart.Tooltip | components/protocol/pool-capacity-chart.tsx:76-79 | no tooltip exactly when inactive or empty; otherwise a utilisation entry exactly when the payload has one, and every other entry in order |
| CapacityChart.TooltipPartition | components/protocol/pool-capacity-chart.tsx:78-79 | every payload entry is either an amount or the utilisation, never both and never dropped |
| CapacityChart.LegendLabel | components/protocol/pool-capacity-chart.tsx:262-270 | the four series keys get their labels; any other key shows itself |
| VelocityChart.TransformData | components/protocol/pool-velocity-chart.tsx:44-53 | one chart point per row, dated by the period end, copying both averages and both counts |
| VelocityChart.DisplayData | components/protocol/pool-velocity-chart.tsx:124-127 | at most 30 points, each the transform of a stride-multiple row, including the first, and one per stride multiple below the length |
| VelocityChart.LegendLabel | components/protocol/pool-velocity-chart.tsx:215-221 | the two series keys get their labels; any other key shows itself |
| Text.Capitalize | components/protocol/pool-details-card.tsx:141 | only the first character changes, and it is upper-cased; the length is kept |
| Text.Upper | components/protocol/pool-details-card.tsx:147 | a lower-case letter becomes its capital; anything else is kept |
| MicroCharts.MonthKey | components/protocol/pool-details-card.tsx:46 | `substring(0, 7)`: the first seven characters, or the whole of a shorter date |
| MicroCharts.Months | components/protocol/pool-details-card.tsx:45-49 | the Map's keys: each month once, in order of first appearance |
| MicroCharts.MonthsCover | components/protocol/pool-details-card.tsx:45-49 | a month is a key exactly when some row falls in it |
| MicroCharts.MonthsFirstSeen | components/protocol/pool-details-card.tsx:45-49 | the keys keep the order of first appearance: for an earlier key, some row of its month comes before every row of a later key's month |
| MicroCharts.MonthTotalsConserve | components/protocol/pool-details-card.tsx:45-49 | the monthly totals add up to the net flow of all rows |
| MicroCharts.Recent | components/protocol/pool-details-card.tsx:51-55 | `slice(-6)` and push: the last min(6, n) entries, in order |
| MicroCharts.MonthTotals | components/protocol/pool-details-card.tsx:42-49 | the month keys in first-seen order, with each month's net-flow total |
| MicroCharts.MonthlyNetFlows | components/protocol/pool-details-card.tsx:42-55 | one entry per month among the last six, each holding that month's net-flow total |
| MicroCharts.CardCurrency | components/protocol/pool-details-card.tsx:14-25 | suffix B, M or K exactly from 1e9, 1e6 or 1e3 (on the signed value); the scaled value times the unit gives back the value |
| MicroCharts.MaxAbs | components/protocol/pool-details-card.tsx:58-61 | at least 1 and at least every magnitude; it is one of them or 1 |
| MicroCharts.BarHeight | components/protocol/pool-details-card.tsx:66-67 | `Math.max(\|v\| / maxAbs * 32, 4)`: 4 to 32 px, never shorter than proportional to the magnitude and exactly proportional above the 4 px floor; the largest magnitude is 32 px |
| MicroCharts.BarHeightMonotone | components/protocol/pool-details-card.tsx:66-67 | a month of larger magnitude never gets a shorter bar |
| MicroCharts.Bars | components/protocol/pool-details-card.tsx:63-82 | one bar per month, in order, as tall as BarHeight against the largest magnitude; a larger magnitude never has a shorter bar; green exactly for a non-negative net flow |
| MicroCharts.BarsOver | components/protocol/pool-details-card.tsx:58-82 | the bars of the card's months are named after them, sized against the largest of their net flows, coloured by sign and ordered by magnitude |
| MicroCharts.CardMicroChart | components/protocol/pool-details-card.tsx:27-83 | six placeholders exactly for no rows; otherwise 1-6 bars for the latest months, each as tall as BarHeight makes its month's net flow against the largest of them, taller for a larger magnitude, and green exactly when the flow is not negative |
| MicroCharts.MonthLastIsLatest | components/protocol/canvas-content-subject.tsx:44-47 | the value kept for a month is the position of the last row in that month |
| MicroCharts.LatestPositions | components/protocol/canvas-content-subject.tsx:42-47 | the month keys in first-seen order, each with the position of its latest row |
| MicroCharts.MonthlyPositions | components/protocol/canvas-content-subject.tsx:41-53 | one entry per month among the last six, each holding that month's last position |
| MicroCharts.MinOf | components/protocol/canvas-content-subject.tsx:64 | `Math.min`: attained and a lower bound |
| MicroCharts.MaxOf | components/protocol/canvas-content-subject.tsx:65 | `Math.max`: attained and an upper bound |
| MicroCharts.Spread | components/protocol/canvas-content-subject.tsx:66 | `max - min \|\| 1`: always positive, and the spread itself when positive |
| MicroCharts.XOrder | components/protocol/canvas-content-subject.tsx:73 | x runs from 2 to 78, strictly increasing with the index |
| MicroCharts.YWithin | components/protocol/canvas-content-subject.tsx:74 | y stays within the 2-30 px drawing band |
| MicroCharts.YOrder | components/protocol/canvas-content-subject.tsx:74 | a value is drawn strictly higher than another exactly when it is larger |
| MicroCharts.PlacesPlaced | components/protocol/canvas-content-subject.tsx:72-76 | the placed points span x 2 to 78 in increasing order, lie in the band, and one is above another exactly when its value is larger |
| MicroCharts.PlacesScaled | components/protocol/canvas-content-subject.tsx:72-76 | point i of n sits at X(i, n) and at the Y of its value between the lowest and highest plotted values |
| MicroCharts.Points | components/protocol/canvas-content-subject.tsx:72-76 | points at x = X(i, n) and y = Y(value, min, spread), so x spans 2 to 78 increasing and a larger value is drawn higher; each carries its month and value |
| MicroCharts.Segments | components/protocol/canvas-content-subject.tsx:78-87 | one segment joins each consecutive pair of points; it is increasing exactly when the value does not fall |
| MicroCharts.Dots | components/protocol/canvas-content-subject.tsx:103-113 | one dot per point; the first is green, and later ones are green exactly when the value does not fall |
| MicroCharts.DotsMatchSegments | components/protocol/canvas-content-subject.tsx:85-109 | each later dot has the colour of the segment that arrives at it |
| MicroCharts.Draw | components/protocol/canvas-content-subject.tsx:89-114 | the plot of at least two monthly positions: points at their exact x and y, segments joining them and dots |
| MicroCharts.SubjectMicroChart | components/protocol/canvas-content-subject.tsx:32-116 | a flat line exactly when fewer than two months have rows; otherwise a plot of the latest months' closing positions at their exact x and y |
| Cards.NetChange | components/protocol/pool-details-card.tsx:96-99 | 0 without rows; otherwise the sum of the monthly totals, that is the net flow of all rows |
| Cards.TrendUp | components/protocol/pool-details-card.tsx:100 | the trend points up exactly when the net change is not negative, and always without rows |
| Cards.Split | components/protocol/pool-details-card.tsx:146 | `split("-")`: at least one piece, none containing a dash |
| Cards.SplitJoin | components/protocol/pool-details-card.tsx:146 | joining the pieces with dashes gives the id back |
| Cards.TitleCharAt | components/protocol/pool-details-card.tsx:145-148 | character by character: a dash becomes a space, and a character after a dash or at the start is upper-cased |
| Cards.LabelIsTitle | components/protocol/pool-details-card.tsx:145-148 | capitalising the pieces and joining them with spaces equals the character-by-character title |
| Cards.ProtocolLabel | components/protocol/pool-details-card.tsx:145-148 | the label has the id's length; dashes become spaces and only word-initial letters change, to capitals |
| Cards.MapleFinanceLabel | components/protocol/pool-details-card.tsx:145-148 | "maple-finance" is shown as "Maple Finance" |
| Cards.StatusBadgeOf | components/protocol/pool-details-card.tsx:131-142 | the capitalised status; the default variant and emerald exactly for open, outline otherwise, red exactly for defaulted |
| Cards.StatusTexts | components/protocol/pool-details-card.tsx:141 | the three statuses read "Open", "Closed" and "Defaulted" |
| Cards.ActiveLoans | components/protocol/pool-details-card.tsx:152 | the summary's non-zero active count; the pool's own count without a summary or when the summary reports 0 |
| Cards.DefaultsBadge | components/protocol/pool-details-card.tsx:161-169 | shown exactly when a loan summary reports defaults, with that count |
| Cards.NavBadge | components/protocol/pool-details-card.tsx:125-129 | shown exactly for a present, non-zero NAV, formatted as currency |
| Cards.AssetBadge | components/protocol/pool-details-card.tsx:155-159 | shown exactly when an asset is present, with its symbol |
| EventsTable.TruncateAddress | components/protocol/pool-events-table.tsx:38-41 | at most 12 characters are kept whole; a longer address becomes its first 6, "..." and its last 4 characters |
| EventsTable.TruncateIdempotent | components/protocol/pool-events-table.tsx:38-41 | shortening twice equals shortening once |
| EventsTable.FixtureAddressUnchanged | components/protocol/pool-events-table.tsx:39-40 | an already shortened address is shown as it is |
| EventsTable.VariantOf | components/protocol/pool-events-table.tsx:43-60 | destructive exactly for "default", secondary exactly for "withdrawal", default exactly for deposits and repayments, outline for anything else |
| EventsTable.VariantsOfEventTypes | components/protocol/pool-events-table.tsx:44-58 | over the six event types, originations and interest payments are outlined |
| EventsTable.Spaced | components/protocol/pool-events-table.tsx:63 | `replace(/_/g, " ")`: underscores become spaces and nothing else changes |
| EventsTable.FormatEventType | components/protocol/pool-events-table.tsx:62-64 | underscores become spaces, word-initial word characters are upper-cased, and nothing else changes |
| EventsTable.FormatEventTypeRoundTrip | components/protocol/pool-events-table.tsx:62-64 | for a snake-case type name, the label reads back to the name |
| EventsTable.InterestPaymentLabel | components/protocol/pool-events-table.tsx:62-64 | "interest_payment" reads "Interest Payment" |
| EventsTable.LoanRepaidLabel | components/protocol/pool-events-table.tsx:62-64 | "loan_repaid" reads "Loan Repaid" |

## Left out

- `delay(ms)` and the `async` wrappers of every service: no timing is modelled. Each service
  is its synchronous result.
- The pass-through services `getSummary`, `getProtocols`, `getProtocol`, `getPool`,
  `getPoolCapitalFlows` and `getPoolExtendedData`.
  These only forward to the mock function they wrap, and that function is modelled.
- `Math.random()`: each draw is an input. Bounds proved "for draws in [0, 1)" rely on
  only that range, not any distribution.
- `Date` arithmetic, `toISOString`, time of day and daylight saving. Dates are whole day
  numbers. The link between those numbers and the `YYYY-MM-DD` strings the components read
  is not part of this model.
- `toFixed`, `parseFloat` and the `$…` string templates are left out. Amounts are exact
  reals or integers. Formatters return the scaled value, the suffix and the number of
  digits rather than a string.
- VelocityData.GeneratePoolVelocityData: neither the per-point day figures nor the summary
  averages are rounded to one decimal (`parseFloat(x.toFixed(1))`). As in the source, the
  summary is accumulated from the unrounded per-period values.
- `toLocaleDateString` and `Intl` formatting of dates and amounts in the chart axes and the
  events table.
- React rendering, `IntersectionObserver`, loading skeletons, and the `isMinimized` state
  that hides some banner badges. The values behind the badges are modelled; which of them
  a minimised banner hides is not. Neither is what React draws for `{nav && (...)}` when
  `nav` is 0 (a stray "0" text node, `components/protocol/pool-details-card.tsx:125`):
  NavBadge only says the badge is hidden.
- The velocity chart's tooltip, which only lays out fields that TransformData copies.
- Text.Upper: case mapping covers the ASCII letters only, not the full Unicode mapping of
  `toUpperCase`.
- EventSort.SortNewestFirst: the engine's sort is modelled as a stable insertion sort.
  Any stable sort by the same key gives the same order.
- ChartCommon.LegendLabel: a key that names an inherited object property (such as
  "constructor") would read that property in JavaScript. The model treats it as an unknown
  key.
- The service filters are typed values. An invalid date string and `startDate: ""` (which
  is falsy in JavaScript) cannot be expressed.
- `reduce(...) || 0` also maps `NaN` to 0. `NaN` cannot arise over exact numbers, so only
  the 0 case is modelled.
- `!data` in the micro charts: a sequence is always defined, so only the empty case is
  modelled.
- The fixture tables beyond the protocol list. Services and lookups are proved for every
  store value, and the summary totals are checked for the fixture protocols only.
- The layout components, the pages and `components/protocol/loans-table.tsx` are not part
  of this model.

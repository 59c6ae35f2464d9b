/** `generatePoolVelocityData` of lib/api/mocks.ts: per period, how long loans took to fund
    and redemptions to process, how many of each there were, and summary totals with
    count-weighted averages. Each period consumes the ten `Math.random()` values of a
    `VelocityDraw`, in the order the source draws them. */
module VelocityData {
  import opened Wrappers
  import opened Seqs
  import opened Types
  import opened Series
  import opened Mocks

  datatype VelocityDraw = VelocityDraw(
    avgFund: real, medianFund: real, p90Fund: real, loans: real, principal: real,
    avgProcess: real, medianProcess: real, p90Process: real, redemptions: real, assets: real)

  datatype VelocityPoint = VelocityPoint(
    periodStart: int,
    periodEnd: int,
    avgDaysToFund: real,
    medianDaysToFund: real,
    p90DaysToFund: real,
    loansFunded: int,
    totalPrincipalFunded: real,
    avgDaysToProcess: real,
    medianDaysToProcess: real,
    p90DaysToProcess: real,
    redemptionsProcessed: int,
    totalAssetsRedeemed: real)

  datatype VelocitySummary = VelocitySummary(
    periodStart: int,
    periodEnd: int,
    avgDaysToFund: real,
    medianDaysToFund: real,
    totalLoansFunded: int,
    avgDaysToProcess: real,
    medianDaysToProcess: real,
    totalRedemptionsProcessed: int)

  datatype VelocityResponse = VelocityResponse(
    poolId: string,
    poolName: string,
    granularity: Granularity,
    data: seq<VelocityPoint>,
    summary: VelocitySummary,
    pagination: SeriesPage)

  predicate AllUnit(d: VelocityDraw)
  {
    && UnitDraw(d.avgFund) && UnitDraw(d.medianFund) && UnitDraw(d.p90Fund) && UnitDraw(d.loans)
    && UnitDraw(d.principal) && UnitDraw(d.avgProcess) && UnitDraw(d.medianProcess)
    && UnitDraw(d.p90Process) && UnitDraw(d.redemptions) && UnitDraw(d.assets)
  }

  /** One period ending on `periodEnd`. With draws from [0, 1): funding takes 1 to 5 days
      over 0 to 3 loans, processing 7 to 21 days over 0 to 7 redemptions. */
  function PeriodVelocity(periodEnd: int, step: int, d: VelocityDraw): (p: VelocityPoint)
    ensures p.periodEnd == periodEnd && p.periodStart == periodEnd - step
    ensures UnitDraw(d.loans) ==> 0 <= p.loansFunded <= 3
    ensures UnitDraw(d.redemptions) ==> 0 <= p.redemptionsProcessed <= 7
    ensures UnitDraw(d.avgFund) ==> 1.0 <= p.avgDaysToFund < 5.0
    ensures UnitDraw(d.avgProcess) ==> 7.0 <= p.avgDaysToProcess < 21.0
  {
    var avgDaysToFund := 1.0 + d.avgFund * 4.0;
    var loansFunded := (d.loans * 4.0).Floor;
    var avgDaysToProcess := 7.0 + d.avgProcess * 14.0;
    var redemptionsProcessed := (d.redemptions * 8.0).Floor;
    VelocityPoint(
      periodEnd - step,
      periodEnd,
      avgDaysToFund,
      avgDaysToFund * (0.8 + d.medianFund * 0.3),
      avgDaysToFund * (1.5 + d.p90Fund * 0.5),
      loansFunded,
      loansFunded as real * (500000.0 + d.principal * 2000000.0),
      avgDaysToProcess,
      avgDaysToProcess * (0.9 + d.medianProcess * 0.2),
      avgDaysToProcess * (1.3 + d.p90Process * 0.4),
      redemptionsProcessed,
      redemptionsProcessed as real * (50000.0 + d.assets * 500000.0))
  }

  function LoansTotal(data: seq<VelocityPoint>): int
  {
    if data == [] then 0 else LoansTotal(data[..|data| - 1]) + data[|data| - 1].loansFunded
  }

  function RedemptionsTotal(data: seq<VelocityPoint>): int
  {
    if data == [] then 0 else RedemptionsTotal(data[..|data| - 1]) + data[|data| - 1].redemptionsProcessed
  }

  /** `sumDaysToFund`: each period's average weighted by its loan count, skipped when there were none. */
  function FundDays(data: seq<VelocityPoint>): real
  {
    if data == [] then 0.0
    else
      var p := data[|data| - 1];
      FundDays(data[..|data| - 1]) + (if p.loansFunded > 0 then p.avgDaysToFund * p.loansFunded as real else 0.0)
  }

  function ProcessDays(data: seq<VelocityPoint>): real
  {
    if data == [] then 0.0
    else
      var p := data[|data| - 1];
      ProcessDays(data[..|data| - 1])
        + (if p.redemptionsProcessed > 0 then p.avgDaysToProcess * p.redemptionsProcessed as real else 0.0)
  }

  /** `total > 0 ? sum / total : 0`. */
  function WeightedAverage(sum: real, total: int): (r: real)
    ensures total > 0 ==> r * total as real == sum
    ensures total <= 0 ==> r == 0.0
  {
    if total > 0 then sum / total as real else 0.0
  }

  /** Adding `n` items of average `v` keeps a weighted sum between `lo` and `hi` times the count. */
  lemma WeightStep(lo: real, hi: real, count: real, sum: real, n: real, v: real)
    requires lo * count <= sum <= hi * count
    requires n >= 0.0 && lo <= v <= hi
    ensures lo * (count + n) <= sum + v * n <= hi * (count + n)
  {
    assert lo * (count + n) == lo * count + lo * n;
    assert hi * (count + n) == hi * count + hi * n;
    assert (v - lo) * n == v * n - lo * n;
    assert (hi - v) * n == hi * n - v * n;
    assert (v - lo) * n >= 0.0;
    assert (hi - v) * n >= 0.0;
  }

  /** The last period keeps the funding-days sum within its bounds. */
  lemma FundStep(data: seq<VelocityPoint>, lo: real, hi: real)
    requires data != []
    requires var init := data[..|data| - 1];
      lo * LoansTotal(init) as real <= FundDays(init) <= hi * LoansTotal(init) as real
    requires data[|data| - 1].loansFunded >= 0 && lo <= data[|data| - 1].avgDaysToFund <= hi
    ensures lo * LoansTotal(data) as real <= FundDays(data) <= hi * LoansTotal(data) as real
  {
    var init, p := data[..|data| - 1], data[|data| - 1];
    var n := p.loansFunded as real;
    assert FundDays(data) == FundDays(init) + p.avgDaysToFund * n by {
      if p.loansFunded == 0 { assert p.avgDaysToFund * n == 0.0; }
    }
    WeightStep(lo, hi, LoansTotal(init) as real, FundDays(init), n, p.avgDaysToFund);
  }

  /** The last period keeps the processing-days sum within its bounds. */
  lemma ProcessStep(data: seq<VelocityPoint>, lo: real, hi: real)
    requires data != []
    requires var init := data[..|data| - 1];
      lo * RedemptionsTotal(init) as real <= ProcessDays(init) <= hi * RedemptionsTotal(init) as real
    requires data[|data| - 1].redemptionsProcessed >= 0 && lo <= data[|data| - 1].avgDaysToProcess <= hi
    ensures lo * RedemptionsTotal(data) as real <= ProcessDays(data) <= hi * RedemptionsTotal(data) as real
  {
    var init, p := data[..|data| - 1], data[|data| - 1];
    var n := p.redemptionsProcessed as real;
    assert ProcessDays(data) == ProcessDays(init) + p.avgDaysToProcess * n by {
      if p.redemptionsProcessed == 0 { assert p.avgDaysToProcess * n == 0.0; }
    }
    WeightStep(lo, hi, RedemptionsTotal(init) as real, ProcessDays(init), n, p.avgDaysToProcess);
  }

  /** The funding-days sum lies between `lo` and `hi` times the loan count when every
      period's average does and no count is negative. */
  lemma {:induction false} FundDaysBounds(data: seq<VelocityPoint>, lo: real, hi: real)
    requires forall k :: 0 <= k < |data| ==> data[k].loansFunded >= 0 && lo <= data[k].avgDaysToFund <= hi
    ensures lo * LoansTotal(data) as real <= FundDays(data) <= hi * LoansTotal(data) as real
  {
    if data != [] {
      FundDaysBounds(data[..|data| - 1], lo, hi);
      FundStep(data, lo, hi);
    }
  }

  lemma {:induction false} ProcessDaysBounds(data: seq<VelocityPoint>, lo: real, hi: real)
    requires forall k :: 0 <= k < |data| ==> data[k].redemptionsProcessed >= 0 && lo <= data[k].avgDaysToProcess <= hi
    ensures lo * RedemptionsTotal(data) as real <= ProcessDays(data) <= hi * RedemptionsTotal(data) as real
  {
    if data != [] {
      ProcessDaysBounds(data[..|data| - 1], lo, hi);
      ProcessStep(data, lo, hi);
    }
  }

  /** Totals are bounded by the per-period maxima: at most 3 loans and 7 redemptions a period. */
  lemma {:induction false} TotalsBounded(data: seq<VelocityPoint>)
    requires forall k :: 0 <= k < |data| ==> 0 <= data[k].loansFunded <= 3 && 0 <= data[k].redemptionsProcessed <= 7
    ensures 0 <= LoansTotal(data) <= 3 * |data|
    ensures 0 <= RedemptionsTotal(data) <= 7 * |data|
  {
    if data != [] {
      TotalsBounded(data[..|data| - 1]);
    }
  }

  /** The summary averages of a series built from draws in [0, 1): a weighted average of
      per-period averages, so 1 to 5 days to fund and 7 to 21 days to process whenever there
      was at least one loan or redemption. */
  lemma SummaryAveragesInRange(data: seq<VelocityPoint>)
    requires forall k :: 0 <= k < |data| ==>
      && 0 <= data[k].loansFunded && 1.0 <= data[k].avgDaysToFund <= 5.0
      && 0 <= data[k].redemptionsProcessed && 7.0 <= data[k].avgDaysToProcess <= 21.0
    ensures LoansTotal(data) > 0 ==> 1.0 <= WeightedAverage(FundDays(data), LoansTotal(data)) <= 5.0
    ensures RedemptionsTotal(data) > 0 ==> 7.0 <= WeightedAverage(ProcessDays(data), RedemptionsTotal(data)) <= 21.0
  {
    FundDaysBounds(data, 1.0, 5.0);
    ProcessDaysBounds(data, 7.0, 21.0);
    AverageWithin(FundDays(data), LoansTotal(data), 1.0, 5.0);
    AverageWithin(ProcessDays(data), RedemptionsTotal(data), 7.0, 21.0);
  }

  lemma AverageWithin(sum: real, total: int, lo: real, hi: real)
    requires total > 0 ==> lo * total as real <= sum <= hi * total as real
    ensures total > 0 ==> lo <= WeightedAverage(sum, total) <= hi
  {
    if total > 0 {
      var n := total as real;
      var a := sum / n;
      assert a * n == sum;
      if a < lo { assert a * n < lo * n; }
      if a > hi { assert a * n > hi * n; }
    }
  }

  /** Appending a period adds its counts and its weighted days to the four accumulators. */
  lemma Appended(data: seq<VelocityPoint>, p: VelocityPoint)
    ensures LoansTotal(data + [p]) == LoansTotal(data) + p.loansFunded
    ensures RedemptionsTotal(data + [p]) == RedemptionsTotal(data) + p.redemptionsProcessed
    ensures FundDays(data + [p])
            == FundDays(data) + (if p.loansFunded > 0 then p.avgDaysToFund * p.loansFunded as real else 0.0)
    ensures ProcessDays(data + [p])
            == ProcessDays(data)
               + (if p.redemptionsProcessed > 0 then p.avgDaysToProcess * p.redemptionsProcessed as real else 0.0)
  {
    assert (data + [p])[..|data|] == data;
  }

  /** The loop of `generatePoolVelocityData` with its four accumulators. */
  method VelocityRows(w: Window, draws: seq<VelocityDraw>)
    returns (data: seq<VelocityPoint>, totalLoansFunded: int, totalRedemptionsProcessed: int,
             sumDaysToFund: real, sumDaysToProcess: real)
    requires |draws| >= w.count
    ensures |data| == w.count
    ensures forall k :: 0 <= k < |data| ==> data[k] == PeriodVelocity(PointDate(w, k), w.step, draws[k])
    ensures totalLoansFunded == LoansTotal(data) && totalRedemptionsProcessed == RedemptionsTotal(data)
    ensures sumDaysToFund == FundDays(data) && sumDaysToProcess == ProcessDays(data)
  {
    data := [];
    totalLoansFunded, totalRedemptionsProcessed := 0, 0;
    sumDaysToFund, sumDaysToProcess := 0.0, 0.0;
    var i := w.count - 1;
    while i >= 0
      invariant -1 <= i < w.count
      invariant |data| == w.count - 1 - i
      invariant forall k :: 0 <= k < |data| ==> data[k] == PeriodVelocity(PointDate(w, k), w.step, draws[k])
      invariant totalLoansFunded == LoansTotal(data) && totalRedemptionsProcessed == RedemptionsTotal(data)
      invariant sumDaysToFund == FundDays(data) && sumDaysToProcess == ProcessDays(data)
    {
      var periodEnd := w.end - i * w.step;
      assert periodEnd == PointDate(w, |data|);
      var p := PeriodVelocity(periodEnd, w.step, draws[|data|]);
      totalLoansFunded := totalLoansFunded + p.loansFunded;
      totalRedemptionsProcessed := totalRedemptionsProcessed + p.redemptionsProcessed;
      if p.loansFunded > 0 {
        sumDaysToFund := sumDaysToFund + p.avgDaysToFund * p.loansFunded as real;
      }
      if p.redemptionsProcessed > 0 {
        sumDaysToProcess := sumDaysToProcess + p.avgDaysToProcess * p.redemptionsProcessed as real;
      }
      Appended(data, p);
      data := data + [p];
      i := i - 1;
    }
  }

  /** `generatePoolVelocityData(poolId, filters)`: weekly and 52 points by default. */
  method GeneratePoolVelocityData(store: Store, poolId: string, f: SeriesFilters, today: int, draws: seq<VelocityDraw>)
    returns (r: VelocityResponse)
    requires |draws| >= MakeWindow(f, today, Weekly, 52).count
    ensures var w := MakeWindow(f, today, Weekly, 52);
      && r.poolId == poolId && r.poolName == PoolName(store, poolId) && r.granularity == w.granularity
      && |r.data| == w.count
      && r.pagination == PageInfo(|r.data|, w, f)
      && r.summary.periodStart == w.start && r.summary.periodEnd == w.end
    ensures var w := MakeWindow(f, today, Weekly, 52);
      forall k :: 0 <= k < |r.data| ==>
        && r.data[k] == PeriodVelocity(PointDate(w, k), w.step, draws[k])
        && r.data[k].periodStart == r.data[k].periodEnd - w.step
    ensures r.summary.totalLoansFunded == LoansTotal(r.data)
    ensures r.summary.totalRedemptionsProcessed == RedemptionsTotal(r.data)
    ensures r.summary.avgDaysToFund == WeightedAverage(FundDays(r.data), LoansTotal(r.data))
    ensures r.summary.avgDaysToProcess == WeightedAverage(ProcessDays(r.data), RedemptionsTotal(r.data))
    ensures r.summary.totalLoansFunded == 0 ==> r.summary.avgDaysToFund == 0.0
    ensures r.summary.totalRedemptionsProcessed == 0 ==> r.summary.avgDaysToProcess == 0.0
    ensures r.summary.medianDaysToFund == r.summary.avgDaysToFund * 0.9
    ensures r.summary.medianDaysToProcess == r.summary.avgDaysToProcess * 0.95
    ensures (forall k :: 0 <= k < |draws| ==> AllUnit(draws[k])) ==>
      && 0 <= r.summary.totalLoansFunded <= 3 * |r.data|
      && 0 <= r.summary.totalRedemptionsProcessed <= 7 * |r.data|
      && (r.summary.totalLoansFunded > 0 ==> 1.0 <= r.summary.avgDaysToFund <= 5.0)
      && (r.summary.totalRedemptionsProcessed > 0 ==> 7.0 <= r.summary.avgDaysToProcess <= 21.0)
  {
    var w := MakeWindow(f, today, Weekly, 52);
    var data, totalLoansFunded, totalRedemptionsProcessed, sumDaysToFund, sumDaysToProcess := VelocityRows(w, draws);
    var avgLoanDays := WeightedAverage(sumDaysToFund, totalLoansFunded);
    var avgRedemptionDays := WeightedAverage(sumDaysToProcess, totalRedemptionsProcessed);
    if forall k :: 0 <= k < |draws| ==> AllUnit(draws[k]) {
      TotalsBounded(data);
      SummaryAveragesInRange(data);
    }
    r := VelocityResponse(poolId, PoolName(store, poolId), w.granularity, data,
      VelocitySummary(w.start, w.end, avgLoanDays, avgLoanDays * 0.9, totalLoansFunded,
                      avgRedemptionDays, avgRedemptionDays * 0.95, totalRedemptionsProcessed),
      PageInfo(|data|, w, f));
  }
}

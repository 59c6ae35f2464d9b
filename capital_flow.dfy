/** `generateCapitalFlowData` of lib/api/mocks.ts: one row of inflows and outflows per
    period, each a rounded share of the pool's TVL, with a running position that starts at
    the TVL and moves by each period's net flow. The five `Math.random()` values a period
    consumes are supplied as one `FlowDraw` per period, in the order the source draws them. */
module CapitalFlowData {
  import opened Wrappers
  import opened Seqs
  import opened Types
  import opened Series
  import opened Mocks

  datatype FlowDraw = FlowDraw(deposit: real, withdrawal: real, repayment: real, drawdown: real, defaultRoll: real)

  datatype FlowAmounts = FlowAmounts(
    deposits: int,
    loanRepayments: int,
    totalInflows: int,
    withdrawals: int,
    loanDrawdowns: int,
    defaults: int,
    totalOutflows: int,
    netFlow: int)

  datatype FlowPoint = FlowPoint(date: int, amounts: FlowAmounts, cumulativePosition: int)

  datatype FlowSummary = FlowSummary(
    periodStart: int,
    periodEnd: int,
    totalInflows: int,
    totalOutflows: int,
    netChange: int,
    currentPosition: int)

  datatype FlowResponse = FlowResponse(
    poolId: string,
    granularity: Granularity,
    data: seq<FlowPoint>,
    summary: FlowSummary,
    pagination: SeriesPage)

  /** `Math.round(b * (lo + Math.random() * span))`: a rounded share of the TVL `b`. */
  function Share(b: real, lo: real, span: real, r: real): int
  {
    Round(b * (lo + r * span))
  }

  /** The amounts of one period. Inflows are deposits and repayments; outflows are
      withdrawals, drawdowns and, on a roll above 0.95, a default of half a percent of TVL. */
  function PeriodAmounts(baseTvl: int, d: FlowDraw): (a: FlowAmounts)
    ensures a.totalInflows == a.deposits + a.loanRepayments
    ensures a.totalOutflows == a.withdrawals + a.loanDrawdowns + a.defaults
    ensures a.netFlow == a.totalInflows - a.totalOutflows
    ensures d.defaultRoll <= 0.95 ==> a.defaults == 0
    ensures d.defaultRoll > 0.95 ==> a.defaults == Round(baseTvl as real * 0.005)
  {
    var b := baseTvl as real;
    var deposits := Share(b, 0.005, 0.025, d.deposit);
    var withdrawals := Share(b, 0.003, 0.02, d.withdrawal);
    var loanRepayments := Share(b, 0.002, 0.015, d.repayment);
    var loanDrawdowns := Share(b, 0.004, 0.02, d.drawdown);
    var defaults := if d.defaultRoll > 0.95 then Round(b * 0.005) else 0;
    var totalInflows := deposits + loanRepayments;
    var totalOutflows := withdrawals + loanDrawdowns + defaults;
    FlowAmounts(deposits, loanRepayments, totalInflows, withdrawals, loanDrawdowns, defaults, totalOutflows,
                totalInflows - totalOutflows)
  }

  /** With draws from [0, 1) and a non-negative TVL, each period's amount lies within its
      band of the TVL (0.5%-3% for deposits, 0.3%-2.3% for withdrawals, 0.2%-1.7% for
      repayments, 0.4%-2.4% for drawdowns), up to rounding, and no amount is negative. */
  lemma AmountShares(baseTvl: int, d: FlowDraw)
    requires baseTvl >= 0
    requires UnitDraw(d.deposit) && UnitDraw(d.withdrawal) && UnitDraw(d.repayment) && UnitDraw(d.drawdown)
    ensures var a := PeriodAmounts(baseTvl, d); var b := baseTvl as real;
      && b * 0.005 - 0.5 <= a.deposits as real <= b * 0.03 + 0.5
      && b * 0.003 - 0.5 <= a.withdrawals as real <= b * 0.023 + 0.5
      && b * 0.002 - 0.5 <= a.loanRepayments as real <= b * 0.017 + 0.5
      && b * 0.004 - 0.5 <= a.loanDrawdowns as real <= b * 0.024 + 0.5
      && a.deposits >= 0 && a.withdrawals >= 0 && a.loanRepayments >= 0 && a.loanDrawdowns >= 0 && a.defaults >= 0
  {
    var b := baseTvl as real;
    DepositsBand(baseTvl, d);
    WithdrawalsBand(baseTvl, d);
    RepaymentsBand(baseTvl, d);
    DrawdownsBand(baseTvl, d);
    if d.defaultRoll > 0.95 {
      ShareRound(b, 0.0, 0.005, 0.0);
      assert Share(b, 0.005, 0.0, 0.0) == Round(b * 0.005);
    }
  }

  lemma DepositsBand(baseTvl: int, d: FlowDraw)
    requires baseTvl >= 0 && UnitDraw(d.deposit)
    ensures var n := PeriodAmounts(baseTvl, d).deposits; var b := baseTvl as real;
      n >= 0 && b * 0.005 - 0.5 <= n as real <= b * 0.03 + 0.5
  {
    ShareBand(baseTvl as real, d.deposit, 0.005, 0.025, 0.03);
  }

  lemma WithdrawalsBand(baseTvl: int, d: FlowDraw)
    requires baseTvl >= 0 && UnitDraw(d.withdrawal)
    ensures var n := PeriodAmounts(baseTvl, d).withdrawals; var b := baseTvl as real;
      n >= 0 && b * 0.003 - 0.5 <= n as real <= b * 0.023 + 0.5
  {
    ShareBand(baseTvl as real, d.withdrawal, 0.003, 0.02, 0.023);
  }

  lemma RepaymentsBand(baseTvl: int, d: FlowDraw)
    requires baseTvl >= 0 && UnitDraw(d.repayment)
    ensures var n := PeriodAmounts(baseTvl, d).loanRepayments; var b := baseTvl as real;
      n >= 0 && b * 0.002 - 0.5 <= n as real <= b * 0.017 + 0.5
  {
    ShareBand(baseTvl as real, d.repayment, 0.002, 0.015, 0.017);
  }

  lemma DrawdownsBand(baseTvl: int, d: FlowDraw)
    requires baseTvl >= 0 && UnitDraw(d.drawdown)
    ensures var n := PeriodAmounts(baseTvl, d).loanDrawdowns; var b := baseTvl as real;
      n >= 0 && b * 0.004 - 0.5 <= n as real <= b * 0.024 + 0.5
  {
    ShareBand(baseTvl as real, d.drawdown, 0.004, 0.02, 0.024);
  }

  /** `ShareRound` with the band's upper end `hi = lo + span` written out. */
  lemma ShareBand(b: real, r: real, lo: real, span: real, hi: real)
    requires b >= 0.0 && UnitDraw(r) && lo >= 0.0 && span >= 0.0 && hi == lo + span
    ensures var n := Share(b, lo, span, r);
      n >= 0 && b * lo - 0.5 <= n as real <= b * hi + 0.5
  {
    ShareRound(b, r, lo, span);
    assert b * lo + b * span == b * hi;
  }

  /** `Math.round(b * (lo + r * span))` for a draw `r` in [0, 1). */
  lemma ShareRound(b: real, r: real, lo: real, span: real)
    requires b >= 0.0 && UnitDraw(r) && lo >= 0.0 && span >= 0.0
    ensures var n := Share(b, lo, span, r);
      n >= 0 && b * lo - 0.5 <= n as real <= b * lo + b * span + 0.5
  {
    var x := b * (lo + r * span);
    Distribute(b, lo, r, span);
    MulLe(0.0, r, b);
    MulLe(r, 1.0, b);
    MulLe(0.0, b * r, span);
    MulLe(b * r, b, span);
    MulLe(0.0, b, lo);
    assert b * lo <= x <= b * lo + b * span;
  }

  lemma Distribute(b: real, lo: real, r: real, span: real)
    ensures b * (lo + r * span) == b * lo + (b * r) * span
  {
  }

  lemma MulLe(x: real, y: real, c: real)
    requires x <= y && c >= 0.0
    ensures x * c <= y * c
  {
  }

  function InflowTotal(data: seq<FlowPoint>): int
  {
    if data == [] then 0 else InflowTotal(data[..|data| - 1]) + data[|data| - 1].amounts.totalInflows
  }

  function OutflowTotal(data: seq<FlowPoint>): int
  {
    if data == [] then 0 else OutflowTotal(data[..|data| - 1]) + data[|data| - 1].amounts.totalOutflows
  }

  function NetTotal(data: seq<FlowPoint>): int
  {
    if data == [] then 0 else NetTotal(data[..|data| - 1]) + data[|data| - 1].amounts.netFlow
  }

  /** Summed over any rows whose net flow is inflows minus outflows, total inflows minus
      total outflows is the summed net flow. */
  lemma {:induction false} NetChangeIsNetFlow(data: seq<FlowPoint>)
    requires forall k :: 0 <= k < |data| ==> data[k].amounts.netFlow == data[k].amounts.totalInflows - data[k].amounts.totalOutflows
    ensures InflowTotal(data) - OutflowTotal(data) == NetTotal(data)
  {
    if data != [] {
      NetChangeIsNetFlow(data[..|data| - 1]);
    }
  }

  /** Row `k` is dated by the window and carries the amounts drawn for period `k`. */
  ghost predicate RowsDrawn(data: seq<FlowPoint>, base: int, w: Window, draws: seq<FlowDraw>)
  {
    forall k :: 0 <= k < |data| ==>
      k < |draws| && data[k].date == PointDate(w, k) && data[k].amounts == PeriodAmounts(base, draws[k])
  }

  /** Every row's position is the base plus the net flows up to and including it. */
  ghost predicate RunningPositions(data: seq<FlowPoint>, base: int)
  {
    forall m :: 0 < m <= |data| ==> data[m - 1].cumulativePosition == base + NetTotal(data[..m])
  }

  /** Pushing a row dated and drawn for the next period, whose position moves the running
      position by its net flow, keeps both row invariants. */
  lemma {:induction false} PushRow(base: int, w: Window, draws: seq<FlowDraw>, data: seq<FlowPoint>, point: FlowPoint)
    requires RowsDrawn(data, base, w, draws) && RunningPositions(data, base)
    requires |data| < |draws| && point.date == PointDate(w, |data|)
    requires point.amounts == PeriodAmounts(base, draws[|data|])
    requires point.cumulativePosition == base + NetTotal(data) + point.amounts.netFlow
    ensures NetTotal(data + [point]) == NetTotal(data) + point.amounts.netFlow
    ensures RowsDrawn(data + [point], base, w, draws) && RunningPositions(data + [point], base)
  {
    var next := data + [point];
    assert next[..|next| - 1] == data;
    forall m | 0 < m <= |data| + 1
      ensures next[m - 1].cumulativePosition == base + NetTotal(next[..m])
    {
      if m <= |data| {
        assert next[..m] == data[..m];
      } else {
        assert next[..m] == next;
      }
    }
  }

  /** The loop of `generateCapitalFlowData`, counting down from `numPoints - 1` to 0 and
      pushing one row per turn; returns the rows and the final running position. */
  method FlowRows(base: int, w: Window, draws: seq<FlowDraw>) returns (data: seq<FlowPoint>, position: int)
    requires |draws| >= w.count
    ensures |data| == w.count
    ensures forall k :: 0 <= k < |data| ==>
      data[k].date == PointDate(w, k) && data[k].amounts == PeriodAmounts(base, draws[k])
    ensures forall m :: 0 < m <= |data| ==> data[m - 1].cumulativePosition == base + NetTotal(data[..m])
    ensures position == base + NetTotal(data)
    ensures position == if data == [] then base else data[|data| - 1].cumulativePosition
  {
    data := [];
    position := base;
    var i := w.count - 1;
    while i >= 0
      invariant -1 <= i < w.count
      invariant |data| == w.count - 1 - i
      invariant RowsDrawn(data, base, w, draws) && RunningPositions(data, base)
      invariant position == base + NetTotal(data)
      invariant position == if data == [] then base else data[|data| - 1].cumulativePosition
    {
      var a := PeriodAmounts(base, draws[|data|]);
      position := position + a.netFlow;
      var date := w.end - i * w.step;
      assert date == PointDate(w, |data|);
      var point := FlowPoint(date, a, position);
      PushRow(base, w, draws, data, point);
      data := data + [point];
      i := i - 1;
    }
  }

  /** `generateCapitalFlowData(poolId, filters)`. */
  method GenerateCapitalFlowData(store: Store, poolId: string, f: SeriesFilters, today: int, draws: seq<FlowDraw>)
    returns (r: FlowResponse)
    requires |draws| >= MakeWindow(f, today, Daily, 100).count
    ensures var w := MakeWindow(f, today, Daily, 100);
      && r.poolId == poolId && r.granularity == w.granularity
      && |r.data| == w.count
      && r.pagination == PageInfo(|r.data|, w, f)
      && r.summary.periodStart == w.start && r.summary.periodEnd == w.end
    ensures var w := MakeWindow(f, today, Daily, 100); var base := BaseTvl(store, poolId);
      forall k :: 0 <= k < |r.data| ==>
        && r.data[k].date == PointDate(w, k)
        && r.data[k].amounts == PeriodAmounts(base, draws[k])
    ensures forall m :: 0 < m <= |r.data| ==>
      r.data[m - 1].cumulativePosition == BaseTvl(store, poolId) + NetTotal(r.data[..m])
    ensures r.summary.totalInflows == InflowTotal(r.data) && r.summary.totalOutflows == OutflowTotal(r.data)
    ensures r.summary.netChange == r.summary.totalInflows - r.summary.totalOutflows
    ensures r.summary.currentPosition ==
      if r.data == [] then BaseTvl(store, poolId) else r.data[|r.data| - 1].cumulativePosition
    ensures r.summary.netChange == r.summary.currentPosition - BaseTvl(store, poolId)
  {
    var w := MakeWindow(f, today, Daily, 100);
    var base := BaseTvl(store, poolId);
    var data, position := FlowRows(base, w, draws);
    NetChangeIsNetFlow(data);
    var totalInflows := InflowTotal(data);
    var totalOutflows := OutflowTotal(data);
    r := FlowResponse(poolId, w.granularity, data,
      FlowSummary(w.start, w.end, totalInflows, totalOutflows, totalInflows - totalOutflows, position),
      PageInfo(|data|, w, f));
  }
}

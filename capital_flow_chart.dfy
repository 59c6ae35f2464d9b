/** The data side of components/protocol/capital-flow-chart.tsx: rows become stacked bars
    (inflows up, outflows down) plus a position line, long series are thinned, and the
    tooltip lists every bar with its sign. */
module CapitalFlowChart {
  import opened Wrappers
  import opened Seqs
  import opened ChartCommon

  datatype ChartPoint = ChartPoint(
    date: string,
    deposits: real,
    loanRepayments: real,
    withdrawals: real,
    loanDrawdowns: real,
    netPosition: real)

  function Point(d: FlowRow): ChartPoint
  {
    ChartPoint(d.date, d.deposits, d.loanRepayments, -d.withdrawals, -d.loanDrawdowns, d.cumulativePosition)
  }

  /** `transformData`: one point per row, in order; inflows keep their sign, outflows are
      negated so their bars hang below the axis, and the line is the cumulative position. */
  function TransformData(data: seq<FlowRow>): (r: seq<ChartPoint>)
    ensures |r| == |data|
    ensures forall i :: 0 <= i < |data| ==>
      && r[i].date == data[i].date
      && r[i].deposits == data[i].deposits && r[i].loanRepayments == data[i].loanRepayments
      && r[i].withdrawals == -data[i].withdrawals && r[i].loanDrawdowns == -data[i].loanDrawdowns
      && r[i].netPosition == data[i].cumulativePosition
    ensures forall i :: 0 <= i < |data| && data[i].withdrawals >= 0.0 && data[i].loanDrawdowns >= 0.0 ==>
      r[i].withdrawals <= 0.0 && r[i].loanDrawdowns <= 0.0
  {
    seq(|data|, i requires 0 <= i < |data| => Point(data[i]))
  }

  /** `displayData`: the chart data itself up to 30 rows, otherwise at most 30 of its points,
      starting with the first, taken at a fixed stride. */
  function DisplayData(data: seq<FlowRow>): (r: seq<ChartPoint>)
    ensures |data| <= 30 ==> r == TransformData(data)
    ensures |r| <= 30
    ensures data != [] ==> r != [] && r[0] == Point(data[0])
    ensures |data| > 30 ==> forall j :: 0 <= j < |r| ==>
      0 <= j * Stride(|data|) < |data| && r[j] == Point(data[j * Stride(|data|)])
    ensures |data| > 30 ==> (|r| - 1) * Stride(|data|) < |data| <= |r| * Stride(|data|)
  {
    Downsample(TransformData(data))
  }

  datatype TooltipEntry = TooltipEntry(name: string, value: real, color: string)

  /** One rendered tooltip row: its caption, swatch colour, sign and magnitude. */
  datatype TooltipLine = TooltipLine(caption: string, color: string, negative: bool, sign: string, amount: Compact)

  /** The label of a bar; any other series name renders no label text. */
  function FlowLabel(name: string): string
  {
    if name == "deposits" then "Deposits"
    else if name == "loanRepayments" then "Loan Repayments"
    else if name == "withdrawals" then "Withdrawals"
    else if name == "loanDrawdowns" then "Loan Drawdowns"
    else ""
  }

  function NotPosition(e: TooltipEntry): bool { e.name != "netPosition" }

  /** One tooltip row: the label of the bar, "-" before a negative value and "+" before any
      other, then the magnitude in compact form. */
  function Line(e: TooltipEntry): (r: TooltipLine)
    ensures r.negative <==> e.value < 0.0
    ensures r.sign == (if e.value < 0.0 then "-" else "+")
    ensures r.amount == FormatCurrency(Abs(e.value))
    ensures r.amount.scaled * Unit(r.amount.suffix) == Abs(e.value) >= 0.0
  {
    var negative := e.value < 0.0;
    TooltipLine(FlowLabel(e.name), e.color, negative, if negative then "-" else "+", FormatCurrency(Abs(e.value)))
  }

  function Lines(kept: seq<TooltipEntry>): (r: seq<TooltipLine>)
    ensures |r| == |kept| && forall i :: 0 <= i < |kept| ==> r[i] == Line(kept[i])
  {
    seq(|kept|, i requires 0 <= i < |kept| => Line(kept[i]))
  }

  /** The kept entries are exactly the non-position ones, and each of them has its row. */
  lemma KeptHaveLines(payload: seq<TooltipEntry>)
    ensures var kept := Filter(payload, NotPosition);
      && (forall i :: 0 <= i < |kept| ==> kept[i].name != "netPosition")
      && forall e :: e in payload && e.name != "netPosition" ==> Line(e) in Lines(kept)
  {
    var kept := Filter(payload, NotPosition);
    var lines := Lines(kept);
    assert forall i :: 0 <= i < |kept| ==> kept[i] in kept && NotPosition(kept[i]);
    forall e | e in payload && e.name != "netPosition"
      ensures Line(e) in lines
    {
      assert NotPosition(e);
      assert e in kept;
      var i :| 0 <= i < |kept| && kept[i] == e;
      assert lines[i] == Line(e);
    }
  }

  /** `CustomTooltip`: nothing when inactive or without entries; otherwise one row per entry
      except the position line, in payload order. */
  function Tooltip(active: bool, payload: Option<seq<TooltipEntry>>): (r: Option<seq<TooltipLine>>)
    ensures r.None? <==> !active || payload.None? || payload.value == []
    ensures r.Some? ==> var kept := Filter(payload.value, NotPosition);
      && |r.value| == |kept|
      && forall i :: 0 <= i < |kept| ==> kept[i].name != "netPosition" && r.value[i] == Line(kept[i])
    ensures r.Some? ==> forall e :: e in payload.value && e.name != "netPosition" ==> Line(e) in r.value
  {
    if !active || payload.None? || payload.value == [] then None
    else
      KeptHaveLines(payload.value);
      Some(Lines(Filter(payload.value, NotPosition)))
  }

  /** The legend's label table. */
  const FlowLabels: map<string, string> := map[
    "deposits" := "Deposits",
    "loanRepayments" := "Loan Repayments",
    "withdrawals" := "Withdrawals",
    "loanDrawdowns" := "Loan Drawdowns",
    "netPosition" := "Net Position"]

  /** The legend formatter: the five series get their labels, any other key is shown as is.
      Every bar's legend label is also its tooltip caption. */
  function LegendLabel(key: string): (r: string)
    ensures key == "netPosition" ==> r == "Net Position"
    ensures key in FlowLabels && key != "netPosition" ==> r == FlowLabel(key) && r != ""
    ensures key !in FlowLabels ==> r == key
  {
    ChartCommon.LegendLabel(FlowLabels, key)
  }
}

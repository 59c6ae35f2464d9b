/** The data side of components/protocol/pool-velocity-chart.tsx: one point per period,
    dated by the period's end, long series thinned, and the legend's labels. */
module VelocityChart {
  import opened Seqs
  import opened ChartCommon

  /** A velocity row as the API returns it, with the nested loan and redemption figures flattened. */
  datatype VelocityRow = VelocityRow(
    periodStart: string,
    periodEnd: string,
    avgDaysToFund: real,
    loansFunded: int,
    avgDaysToProcess: real,
    redemptionsProcessed: int)

  datatype ChartPoint = ChartPoint(
    date: string,
    avgDaysToFund: real,
    avgDaysToProcess: real,
    loansFunded: int,
    redemptionsProcessed: int)

  function Point(d: VelocityRow): ChartPoint
  {
    ChartPoint(d.periodEnd, d.avgDaysToFund, d.avgDaysToProcess, d.loansFunded, d.redemptionsProcessed)
  }

  /** `transformData`: one point per row, in order, dated by the period's end, the four
      figures copied from the nested records unchanged. */
  function TransformData(data: seq<VelocityRow>): (r: seq<ChartPoint>)
    ensures |r| == |data|
    ensures forall i :: 0 <= i < |data| ==>
      && r[i].date == data[i].periodEnd
      && r[i].avgDaysToFund == data[i].avgDaysToFund && r[i].avgDaysToProcess == data[i].avgDaysToProcess
      && r[i].loansFunded == data[i].loansFunded && r[i].redemptionsProcessed == data[i].redemptionsProcessed
  {
    seq(|data|, i requires 0 <= i < |data| => Point(data[i]))
  }

  /** `displayData`, as in the capital-flow chart. */
  function DisplayData(data: seq<VelocityRow>): (r: seq<ChartPoint>)
    ensures |data| <= 30 ==> r == TransformData(data)
    ensures |r| <= 30
    ensures data != [] ==> r != [] && r[0] == Point(data[0])
    ensures |data| > 30 ==> forall j :: 0 <= j < |r| ==>
      0 <= j * Stride(|data|) < |data| && r[j] == Point(data[j * Stride(|data|)])
    ensures |data| > 30 ==> (|r| - 1) * Stride(|data|) < |data| <= |r| * Stride(|data|)
  {
    Downsample(TransformData(data))
  }

  const VelocityLabels: map<string, string> := map[
    "avgDaysToFund" := "Loan Funding Time",
    "avgDaysToProcess" := "Redemption Processing Time"]

  /** The legend formatter: the two series get their labels, any other key is shown as is. */
  function LegendLabel(key: string): (r: string)
    ensures key == "avgDaysToFund" ==> r == "Loan Funding Time"
    ensures key == "avgDaysToProcess" ==> r == "Redemption Processing Time"
    ensures key !in VelocityLabels ==> r == key
  {
    ChartCommon.LegendLabel(VelocityLabels, key)
  }
}

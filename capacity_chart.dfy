/** The data side of components/protocol/pool-capacity-chart.tsx: rows become area and line
    points, long series are thinned, the reference line sits at the largest cap shown, and
    the tooltip sets the utilization entry apart from the amounts. */
module CapacityChart {
  import opened Wrappers
  import opened Seqs
  import opened ChartCommon

  /** A capacity row after `parseFloat`; `utilizationRate` arrives as a number already. */
  datatype CapacityRow = CapacityRow(date: string, liquidityCap: real, outstandingBalance: real, idleCash: real,
                                     utilizationRate: real)

  datatype ChartPoint = ChartPoint(date: string, liquidityCap: real, outstandingBalance: real, idleCash: real,
                                   utilizationRate: real)

  function Point(d: CapacityRow): ChartPoint
  {
    ChartPoint(d.date, d.liquidityCap, d.outstandingBalance, d.idleCash, d.utilizationRate)
  }

  /** `transformData`: one point per row, in order, every figure carried over unchanged. */
  function TransformData(data: seq<CapacityRow>): (r: seq<ChartPoint>)
    ensures |r| == |data|
    ensures forall i :: 0 <= i < |data| ==>
      && r[i].date == data[i].date && r[i].liquidityCap == data[i].liquidityCap
      && r[i].outstandingBalance == data[i].outstandingBalance && r[i].idleCash == data[i].idleCash
      && r[i].utilizationRate == data[i].utilizationRate
  {
    seq(|data|, i requires 0 <= i < |data| => Point(data[i]))
  }

  /** `displayData`, as in the capital-flow chart. */
  function DisplayData(data: seq<CapacityRow>): (r: seq<ChartPoint>)
    ensures |data| <= 30 ==> r == TransformData(data)
    ensures |r| <= 30
    ensures data != [] ==> r != [] && r[0] == Point(data[0])
    ensures |data| > 30 ==> forall j :: 0 <= j < |r| ==>
      0 <= j * Stride(|data|) < |data| && r[j] == Point(data[j * Stride(|data|)])
    ensures |data| > 30 ==> (|r| - 1) * Stride(|data|) < |data| <= |r| * Stride(|data|)
  {
    Downsample(TransformData(data))
  }

  /** `Math.max(...caps)` over a non-empty list. */
  function MaxCap(points: seq<ChartPoint>): (r: real)
    requires points != []
    ensures exists i :: 0 <= i < |points| && r == points[i].liquidityCap
    ensures forall i :: 0 <= i < |points| ==> points[i].liquidityCap <= r
  {
    if |points| == 1 then points[0].liquidityCap
    else
      var rest := MaxCap(points[..|points| - 1]);
      var last := points[|points| - 1].liquidityCap;
      assert forall i :: 0 <= i < |points| - 1 ==> points[..|points| - 1][i] == points[i];
      if rest >= last then rest else last
  }

  /** `maxLiquidityCap`: the largest cap among the displayed points, 0 when none are shown. */
  function MaxLiquidityCap(display: seq<ChartPoint>): (r: real)
    ensures display == [] ==> r == 0.0
    ensures display != [] ==> (exists i :: 0 <= i < |display| && r == display[i].liquidityCap)
    ensures forall i :: 0 <= i < |display| ==> display[i].liquidityCap <= r
  {
    if |display| > 0 then MaxCap(display) else 0.0
  }

  datatype TooltipEntry = TooltipEntry(name: string, value: real, color: string, dataKey: string)

  function IsUtilization(e: TooltipEntry): bool { e.dataKey == "utilizationRate" }
  function IsAmount(e: TooltipEntry): bool { e.dataKey != "utilizationRate" }

  /** The two parts of the tooltip: the utilization entry, if any, and the amount entries. */
  datatype TooltipParts = TooltipParts(utilization: Option<TooltipEntry>, amounts: seq<TooltipEntry>)

  /** `CustomTooltip`: nothing when inactive or without entries; otherwise the first
      utilization entry and, in order, every entry with another data key. */
  function Tooltip(active: bool, payload: Option<seq<TooltipEntry>>): (r: Option<TooltipParts>)
    ensures r.None? <==> !active || payload.None? || payload.value == []
    ensures r.Some? ==>
      && (r.value.utilization.None? <==> forall i :: 0 <= i < |payload.value| ==> !IsUtilization(payload.value[i]))
      && (r.value.utilization.Some? ==> r.value.utilization.value in payload.value && IsUtilization(r.value.utilization.value))
      && r.value.amounts == Filter(payload.value, IsAmount)
      && (forall e :: e in r.value.amounts <==> e in payload.value && !IsUtilization(e))
  {
    if !active || payload.None? || payload.value == [] then None
    else Some(TooltipParts(Find(payload.value, IsUtilization), Filter(payload.value, IsAmount)))
  }

  /** Every entry of the payload lands in exactly one part: the amount entries and the
      utilization entries add up to the whole payload. */
  lemma TooltipPartition(payload: seq<TooltipEntry>)
    ensures |Filter(payload, IsAmount)| + |Filter(payload, IsUtilization)| == |payload|
  {
    FilterSplit(payload, IsAmount, IsUtilization);
  }

  lemma {:induction false} FilterSplit<T>(s: seq<T>, p: T -> bool, q: T -> bool)
    requires forall x :: p(x) != q(x)
    ensures |Filter(s, p)| + |Filter(s, q)| == |s|
  {
    if s != [] {
      FilterSplit(s[1..], p, q);
    }
  }

  /** The legend's label table. */
  const CapacityLabels: map<string, string> := map[
    "outstandingBalance" := "Outstanding Balance",
    "idleCash" := "Idle Cash",
    "liquidityCap" := "Liquidity Cap",
    "utilizationRate" := "Utilization Rate"]

  /** The legend formatter: the four series get their labels, any other key is shown as is. */
  function LegendLabel(key: string): (r: string)
    ensures key == "outstandingBalance" ==> r == "Outstanding Balance"
    ensures key == "idleCash" ==> r == "Idle Cash"
    ensures key == "liquidityCap" ==> r == "Liquidity Cap"
    ensures key == "utilizationRate" ==> r == "Utilization Rate"
    ensures key !in CapacityLabels ==> r == key
  {
    ChartCommon.LegendLabel(CapacityLabels, key)
  }
}

/** The two micro charts drawn in the pool headers.

    The details card draws one bar per month: it adds up `net_flow` per month key in a
    `Map` (insertion-ordered, so months keep the order in which they first appear), keeps
    the last six months and scales the bars by the largest magnitude.

    The canvas header (subject and banner carry the same code) draws a sparkline: it keeps
    the `cumulative_position` of the latest row of each month, keeps the last six months,
    places them on an 80x32 canvas with 2px padding, and colours each segment and dot by
    whether the position went up.

    The JavaScript `Map` is modelled as its key order (a sequence) beside its contents
    (a map); `set` on a key already present keeps that key's place. */
module MicroCharts {
  import opened Seqs
  import opened ChartCommon

  /** `date.substring(0, 7)`: the `YYYY-MM` prefix; a shorter string is kept whole. */
  function MonthKey(date: string): (r: string)
    ensures |r| == Min(7, |date|)
    ensures r <= date
  {
    date[..Min(7, |date|)]
  }

  /** The month keys of `rows`, each once, in the order they first appear. */
  function Months(rows: seq<FlowRow>): (r: seq<string>)
    ensures forall i, j :: 0 <= i < j < |r| ==> r[i] != r[j]
  {
    if rows == [] then []
    else
      var before := Months(rows[..|rows| - 1]);
      var k := MonthKey(rows[|rows| - 1].date);
      if k in before then before else before + [k]
  }

  /** The net flow of the rows that fall in month `k`. */
  function MonthNet(rows: seq<FlowRow>, k: string): real
  {
    if rows == [] then 0.0
    else MonthNet(rows[..|rows| - 1], k) + (if MonthKey(rows[|rows| - 1].date) == k then rows[|rows| - 1].netFlow else 0.0)
  }

  /** The cumulative position of the latest row that falls in month `k` (0 if there is none). */
  function MonthLast(rows: seq<FlowRow>, k: string): real
  {
    if rows == [] then 0.0
    else if MonthKey(rows[|rows| - 1].date) == k then rows[|rows| - 1].cumulativePosition
    else MonthLast(rows[..|rows| - 1], k)
  }

  /** The net flow over all rows, `reduce((sum, d) => sum + net_flow, 0)`. */
  function NetSum(rows: seq<FlowRow>): real
  {
    if rows == [] then 0.0 else NetSum(rows[..|rows| - 1]) + rows[|rows| - 1].netFlow
  }

  /** The monthly totals over the months `ks`. */
  function TotalOver(rows: seq<FlowRow>, ks: seq<string>): real
  {
    if ks == [] then 0.0 else TotalOver(rows, ks[..|ks| - 1]) + MonthNet(rows, ks[|ks| - 1])
  }

  /** A month appears in `Months(rows)` exactly when some row falls in it. */
  lemma {:induction false} MonthsCover(rows: seq<FlowRow>, k: string)
    ensures k in Months(rows) <==> exists i :: 0 <= i < |rows| && MonthKey(rows[i].date) == k
  {
    if rows != [] {
      var p := rows[..|rows| - 1];
      MonthsCover(p, k);
      if exists i :: 0 <= i < |p| && MonthKey(p[i].date) == k {
        var i :| 0 <= i < |p| && MonthKey(p[i].date) == k;
        assert rows[i] == p[i];
      }
      if exists i :: 0 <= i < |rows| && MonthKey(rows[i].date) == k {
        var i :| 0 <= i < |rows| && MonthKey(rows[i].date) == k;
        if i < |p| {
          assert p[i] == rows[i];
        }
      }
    }
  }

  /**
   * `Months` keeps the order of first appearance: for an earlier month `Months(rows)[i]`
   * some row of that month comes before every row of a later month `Months(rows)[j]`.
   */
  lemma {:induction false} MonthsFirstSeen(rows: seq<FlowRow>, i: int, j: int)
    requires 0 <= i < j < |Months(rows)|
    ensures exists a :: 0 <= a < |rows| && MonthKey(rows[a].date) == Months(rows)[i] &&
              forall b :: 0 <= b <= a ==> MonthKey(rows[b].date) != Months(rows)[j]
  {
    var p := rows[..|rows| - 1];
    var k := MonthKey(rows[|rows| - 1].date);
    if j < |Months(p)| {
      assert Months(rows)[..|Months(p)|] == Months(p);
      MonthsFirstSeen(p, i, j);
      var a :| 0 <= a < |p| && MonthKey(p[a].date) == Months(p)[i] &&
               forall b :: 0 <= b <= a ==> MonthKey(p[b].date) != Months(p)[j];
      assert rows[a] == p[a];
      assert forall b :: 0 <= b <= a ==> rows[b] == p[b];
    } else {
      assert Months(rows) == Months(p) + [k];
      assert Months(rows)[j] == k && k !in Months(p);
      MonthsCover(p, Months(p)[i]);
      var a :| 0 <= a < |p| && MonthKey(p[a].date) == Months(p)[i];
      assert rows[a] == p[a];
      forall b | 0 <= b <= a
        ensures MonthKey(rows[b].date) != k
      {
        assert rows[b] == p[b];
        MonthsCover(p, MonthKey(p[b].date));
      }
    }
  }

  /** A month in which no row falls has nothing to add up. */
  lemma {:induction false} MonthNetOutside(rows: seq<FlowRow>, k: string)
    requires k !in Months(rows)
    ensures MonthNet(rows, k) == 0.0
  {
    if rows != [] {
      MonthNetOutside(rows[..|rows| - 1], k);
    }
  }

  /** Appending one row adds its net flow to its own month's total and to no other. */
  lemma {:induction false} TotalOverStep(p: seq<FlowRow>, x: FlowRow, ks: seq<string>)
    requires forall i, j :: 0 <= i < j < |ks| ==> ks[i] != ks[j]
    ensures TotalOver(p + [x], ks) == TotalOver(p, ks) + (if MonthKey(x.date) in ks then x.netFlow else 0.0)
  {
    assert (p + [x])[..|p + [x]| - 1] == p;
    if ks != [] {
      var front := ks[..|ks| - 1];
      TotalOverStep(p, x, front);
      assert ks == front + [ks[|ks| - 1]];
      assert MonthKey(x.date) in ks <==> MonthKey(x.date) in front || MonthKey(x.date) == ks[|ks| - 1];
    }
  }

  /** The monthly totals add up to the net flow of all rows: bucketing loses and
      duplicates nothing. */
  lemma {:induction false} MonthTotalsConserve(rows: seq<FlowRow>)
    ensures TotalOver(rows, Months(rows)) == NetSum(rows)
  {
    if rows != [] {
      var p, x := rows[..|rows| - 1], rows[|rows| - 1];
      var k := MonthKey(x.date);
      assert rows == p + [x];
      MonthTotalsConserve(p);
      TotalOverStep(p, x, Months(p));
      if k !in Months(p) {
        MonthNetOutside(p, k);
        assert Months(rows) == Months(p) + [k];
        assert Months(rows)[..|Months(rows)| - 1] == Months(p);
      }
    }
  }

  /** The position kept for a month is that of the latest row in the month. */
  lemma {:induction false} MonthLastIsLatest(rows: seq<FlowRow>, k: string)
    requires k in Months(rows)
    ensures exists i :: (0 <= i < |rows| && MonthKey(rows[i].date) == k && MonthLast(rows, k) == rows[i].cumulativePosition
                         && forall j :: i < j < |rows| ==> MonthKey(rows[j].date) != k)
  {
    var n := |rows| - 1;
    var p := rows[..n];
    if MonthKey(rows[n].date) == k {
      assert MonthLast(rows, k) == rows[n].cumulativePosition;
    } else {
      assert Months(rows) == Months(p) || Months(rows) == Months(p) + [MonthKey(rows[n].date)];
      assert k in Months(p);
      MonthLastIsLatest(p, k);
      var i :| 0 <= i < |p| && MonthKey(p[i].date) == k && MonthLast(p, k) == p[i].cumulativePosition
               && forall j :: i < j < |p| ==> MonthKey(p[j].date) != k;
      assert MonthLast(rows, k) == MonthLast(p, k);
      assert rows[i] == p[i];
      assert forall j :: i < j < n ==> rows[j] == p[j];
      assert forall j :: i < j < |rows| ==> MonthKey(rows[j].date) != k;
    }
  }

  /** What one more row does to the month keys, the monthly totals and the monthly positions. */
  lemma PrefixStep(data: seq<FlowRow>, i: int)
    requires 0 <= i < |data|
    ensures var k := MonthKey(data[i].date);
      Months(data[..i + 1]) == if k in Months(data[..i]) then Months(data[..i]) else Months(data[..i]) + [k]
    ensures forall m :: (MonthNet(data[..i + 1], m) ==
                         MonthNet(data[..i], m) + (if MonthKey(data[i].date) == m then data[i].netFlow else 0.0))
    ensures forall m :: (MonthLast(data[..i + 1], m) ==
                         if MonthKey(data[i].date) == m then data[i].cumulativePosition else MonthLast(data[..i], m))
  {
    var next := data[..i + 1];
    assert next[..|next| - 1] == data[..i] && next[|next| - 1] == data[i];
    forall m
      ensures MonthLast(next, m) == if MonthKey(data[i].date) == m then data[i].cumulativePosition else MonthLast(data[..i], m)
    {
    }
  }

  /** One month on a micro chart. */
  datatype MonthValue = MonthValue(month: string, value: real)

  /** `Array.from(monthMap.entries()).slice(-6)`, pushed one by one into `monthlyData`. */
  method Recent(keys: seq<string>, values: map<string, real>) returns (monthly: seq<MonthValue>)
    requires forall k :: k in keys ==> k in values
    ensures |monthly| == Min(6, |keys|)
    ensures forall j :: 0 <= j < |monthly| ==>
      monthly[j] == MonthValue(keys[|keys| - |monthly| + j], values[keys[|keys| - |monthly| + j]])
  {
    var last := JsSlice(keys, -6, |keys|);
    var from := |keys| - |last|;
    monthly := [];
    for j := 0 to |last|
      invariant |monthly| == j
      invariant forall t :: 0 <= t < j ==> monthly[t] == MonthValue(keys[from + t], values[keys[from + t]])
    {
      monthly := monthly + [MonthValue(last[j], values[last[j]])];
    }
  }

  /** The details card's `monthMap`: `set(month, (get(month) || 0) + net_flow)` for every
      row. Its keys are the months in order of first appearance, each holding its total. */
  method MonthTotals(data: seq<FlowRow>) returns (keys: seq<string>, totals: map<string, real>)
    ensures keys == Months(data)
    ensures forall k :: k in totals <==> k in keys
    ensures forall k :: k in totals ==> totals[k] == MonthNet(data, k)
  {
    keys := [];
    totals := map[];
    for i := 0 to |data|
      invariant keys == Months(data[..i])
      invariant forall k :: k in totals <==> k in keys
      invariant forall k :: k in totals ==> totals[k] == MonthNet(data[..i], k)
    {
      PrefixStep(data, i);
      var k := MonthKey(data[i].date);
      if k !in keys {
        MonthNetOutside(data[..i], k);
      }
      var current := if k in totals && totals[k] != 0.0 then totals[k] else 0.0;
      assert current == MonthNet(data[..i], k);
      ghost var before := totals;
      totals := totals[k := current + data[i].netFlow];
      forall m | m in totals
        ensures totals[m] == MonthNet(data[..i + 1], m)
      {
        if m != k {
          assert totals[m] == before[m];
        }
      }
      if k !in keys {
        keys := keys + [k];
      }
    }
    assert data[..|data|] == data;
  }

  /** The details card's months: the last six entries of its `monthMap`. */
  /** `monthly` holds the last six months of `data` (fewer when there are fewer), in
      order, each with its net flow. */
  ghost predicate NetMonths(monthly: seq<MonthValue>, data: seq<FlowRow>)
  {
    && |monthly| == Min(6, |Months(data)|)
    && forall j :: 0 <= j < |monthly| ==>
      var k := Months(data)[|Months(data)| - |monthly| + j];
      monthly[j] == MonthValue(k, MonthNet(data, k))
  }

  method MonthlyNetFlows(data: seq<FlowRow>) returns (monthly: seq<MonthValue>)
    ensures NetMonths(monthly, data)
  {
    var keys, totals := MonthTotals(data);
    monthly := Recent(keys, totals);
    forall j | 0 <= j < |monthly|
      ensures var k := Months(data)[|Months(data)| - |monthly| + j];
        monthly[j] == MonthValue(k, MonthNet(data, k))
    {
      var k := keys[|keys| - |monthly| + j];
      assert k in keys && totals[k] == MonthNet(data, k);
    }
  }

  /** The canvas header's bucketing: `monthMap.set(month, cumulative_position)` for every
      row, so the latest row of a month wins, then the last six months. */
  /** `monthly` holds the last six months of `data` (fewer when there are fewer), in
      order, each with the position of its latest row. */
  ghost predicate LatestMonths(monthly: seq<MonthValue>, data: seq<FlowRow>)
  {
    && |monthly| == Min(6, |Months(data)|)
    && forall j :: 0 <= j < |monthly| ==>
      var k := Months(data)[|Months(data)| - |monthly| + j];
      monthly[j] == MonthValue(k, MonthLast(data, k))
  }

  /** The header's `monthMap`: its keys are the months in order of first appearance, each
      holding the position of its latest row. */
  method LatestPositions(data: seq<FlowRow>) returns (keys: seq<string>, latest: map<string, real>)
    ensures keys == Months(data)
    ensures forall k :: k in latest <==> k in keys
    ensures forall k :: k in latest ==> latest[k] == MonthLast(data, k)
  {
    keys := [];
    latest := map[];
    for i := 0 to |data|
      invariant keys == Months(data[..i])
      invariant forall k :: k in latest <==> k in keys
      invariant forall k :: k in latest ==> latest[k] == MonthLast(data[..i], k)
    {
      PrefixStep(data, i);
      var k := MonthKey(data[i].date);
      ghost var before := latest;
      latest := latest[k := data[i].cumulativePosition];
      forall m | m in latest
        ensures latest[m] == MonthLast(data[..i + 1], m)
      {
        if m != k {
          assert latest[m] == before[m];
        }
      }
      if k !in keys {
        keys := keys + [k];
      }
    }
    assert data[..|data|] == data;
  }

  method MonthlyPositions(data: seq<FlowRow>) returns (monthly: seq<MonthValue>)
    ensures LatestMonths(monthly, data)
  {
    var keys, latest := LatestPositions(data);
    monthly := Recent(keys, latest);
    forall j | 0 <= j < |monthly|
      ensures var k := Months(data)[|Months(data)| - |monthly| + j];
        monthly[j] == MonthValue(k, MonthLast(data, k))
    {
      var k := keys[|keys| - |monthly| + j];
      assert k in keys && latest[k] == MonthLast(data, k);
    }
  }

  // ---------------------------------------------------------------- bars

  /** The card's `formatCurrency`: billions, millions and thousands with one decimal from
      the threshold upwards, whole dollars below. There is no magnitude here, so a negative
      value is never abbreviated. */
  function CardCurrency(v: real): (r: Compact)
    ensures r.suffix == "B" <==> v >= 1000000000.0
    ensures r.suffix == "M" <==> 1000000.0 <= v < 1000000000.0
    ensures r.suffix == "K" <==> 1000.0 <= v < 1000000.0
    ensures r.suffix == "" <==> v < 1000.0
    ensures r.scaled * CardUnit(r.suffix) == v
    ensures r.digits == (if r.suffix == "" then 0 else 1)
  {
    if v >= 1000000000.0 then Compact(v / 1000000000.0, "B", 1)
    else if v >= 1000000.0 then Compact(v / 1000000.0, "M", 1)
    else if v >= 1000.0 then Compact(v / 1000.0, "K", 1)
    else Compact(v, "", 0)
  }

  function CardUnit(suffix: string): real
  {
    if suffix == "B" then 1000000000.0 else if suffix == "M" then 1000000.0
    else if suffix == "K" then 1000.0 else 1.0
  }

  /** `Math.max(...values.map(Math.abs), 1)`. */
  function MaxAbs(values: seq<real>): (r: real)
    ensures r >= 1.0
    ensures forall i :: 0 <= i < |values| ==> Abs(values[i]) <= r
    ensures r == 1.0 || exists i :: 0 <= i < |values| && r == Abs(values[i])
  {
    if values == [] then 1.0
    else
      var before := MaxAbs(values[..|values| - 1]);
      var last := Abs(values[|values| - 1]);
      assert forall i :: 0 <= i < |values| - 1 ==> values[i] == values[..|values| - 1][i];
      if last > before then last else before
  }

  lemma FractionInUnit(a: real, b: real)
    requires 0.0 <= a <= b && b > 0.0
    ensures 0.0 <= a / b <= 1.0
  {
  }

  /** `Math.max(|v| / maxAbs * 32, 4)`: never below 4px or above 32px, and full height
      for the month of largest magnitude. */
  function BarHeight(v: real, maxAbs: real): (h: real)
    requires maxAbs >= 1.0 && Abs(v) <= maxAbs
    ensures 4.0 <= h <= 32.0
    ensures Abs(v) == maxAbs ==> h == 32.0
    ensures Abs(v) * 32.0 <= h * maxAbs
    ensures h > 4.0 ==> h * maxAbs == Abs(v) * 32.0
  {
    FractionInUnit(Abs(v), maxAbs);
    var scaled := Abs(v) / maxAbs * 32.0;
    assert scaled * maxAbs == Abs(v) * 32.0;
    if scaled >= 4.0 then scaled else 4.0
  }

  /** A month of larger magnitude never gets a shorter bar. */
  lemma BarHeightMonotone(u: real, v: real, maxAbs: real)
    requires maxAbs >= 1.0 && Abs(u) <= Abs(v) <= maxAbs
    ensures BarHeight(u, maxAbs) <= BarHeight(v, maxAbs)
  {
    var hu, hv := BarHeight(u, maxAbs), BarHeight(v, maxAbs);
    if hu > 4.0 {
      assert hu * maxAbs == Abs(u) * 32.0;
      assert Abs(u) * 32.0 <= Abs(v) * 32.0 <= hv * maxAbs;
      ScaleBack(hu, hv, maxAbs);
    }
  }

  /** The heights over `values` against one top follow the magnitudes. */
  lemma HeightsOrdered(values: seq<real>, top: real)
    requires top >= 1.0 && forall i :: 0 <= i < |values| ==> Abs(values[i]) <= top
    ensures forall i, j :: 0 <= i < |values| && 0 <= j < |values| && Abs(values[i]) <= Abs(values[j]) ==>
      BarHeight(values[i], top) <= BarHeight(values[j], top)
  {
    forall i, j | 0 <= i < |values| && 0 <= j < |values| && Abs(values[i]) <= Abs(values[j])
      ensures BarHeight(values[i], top) <= BarHeight(values[j], top)
    {
      BarHeightMonotone(values[i], values[j], top);
    }
  }

  /** One bar: its height, its colour (green or red) and its `title` text parts. */
  datatype Bar = Bar(month: string, height: real, green: bool, sign: string, amount: Compact)

  function Bars(monthly: seq<MonthValue>): (r: seq<Bar>)
    ensures |r| == |monthly|
    ensures forall i :: 0 <= i < |r| ==>
      && r[i].month == monthly[i].month
      && r[i].height == BarHeight(monthly[i].value, MaxAbs(Values(monthly)))
      && (r[i].green <==> monthly[i].value >= 0.0)
      && (r[i].sign == "+" <==> monthly[i].value >= 0.0)
      && (r[i].sign == "" <==> monthly[i].value < 0.0)
      && r[i].amount == CardCurrency(monthly[i].value)
    ensures forall i, j :: 0 <= i < |r| && 0 <= j < |r| && Abs(monthly[i].value) <= Abs(monthly[j].value) ==>
      r[i].height <= r[j].height
  {
    var top := MaxAbs(Values(monthly));
    HeightsOrdered(Values(monthly), top);
    seq(|monthly|, (i: int) requires 0 <= i < |monthly| =>
      var v := monthly[i].value;
      Bar(monthly[i].month, BarHeight(v, top), v >= 0.0, if v >= 0.0 then "+" else "", CardCurrency(v)))
  }

  /** The bar chart of the details card: six grey blocks without data. */
  datatype BarChart = Placeholder(blocks: nat) | BarsOf(bars: seq<Bar>)

  method CardMicroChart(data: seq<FlowRow>) returns (chart: BarChart)
    ensures chart.Placeholder? <==> data == []
    ensures chart.Placeholder? ==> chart.blocks == 6
    ensures chart.BarsOf? ==> 1 <= |chart.bars| <= 6 && |chart.bars| == Min(6, |Months(data)|)
    ensures chart.BarsOf? ==> BarsFor(chart.bars, Months(data), RecentNets(data, |chart.bars|))
  {
    if |data| == 0 {
      return Placeholder(6);
    }
    MonthsCover(data, MonthKey(data[0].date));
    var monthly := MonthlyNetFlows(data);
    ghost var nets := RecentNets(data, |monthly|);
    NetValues(data, monthly);
    BarsOver(monthly, Months(data), nets);
    chart := BarsOf(Bars(monthly));
  }

  /**
   * `bars` draw the months at the tail of `keys` with net flows `nets`: each bar is named
   * after its month, is as tall as `BarHeight` makes it against the largest magnitude, is
   * green exactly when its flow is not negative, and a larger magnitude never has a shorter bar.
   */
  predicate BarsFor(bars: seq<Bar>, keys: seq<string>, nets: seq<real>)
  {
    && |bars| == |nets| <= |keys|
    && (forall j :: 0 <= j < |bars| ==>
      && bars[j].month == keys[|keys| - |bars| + j]
      && bars[j].height == BarHeight(nets[j], MaxAbs(nets))
      && (bars[j].green <==> nets[j] >= 0.0)
      && bars[j].amount == CardCurrency(nets[j]))
    && (forall i, j :: 0 <= i < |bars| && 0 <= j < |bars| && Abs(nets[i]) <= Abs(nets[j]) ==>
      bars[i].height <= bars[j].height)
  }

  lemma BarsOver(monthly: seq<MonthValue>, keys: seq<string>, nets: seq<real>)
    requires |monthly| == |nets| <= |keys|
    requires forall j :: 0 <= j < |monthly| ==> monthly[j] == MonthValue(keys[|keys| - |monthly| + j], nets[j])
    ensures BarsFor(Bars(monthly), keys, nets)
  {
    var bars := Bars(monthly);
    assert Values(monthly) == nets;
    forall j | 0 <= j < |bars|
      ensures bars[j].month == keys[|keys| - |bars| + j]
      ensures bars[j].height == BarHeight(nets[j], MaxAbs(nets))
    {
      assert monthly[j].value == nets[j];
    }
  }

  /** The card's months carry the net flows of the last months of the rows. */
  lemma NetValues(data: seq<FlowRow>, monthly: seq<MonthValue>)
    requires NetMonths(monthly, data)
    ensures forall j :: 0 <= j < |monthly| ==>
      monthly[j] == MonthValue(Months(data)[|Months(data)| - |monthly| + j], RecentNets(data, |monthly|)[j])
  {
  }

  /** The net flows of the last `c` months of `data`, oldest first. */
  function RecentNets(data: seq<FlowRow>, c: nat): (r: seq<real>)
    requires c <= |Months(data)|
    ensures |r| == c
    ensures forall j :: 0 <= j < c ==> r[j] == MonthNet(data, Months(data)[|Months(data)| - c + j])
  {
    var months := Months(data);
    seq(c, (j: int) requires 0 <= j < c => MonthNet(data, months[|months| - c + j]))
  }

  // ---------------------------------------------------------------- sparkline

  function MinOf(values: seq<real>): (r: real)
    requires values != []
    ensures forall i :: 0 <= i < |values| ==> r <= values[i]
    ensures exists i :: 0 <= i < |values| && r == values[i]
  {
    if |values| == 1 then values[0]
    else
      var before := MinOf(values[..|values| - 1]);
      assert forall i :: 0 <= i < |values| - 1 ==> values[i] == values[..|values| - 1][i];
      if values[|values| - 1] < before then values[|values| - 1] else before
  }

  function MaxOf(values: seq<real>): (r: real)
    requires values != []
    ensures forall i :: 0 <= i < |values| ==> values[i] <= r
    ensures exists i :: 0 <= i < |values| && r == values[i]
  {
    if |values| == 1 then values[0]
    else
      var before := MaxOf(values[..|values| - 1]);
      assert forall i :: 0 <= i < |values| - 1 ==> values[i] == values[..|values| - 1][i];
      if values[|values| - 1] > before then values[|values| - 1] else before
  }

  /** `maxVal - minVal || 1`: the spread, or 1 when every value is the same. */
  function Spread(lo: real, hi: real): (r: real)
    requires lo <= hi
    ensures r > 0.0
    ensures hi > lo ==> r == hi - lo
  {
    if hi - lo == 0.0 then 1.0 else hi - lo
  }

  /** The horizontal place of point `i` of `n`: 2px padding, 76px of usable width. */
  function X(i: int, n: int): real
    requires 0 <= i < n && n >= 2
  {
    2.0 + (i as real / (n - 1) as real) * 76.0
  }

  /** The vertical place of `v`: 30 for the lowest value, 2 for the highest. */
  function Y(v: real, lo: real, range: real): real
    requires range > 0.0
  {
    30.0 - ((v - lo) / range) * 28.0
  }

  lemma XOrder(i: int, j: int, n: int)
    requires 0 <= i < j < n && n >= 2
    ensures X(0, n) == 2.0 && X(n - 1, n) == 78.0
    ensures X(i, n) < X(j, n)
  {
    var d := (n - 1) as real;
    assert d > 0.0 && d / d == 1.0;
    assert j as real / d - i as real / d == (j - i) as real / d;
    assert (j - i) as real / d > 0.0;
  }

  /** A larger value is drawn strictly higher up (at a smaller y), and only a larger one. */
  lemma YOrder(u: real, v: real, lo: real, range: real)
    requires range > 0.0
    ensures u < v <==> Y(v, lo, range) < Y(u, lo, range)
  {
    assert Y(u, lo, range) - Y(v, lo, range) == (v - u) / range * 28.0;
  }

  lemma YWithin(v: real, lo: real, hi: real)
    requires lo <= v <= hi
    ensures 2.0 <= Y(v, lo, Spread(lo, hi)) <= 30.0
    ensures v == lo ==> Y(v, lo, Spread(lo, hi)) == 30.0
    ensures v == hi && hi > lo ==> Y(v, lo, Spread(lo, hi)) == 2.0
  {
    FractionInUnit(v - lo, Spread(lo, hi));
  }

  datatype SparkPoint = SparkPoint(x: real, y: real, value: real, month: string)

  function Values(monthly: seq<MonthValue>): (r: seq<real>)
    ensures |r| == |monthly| && forall i :: 0 <= i < |r| ==> r[i] == monthly[i].value
  {
    seq(|monthly|, (i: int) requires 0 <= i < |monthly| => monthly[i].value)
  }

  /** Point `i` placed on the canvas, scaled between the lowest and the highest value. */
  function Place(monthly: seq<MonthValue>, i: int): (p: SparkPoint)
    requires |monthly| >= 2 && 0 <= i < |monthly|
    ensures p.x == X(i, |monthly|)
    ensures 2.0 <= p.y <= 30.0
    ensures p.value == monthly[i].value && p.month == monthly[i].month
  {
    var values := Values(monthly);
    var lo, hi := MinOf(values), MaxOf(values);
    YWithin(values[i], lo, hi);
    SparkPoint(X(i, |monthly|), Y(values[i], lo, Spread(lo, hi)), values[i], monthly[i].month)
  }

  /** Points spread over the canvas: x runs from 2 to 78 in increasing steps, every y
      lies in [2, 30], and one point lies above another exactly when its value is larger. */
  predicate Placed(points: seq<SparkPoint>)
  {
    && |points| >= 2
    && points[0].x == 2.0 && points[|points| - 1].x == 78.0
    && (forall i, j :: 0 <= i < j < |points| ==> points[i].x < points[j].x)
    && (forall i :: 0 <= i < |points| ==> 2.0 <= points[i].y <= 30.0)
    && (forall i, j :: 0 <= i < |points| && 0 <= j < |points| ==>
          (points[i].value < points[j].value <==> points[j].y < points[i].y))
  }

  function PointValues(points: seq<SparkPoint>): (r: seq<real>)
    ensures |r| == |points| && forall i :: 0 <= i < |r| ==> r[i] == points[i].value
  {
    seq(|points|, (i: int) requires 0 <= i < |points| => points[i].value)
  }

  /** The exact places: point `i` of `n` at `X(i, n)`, and its value scaled between the
      lowest and the highest of the values plotted. */
  predicate Scaled(points: seq<SparkPoint>)
    requires |points| >= 2
  {
    var lo, hi := MinOf(PointValues(points)), MaxOf(PointValues(points));
    forall i :: 0 <= i < |points| ==>
      points[i].x == X(i, |points|) && points[i].y == Y(points[i].value, lo, Spread(lo, hi))
  }

  /** The placed points. */
  function Points(monthly: seq<MonthValue>): (r: seq<SparkPoint>)
    requires |monthly| >= 2
    ensures |r| == |monthly| && Placed(r) && Scaled(r)
    ensures forall i :: 0 <= i < |r| ==> r[i].value == monthly[i].value && r[i].month == monthly[i].month
  {
    var n := |monthly|;
    var r := seq(n, (i: int) requires 0 <= i < n => Place(monthly, i));
    assert PlacedFrom(monthly, r);
    PlacesPlaced(monthly, r);
    PlacesScaled(monthly, r);
    r
  }

  /** `r` holds every month of `monthly` placed by `Place`. */
  predicate PlacedFrom(monthly: seq<MonthValue>, r: seq<SparkPoint>)
  {
    |monthly| >= 2 && |r| == |monthly| && forall i :: 0 <= i < |r| ==> r[i] == Place(monthly, i)
  }

  lemma PlacesPlaced(monthly: seq<MonthValue>, r: seq<SparkPoint>)
    requires PlacedFrom(monthly, r)
    ensures Placed(r)
    ensures forall i :: 0 <= i < |r| ==> r[i].value == monthly[i].value && r[i].month == monthly[i].month
  {
    var n := |r|;
    forall i, j | 0 <= i < j < n
      ensures r[i].x < r[j].x
    {
      XOrder(i, j, n);
    }
    XOrder(0, n - 1, n);
    var lo, hi := MinOf(Values(monthly)), MaxOf(Values(monthly));
    forall i, j | 0 <= i < n && 0 <= j < n
      ensures r[i].value < r[j].value <==> r[j].y < r[i].y
    {
      YOrder(r[i].value, r[j].value, lo, Spread(lo, hi));
    }
  }

  lemma PlacesScaled(monthly: seq<MonthValue>, r: seq<SparkPoint>)
    requires PlacedFrom(monthly, r)
    ensures Scaled(r)
  {
    assert PointValues(r) == Values(monthly);
  }

  datatype Segment = Segment(x1: real, y1: real, x2: real, y2: real, increasing: bool)

  /** One segment per pair of neighbouring points, increasing when the position did not fall. */
  predicate Joins(segments: seq<Segment>, points: seq<SparkPoint>)
  {
    && |segments| == Max(0, |points| - 1)
    && forall i :: 0 <= i < |segments| ==>
      && segments[i].x1 == points[i].x && segments[i].y1 == points[i].y
      && segments[i].x2 == points[i + 1].x && segments[i].y2 == points[i + 1].y
      && (segments[i].increasing <==> points[i + 1].value >= points[i].value)
  }

  /** The segment loop. */
  method Segments(points: seq<SparkPoint>) returns (segments: seq<Segment>)
    ensures Joins(segments, points)
  {
    segments := [];
    var i := 0;
    while i < |points| - 1
      invariant 0 <= i <= Max(0, |points| - 1)
      invariant |segments| == i
      invariant forall t :: 0 <= t < i ==>
        && segments[t].x1 == points[t].x && segments[t].y1 == points[t].y
        && segments[t].x2 == points[t + 1].x && segments[t].y2 == points[t + 1].y
        && (segments[t].increasing <==> points[t + 1].value >= points[t].value)
    {
      segments := segments + [Segment(points[i].x, points[i].y, points[i + 1].x, points[i + 1].y,
                                      points[i + 1].value >= points[i].value)];
      i := i + 1;
    }
  }

  /** A dot and its `title` amount. The first dot is green; every later one is green when
      its value did not fall below the previous one. */
  datatype Dot = Dot(x: real, y: real, green: bool, amount: Compact)

  function Dots(points: seq<SparkPoint>): (r: seq<Dot>)
    ensures |r| == |points|
    ensures |r| > 0 ==> r[0].green
    ensures forall i :: 0 < i < |r| ==> (r[i].green <==> points[i].value >= points[i - 1].value)
    ensures forall i :: 0 <= i < |r| ==> r[i].x == points[i].x && r[i].y == points[i].y
                                         && r[i].amount == CardCurrency(points[i].value)
  {
    seq(|points|, (i: int) requires 0 <= i < |points| =>
      Dot(points[i].x, points[i].y, i == 0 || points[i].value >= points[i - 1].value, CardCurrency(points[i].value)))
  }

  /** Every dot after the first has the colour of the segment that ends at it. */
  lemma DotsMatchSegments(points: seq<SparkPoint>, segments: seq<Segment>)
    requires Joins(segments, points)
    ensures forall i :: 0 < i < |points| ==> (Dots(points)[i].green <==> segments[i - 1].increasing)
  {
  }

  /** The sparkline: a flat dashed line, or the plotted points, segments and dots. */
  datatype Sparkline = Flat | Plot(points: seq<SparkPoint>, segments: seq<Segment>, dots: seq<Dot>)

  /** The points stand for the last six months of `data`, in order, each at the position
      of the month's latest row. */
  ghost predicate ShowsLatest(points: seq<SparkPoint>, data: seq<FlowRow>)
  {
    var months := Months(data);
    && |points| == Min(6, |months|)
    && forall j :: 0 <= j < |points| ==>
      && points[j].month == months[|months| - |points| + j]
      && points[j].value == MonthLast(data, points[j].month)
  }

  lemma LatestShown(data: seq<FlowRow>, monthly: seq<MonthValue>, points: seq<SparkPoint>)
    requires LatestMonths(monthly, data)
    requires |points| == |monthly|
    requires forall j :: 0 <= j < |monthly| ==> points[j].month == monthly[j].month && points[j].value == monthly[j].value
    ensures ShowsLatest(points, data)
  {
  }

  /** The drawing of two or more months. */
  method Draw(monthly: seq<MonthValue>) returns (chart: Sparkline)
    requires |monthly| >= 2
    ensures chart.Plot? && Placed(chart.points) && Scaled(chart.points)
    ensures Joins(chart.segments, chart.points) && chart.dots == Dots(chart.points)
    ensures |chart.points| == |monthly|
    ensures forall j :: 0 <= j < |monthly| ==> chart.points[j].month == monthly[j].month && chart.points[j].value == monthly[j].value
  {
    var points := Points(monthly);
    var segments := Segments(points);
    chart := Plot(points, segments, Dots(points));
  }

  method SubjectMicroChart(data: seq<FlowRow>) returns (chart: Sparkline)
    ensures chart.Flat? <==> |Months(data)| < 2
    ensures chart.Plot? ==>
      && ShowsLatest(chart.points, data)
      && Placed(chart.points)
      && Scaled(chart.points)
      && Joins(chart.segments, chart.points)
      && chart.dots == Dots(chart.points)
  {
    if |data| == 0 {
      return Flat;
    }
    var monthly := MonthlyPositions(data);
    if |monthly| < 2 {
      return Flat;
    }
    chart := Draw(monthly);
    LatestShown(data, monthly, chart.points);
  }
}

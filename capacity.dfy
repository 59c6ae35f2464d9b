/** `generatePoolCapacityData` of lib/api/mocks.ts: a liquidity cap drawn once at 120-150%
    of TVL, and outstanding and idle balances that drift by a few percent per period and are
    clamped at zero. The first `Math.random()` value is `capDraw`; each period then consumes
    one `CapacityDraw`, outstanding first. */
module CapacityData {
  import opened Wrappers
  import opened Seqs
  import opened Types
  import opened Series
  import opened Mocks

  datatype CapacityDraw = CapacityDraw(outstanding: real, idle: real)

  datatype Balances = Balances(outstanding: real, idle: real)

  datatype CapacityPoint = CapacityPoint(
    date: int,
    liquidityCap: int,
    outstandingBalance: real,
    idleCash: real,
    tvl: real,
    availableCapacity: real,
    utilizationRate: real)

  datatype Current = Current(
    liquidityCap: int,
    outstandingBalance: real,
    idleCash: real,
    availableCapacity: real,
    utilizationRate: real)

  /** `current` is read from `data[data.length - 1]`; with no points that read fails. */
  datatype CapacityResponse = CapacityResponse(
    poolId: string,
    poolName: string,
    assetSymbol: string,
    data: seq<CapacityPoint>,
    current: Result<Current, string>,
    pagination: SeriesPage)

  function RMax(a: real, b: real): real { if a >= b then a else b }

  /** One period's drift: outstanding moves by -3%..+3%, idle cash by -4%..+4%, each clamped at 0. */
  function Drift(b: Balances, d: CapacityDraw): (r: Balances)
    ensures r.outstanding >= 0.0 && r.idle >= 0.0
    ensures b.outstanding + b.outstanding * (d.outstanding * 0.06 - 0.03) >= 0.0 ==>
      r.outstanding == b.outstanding + b.outstanding * (d.outstanding * 0.06 - 0.03)
    ensures b.idle + b.idle * (d.idle * 0.08 - 0.04) >= 0.0 ==>
      r.idle == b.idle + b.idle * (d.idle * 0.08 - 0.04)
    ensures b.outstanding + b.outstanding * (d.outstanding * 0.06 - 0.03) < 0.0 ==> r.outstanding == 0.0
    ensures b.idle + b.idle * (d.idle * 0.08 - 0.04) < 0.0 ==> r.idle == 0.0
  {
    Balances(
      RMax(0.0, b.outstanding + b.outstanding * (d.outstanding * 0.06 - 0.03)),
      RMax(0.0, b.idle + b.idle * (d.idle * 0.08 - 0.04)))
  }

  /** The balances after the draws of the first `|ds|` periods. */
  function Evolve(start: Balances, ds: seq<CapacityDraw>): Balances
  {
    if ds == [] then start else Drift(Evolve(start, ds[..|ds| - 1]), ds[|ds| - 1])
  }

  /** For a draw from [0, 1), a non-negative outstanding balance stays within 3% of its
      previous value (it can only be clamped when it is already 0). */
  lemma DriftBand(b: Balances, d: CapacityDraw)
    requires b.outstanding >= 0.0 && UnitDraw(d.outstanding)
    ensures b.outstanding * 0.97 <= Drift(b, d).outstanding <= b.outstanding * 1.03
  {
    var o := b.outstanding;
    var c := d.outstanding * 0.06 - 0.03;
    assert -0.03 <= c < 0.03;
    BandProduct(o, c, 0.03);
    assert o * 0.97 <= o + o * c <= o * 1.03;
    assert Drift(b, d).outstanding == o + o * c;
  }

  /** For a draw from [0, 1), non-negative idle cash stays within 4% of its previous value. */
  lemma IdleDriftBand(b: Balances, d: CapacityDraw)
    requires b.idle >= 0.0 && UnitDraw(d.idle)
    ensures b.idle * 0.96 <= Drift(b, d).idle <= b.idle * 1.04
  {
    var i := b.idle;
    var c := d.idle * 0.08 - 0.04;
    assert -0.04 <= c < 0.04;
    BandProduct(i, c, 0.04);
    assert i * 0.96 <= i + i * c <= i * 1.04;
    assert Drift(b, d).idle == i + i * c;
  }

  lemma BandProduct(o: real, c: real, w: real)
    requires o >= 0.0 && w >= 0.0 && -w <= c <= w
    ensures -w * o <= o * c <= w * o
  {
    MulNonNegReal(o, w - c);
    MulNonNegReal(o, c + w);
    assert o * (w - c) == w * o - o * c;
    assert o * (c + w) == o * c + w * o;
  }

  lemma MulNonNegReal(x: real, y: real)
    requires x >= 0.0 && y >= 0.0
    ensures x * y >= 0.0
  {
  }

  /** The opening balances: `utilizationRate` percent of TVL outstanding, the rest idle. */
  function Opening(baseTvl: int, utilization: real): (b: Balances)
    ensures b.outstanding + b.idle == baseTvl as real
  {
    var o := baseTvl as real * (utilization / 100.0);
    Balances(o, baseTvl as real - o)
  }

  /** `Math.round(baseTvl * (1.2 + Math.random() * 0.3))`. */
  function LiquidityCap(baseTvl: int, capDraw: real): int
  {
    Round(baseTvl as real * (1.2 + capDraw * 0.3))
  }

  /** The cap is never 0 for a non-zero TVL, so the utilization quotient is always defined;
      for a positive TVL it lies between 120% and 150% of TVL, up to rounding. */
  lemma CapNonZero(baseTvl: int, capDraw: real)
    requires baseTvl != 0 && UnitDraw(capDraw)
    ensures LiquidityCap(baseTvl, capDraw) != 0
    ensures baseTvl > 0 ==> var c := LiquidityCap(baseTvl, capDraw) as real;
      baseTvl as real * 1.2 - 0.5 <= c <= baseTvl as real * 1.5 + 0.5
  {
    var b := baseTvl as real;
    var x := b * (1.2 + capDraw * 0.3);
    var k := 1.2 + capDraw * 0.3;
    assert 1.2 <= k < 1.5;
    if baseTvl > 0 {
      assert b >= 1.0;
      MulNonNegReal(b, k - 1.2);
      assert b * k - b * 1.2 == b * (k - 1.2);
      MulNonNegReal(b, 1.5 - k);
      assert b * 1.5 - b * k == b * (1.5 - k);
    } else {
      assert b <= -1.0;
      MulNonNegReal(-b, k - 1.2);
      assert b * 1.2 - b * k == (-b) * (k - 1.2);
      assert b * k <= b * 1.2 <= -1.2;
    }
  }

  /** What every row satisfies: balances clamped at zero, TVL their sum, available capacity
      the cap minus TVL, and utilization the outstanding share of the cap. */
  predicate Coherent(p: CapacityPoint)
  {
    && p.outstandingBalance >= 0.0 && p.idleCash >= 0.0
    && p.tvl == p.outstandingBalance + p.idleCash
    && p.availableCapacity == p.liquidityCap as real - p.tvl
    && p.utilizationRate * p.liquidityCap as real == p.outstandingBalance
  }

  function PointOf(date: int, cap: int, b: Balances): (p: CapacityPoint)
    requires cap != 0
    ensures p.date == date && p.liquidityCap == cap && p.outstandingBalance == b.outstanding && p.idleCash == b.idle
    ensures b.outstanding >= 0.0 && b.idle >= 0.0 ==> Coherent(p)
  {
    var tvl := b.outstanding + b.idle;
    CapacityPoint(date, cap, b.outstanding, b.idle, tvl, cap as real - tvl, b.outstanding / cap as real)
  }

  /** The loop of `generatePoolCapacityData`, counting down from `numPoints - 1` to 0. */
  method CapacityRows(w: Window, cap: int, start: Balances, draws: seq<CapacityDraw>) returns (data: seq<CapacityPoint>)
    requires |draws| >= w.count && cap != 0
    ensures |data| == w.count
    ensures forall k :: 0 <= k < |data| ==>
      data[k] == PointOf(PointDate(w, k), cap, Evolve(start, draws[..k + 1]))
    ensures forall k :: 0 <= k < |data| ==> Coherent(data[k])
  {
    data := [];
    var current := start;
    var i := w.count - 1;
    while i >= 0
      invariant -1 <= i < w.count
      invariant |data| == w.count - 1 - i
      invariant current == Evolve(start, draws[..|data|])
      invariant forall k :: 0 <= k < |data| ==>
        data[k] == PointOf(PointDate(w, k), cap, Evolve(start, draws[..k + 1]))
      invariant forall k :: 0 <= k < |data| ==> Coherent(data[k])
    {
      var date := w.end - i * w.step;
      assert date == PointDate(w, |data|);
      assert draws[..|data| + 1][..|data|] == draws[..|data|];
      current := Drift(current, draws[|data|]);
      data := data + [PointOf(date, cap, current)];
      i := i - 1;
    }
  }

  /** `generatePoolCapacityData(poolId, filters)`. */
  method GeneratePoolCapacityData(store: Store, poolId: string, f: SeriesFilters, today: int,
                                  capDraw: real, draws: seq<CapacityDraw>)
    returns (r: CapacityResponse)
    requires UnitDraw(capDraw)
    requires |draws| >= MakeWindow(f, today, Daily, 100).count
    ensures var w := MakeWindow(f, today, Daily, 100);
      && r.poolId == poolId && |r.data| == w.count
      && r.pagination == PageInfo(|r.data|, w, f)
      && r.poolName == PoolName(store, poolId) && r.assetSymbol == AssetSymbol(store, poolId)
    ensures var w := MakeWindow(f, today, Daily, 100);
      var cap := LiquidityCap(BaseTvl(store, poolId), capDraw);
      var start := Opening(BaseTvl(store, poolId), StartUtilization(store, poolId));
      forall k :: 0 <= k < |r.data| ==>
        && r.data[k].date == PointDate(w, k)
        && r.data[k].liquidityCap == cap
        && r.data[k].outstandingBalance == Evolve(start, draws[..k + 1]).outstanding
        && r.data[k].idleCash == Evolve(start, draws[..k + 1]).idle
    ensures forall k :: 0 <= k < |r.data| ==> Coherent(r.data[k])
    ensures r.current.Failure? <==> r.data == []
    ensures r.current.Success? ==> var last := r.data[|r.data| - 1];
      r.current.value == Current(last.liquidityCap, last.outstandingBalance, last.idleCash,
                                 last.availableCapacity, last.utilizationRate)
  {
    var w := MakeWindow(f, today, Daily, 100);
    var baseTvl := BaseTvl(store, poolId);
    var cap := LiquidityCap(baseTvl, capDraw);
    CapNonZero(baseTvl, capDraw);
    var start := Opening(baseTvl, StartUtilization(store, poolId));
    var data := CapacityRows(w, cap, start, draws);
    var current: Result<Current, string>;
    if |data| == 0 {
      current := Failure("Cannot read properties of undefined (reading 'liquidity_cap')");
    } else {
      var latest := data[|data| - 1];
      current := Success(Current(latest.liquidityCap, latest.outstandingBalance, latest.idleCash,
                                 latest.availableCapacity, latest.utilizationRate));
    }
    r := CapacityResponse(poolId, PoolName(store, poolId), AssetSymbol(store, poolId), data, current, PageInfo(|data|, w, f));
  }
}

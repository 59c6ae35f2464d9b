/** The fixture helpers of lib/api/mocks.ts: a protocol with its pools, a pool with its
    loans, a pool merged with its extension record, and the dashboard summary. */
module Mocks {
  import opened Wrappers
  import opened Seqs
  import opened Types

  datatype ProtocolWithPools = ProtocolWithPools(protocol: Protocol, pools: seq<Pool>)
  datatype PoolWithLoans = PoolWithLoans(pool: Pool, loans: seq<Loan>)

  function PoolsOf(protocolId: string): Pool -> bool { (p: Pool) => p.protocolId == protocolId }
  function LoansOf(poolId: string): Loan -> bool { (l: Loan) => l.poolId == poolId }

  /** Pool `i` is the first pool with the id, the one `find` returns. */
  ghost predicate FirstPool(pools: seq<Pool>, id: string, i: int)
  {
    0 <= i < |pools| && pools[i].id == id && forall j :: 0 <= j < i ==> pools[j].id != id
  }

  /** Protocol `i` is the first protocol with the id. */
  ghost predicate FirstProtocol(protocols: seq<Protocol>, id: string, i: int)
  {
    0 <= i < |protocols| && protocols[i].id == id && forall j :: 0 <= j < i ==> protocols[j].id != id
  }

  /** `protocols.find((p) => p.id === id)`, with the index of the protocol it returns. */
  lemma FindProtocol(protocols: seq<Protocol>, id: string)
    ensures Find(protocols, (p: Protocol) => p.id == id).None? <==> forall i :: 0 <= i < |protocols| ==> protocols[i].id != id
    ensures forall i :: FirstProtocol(protocols, id, i) ==> Find(protocols, (p: Protocol) => p.id == id) == Some(protocols[i])
  {
    forall i | FirstProtocol(protocols, id, i)
      ensures Find(protocols, (p: Protocol) => p.id == id) == Some(protocols[i])
    {
      var r := Find(protocols, (p: Protocol) => p.id == id);
      var i0 :| 0 <= i0 < |protocols| && protocols[i0] == r.value && protocols[i0].id == id
                && forall j :: 0 <= j < i0 ==> protocols[j].id != id;
      assert i0 == i;
    }
  }

  /** `pools.find((p) => p.id === id)`, with the index of the pool it returns. */
  lemma FindPool(pools: seq<Pool>, id: string)
    ensures Find(pools, (p: Pool) => p.id == id).None? <==> forall i :: 0 <= i < |pools| ==> pools[i].id != id
    ensures forall i :: FirstPool(pools, id, i) ==> Find(pools, (p: Pool) => p.id == id) == Some(pools[i])
  {
    forall i | FirstPool(pools, id, i)
      ensures Find(pools, (p: Pool) => p.id == id) == Some(pools[i])
    {
      var r := Find(pools, (p: Pool) => p.id == id);
      var i0 :| 0 <= i0 < |pools| && pools[i0] == r.value && pools[i0].id == id
                && forall j :: 0 <= j < i0 ==> pools[j].id != id;
      assert i0 == i;
    }
  }

  /** `getProtocolWithPools(id)`: null for an unknown id, otherwise the first protocol with
      that id together with every pool of that protocol, in fixture order. */
  function GetProtocolWithPools(store: Store, protocolId: string): (r: Option<ProtocolWithPools>)
    ensures r.None? <==> forall i :: 0 <= i < |store.protocols| ==> store.protocols[i].id != protocolId
    ensures r.Some? ==>
      && r.value.protocol in store.protocols && r.value.protocol.id == protocolId
      && r.value.pools == Filter(store.pools, PoolsOf(protocolId))
      && (forall p :: p in r.value.pools <==> p in store.pools && p.protocolId == protocolId)
    ensures forall i :: FirstProtocol(store.protocols, protocolId, i) ==> r.Some? && r.value.protocol == store.protocols[i]
  {
    FindProtocol(store.protocols, protocolId);
    match Find(store.protocols, (p: Protocol) => p.id == protocolId)
    case None => None
    case Some(protocol) => Some(ProtocolWithPools(protocol, Filter(store.pools, PoolsOf(protocolId))))
  }

  /** `getPoolWithLoans(id)`: null for an unknown id, otherwise the pool and exactly its loans. */
  function GetPoolWithLoans(store: Store, poolId: string): (r: Option<PoolWithLoans>)
    ensures r.None? <==> forall i :: 0 <= i < |store.pools| ==> store.pools[i].id != poolId
    ensures r.Some? ==>
      && r.value.pool in store.pools && r.value.pool.id == poolId
      && r.value.loans == Filter(store.loans, LoansOf(poolId))
      && (forall l :: l in r.value.loans <==> l in store.loans && l.poolId == poolId)
    ensures forall i :: FirstPool(store.pools, poolId, i) ==> r.Some? && r.value.pool == store.pools[i]
  {
    FindPool(store.pools, poolId);
    match Find(store.pools, (p: Pool) => p.id == poolId)
    case None => None
    case Some(pool) => Some(PoolWithLoans(pool, Filter(store.loans, LoansOf(poolId))))
  }

  /** `{ ...pool, ...extended }`: every field present in the patch overrides the pool's own. */
  function ApplyPatch(pool: Pool, x: PoolPatch): (r: PoolExtended)
    ensures r.pool.id == x.id.GetOr(pool.id) && r.pool.name == x.name.GetOr(pool.name)
    ensures r.pool.tvl == x.tvl.GetOr(pool.tvl) && r.pool.utilizationRate == x.utilizationRate.GetOr(pool.utilizationRate)
    ensures r.pool.activeLoansCount == x.activeLoansCount.GetOr(pool.activeLoansCount)
    ensures r.pool.protocolId == x.protocolId.GetOr(pool.protocolId) && r.pool.status == x.status.GetOr(pool.status)
    ensures r.pool.assetClass == x.assetClass.GetOr(pool.assetClass) && r.pool.apy == x.apy.GetOr(pool.apy)
    ensures r.pool.minDeposit == x.minDeposit.GetOr(pool.minDeposit)
    ensures r.pool.lockupPeriodDays == x.lockupPeriodDays.GetOr(pool.lockupPeriodDays)
    ensures r.pool.createdAt == x.createdAt.GetOr(pool.createdAt) && r.pool.updatedAt == x.updatedAt.GetOr(pool.updatedAt)
    ensures r.loanSummary == x.loanSummary && r.asset == x.asset && r.nav == x.nav
    ensures r.address == x.address && r.managers == x.managers
    ensures x == EmptyPatch ==> r == PoolExtended(pool, None, None, None, None, None)
  {
    PoolExtended(
      Pool(
        x.id.GetOr(pool.id),
        x.protocolId.GetOr(pool.protocolId),
        x.name.GetOr(pool.name),
        x.status.GetOr(pool.status),
        x.assetClass.GetOr(pool.assetClass),
        x.tvl.GetOr(pool.tvl),
        x.utilizationRate.GetOr(pool.utilizationRate),
        x.apy.GetOr(pool.apy),
        x.minDeposit.GetOr(pool.minDeposit),
        x.lockupPeriodDays.GetOr(pool.lockupPeriodDays),
        x.activeLoansCount.GetOr(pool.activeLoansCount),
        x.createdAt.GetOr(pool.createdAt),
        x.updatedAt.GetOr(pool.updatedAt)),
      x.address, x.asset, x.managers, x.loanSummary, x.nav)
  }

  /** `mockPoolsExtended[poolId] || {}`. */
  function ExtensionOf(store: Store, poolId: string): PoolPatch
  {
    if poolId in store.poolsExtended then store.poolsExtended[poolId] else EmptyPatch
  }

  /** `getPoolExtended(id)`: null exactly when no pool has the id; a pool without an
      extension record comes back with its own fields and no extension fields. */
  function GetPoolExtended(store: Store, poolId: string): (r: Option<PoolExtended>)
    ensures r.None? <==> forall i :: 0 <= i < |store.pools| ==> store.pools[i].id != poolId
    ensures r.Some? ==> exists i :: (0 <= i < |store.pools| && store.pools[i].id == poolId &&
      r.value == ApplyPatch(store.pools[i], ExtensionOf(store, poolId)))
    ensures r.Some? && poolId !in store.poolsExtended ==>
      r.value.pool in store.pools && r.value.pool.id == poolId &&
      r.value.address.None? && r.value.asset.None? && r.value.managers.None? &&
      r.value.loanSummary.None? && r.value.nav.None?
    ensures forall i :: FirstPool(store.pools, poolId, i) ==>
      r == Some(ApplyPatch(store.pools[i], ExtensionOf(store, poolId)))
  {
    FindPool(store.pools, poolId);
    match Find(store.pools, (p: Pool) => p.id == poolId)
    case None => None
    case Some(pool) => Some(ApplyPatch(pool, ExtensionOf(store, poolId)))
  }

  // ---------------------------------------------------------------- generator lookups

  /** `pool?.tvl || 50000000`: an unknown pool, or one whose TVL is 0, falls back to 50,000,000. */
  function BaseTvl(store: Store, poolId: string): (r: int)
    ensures r != 0
    ensures (forall i :: 0 <= i < |store.pools| ==> store.pools[i].id != poolId) ==> r == 50000000
    ensures r != 50000000 ==> exists i :: 0 <= i < |store.pools| && store.pools[i].id == poolId && store.pools[i].tvl == r
    ensures forall i :: FirstPool(store.pools, poolId, i) ==>
      (store.pools[i].tvl != 0 ==> r == store.pools[i].tvl) && (store.pools[i].tvl == 0 ==> r == 50000000)
  {
    FindPool(store.pools, poolId);
    match Find(store.pools, (p: Pool) => p.id == poolId)
    case None => 50000000
    case Some(pool) => if pool.tvl != 0 then pool.tvl else 50000000
  }

  /** `pool?.utilizationRate || 70`, in percent. */
  function StartUtilization(store: Store, poolId: string): (r: real)
    ensures r != 0.0
    ensures (forall i :: 0 <= i < |store.pools| ==> store.pools[i].id != poolId) ==> r == 70.0
    ensures r != 70.0 ==> exists i :: 0 <= i < |store.pools| && store.pools[i].id == poolId && store.pools[i].utilizationRate == r
    ensures forall i :: FirstPool(store.pools, poolId, i) ==>
      && (store.pools[i].utilizationRate != 0.0 ==> r == store.pools[i].utilizationRate)
      && (store.pools[i].utilizationRate == 0.0 ==> r == 70.0)
  {
    FindPool(store.pools, poolId);
    match Find(store.pools, (p: Pool) => p.id == poolId)
    case None => 70.0
    case Some(pool) => if pool.utilizationRate != 0.0 then pool.utilizationRate else 70.0
  }

  /** `pool?.name || "Unknown Pool"`. */
  function PoolName(store: Store, poolId: string): (r: string)
    ensures r != ""
    ensures (forall i :: 0 <= i < |store.pools| ==> store.pools[i].id != poolId) ==> r == "Unknown Pool"
    ensures forall i :: FirstPool(store.pools, poolId, i) ==>
      (store.pools[i].name != "" ==> r == store.pools[i].name) && (store.pools[i].name == "" ==> r == "Unknown Pool")
  {
    FindPool(store.pools, poolId);
    match Find(store.pools, (p: Pool) => p.id == poolId)
    case None => "Unknown Pool"
    case Some(pool) => if pool.name != "" then pool.name else "Unknown Pool"
  }

  /** `mockPoolsExtended[poolId]?.asset?.symbol || "USDC"`. */
  function AssetSymbol(store: Store, poolId: string): (r: string)
    ensures r != ""
    ensures poolId !in store.poolsExtended ==> r == "USDC"
    ensures var x := ExtensionOf(store, poolId);
      && (x.asset.Some? && x.asset.value.symbol != "" ==> r == x.asset.value.symbol)
      && (x.asset.None? || x.asset.value.symbol == "" ==> r == "USDC")
  {
    if poolId in store.poolsExtended && store.poolsExtended[poolId].asset.Some?
       && store.poolsExtended[poolId].asset.value.symbol != ""
    then store.poolsExtended[poolId].asset.value.symbol
    else "USDC"
  }

  // ---------------------------------------------------------------- summary

  datatype ProtocolSummary = ProtocolSummary(id: string, name: string, tvl: int, apy: real, activePoolsCount: int)

  /** `avgApy` is `None` where the source divides 0 by 0 (no protocols, NaN). */
  datatype Summary = Summary(totalTvl: int, totalActiveLoans: int, avgApy: Option<real>, protocols: seq<ProtocolSummary>)

  function TvlSum(ps: seq<Protocol>): int
  {
    if ps == [] then 0 else TvlSum(ps[..|ps| - 1]) + ps[|ps| - 1].tvl
  }

  function ActiveLoansSum(ps: seq<Protocol>): int
  {
    if ps == [] then 0 else ActiveLoansSum(ps[..|ps| - 1]) + ps[|ps| - 1].activeLoansCount
  }

  function ApySum(ps: seq<Protocol>): real
  {
    if ps == [] then 0.0 else ApySum(ps[..|ps| - 1]) + ps[|ps| - 1].apy
  }

  function Brief(p: Protocol): ProtocolSummary
  {
    ProtocolSummary(p.id, p.name, p.tvl, p.apy, p.activePoolsCount)
  }

  function Briefs(ps: seq<Protocol>): (r: seq<ProtocolSummary>)
    ensures |r| == |ps|
    ensures forall i :: 0 <= i < |ps| ==> r[i] == ProtocolSummary(ps[i].id, ps[i].name, ps[i].tvl, ps[i].apy, ps[i].activePoolsCount)
  {
    seq(|ps|, i requires 0 <= i < |ps| => Brief(ps[i]))
  }

  /** The `mockSummary` computation over a list of protocols. */
  function Summarize(ps: seq<Protocol>): (r: Summary)
    ensures r.protocols == Briefs(ps)
    ensures r.avgApy.None? <==> ps == []
    ensures r.avgApy.Some? ==> r.avgApy.value * |ps| as real == ApySum(ps)
  {
    Summary(TvlSum(ps), ActiveLoansSum(ps), if ps == [] then None else Some(ApySum(ps) / |ps| as real), Briefs(ps))
  }

  /** The average APY lies between the smallest and the largest protocol APY. */
  lemma AvgApyBetween(ps: seq<Protocol>, lo: real, hi: real)
    requires forall i :: 0 <= i < |ps| ==> lo <= ps[i].apy <= hi
    ensures Summarize(ps).avgApy.Some? ==> lo <= Summarize(ps).avgApy.value <= hi
  {
    if ps != [] {
      ApySumBounds(ps, lo, hi);
      var n := |ps| as real;
      var avg := ApySum(ps) / n;
      assert avg * n == ApySum(ps);
      ScaleBack(lo, avg, n);
      ScaleBack(avg, hi, n);
    }
  }

  lemma {:induction false} ApySumBounds(ps: seq<Protocol>, lo: real, hi: real)
    requires forall i :: 0 <= i < |ps| ==> lo <= ps[i].apy <= hi
    ensures lo * |ps| as real <= ApySum(ps) <= hi * |ps| as real
  {
    if ps != [] {
      ApySumBounds(ps[..|ps| - 1], lo, hi);
    }
  }

  /** The four protocols of the fixture, as far as the summary reads them. */
  const MockProtocols: seq<Protocol> := [
    Protocol("maple-finance", "Maple Finance", "maple-finance", "Institutional capital markets powered by blockchain technology",
             ProtocolActive, 245000000, 8.5, 4, 23, "2021-05-01T00:00:00Z", "2024-01-15T12:00:00Z"),
    Protocol("centrifuge", "Centrifuge", "centrifuge", "Real-world asset financing on-chain",
             ProtocolActive, 180000000, 7.2, 6, 45, "2020-10-15T00:00:00Z", "2024-01-14T08:30:00Z"),
    Protocol("goldfinch", "Goldfinch", "goldfinch", "Decentralized credit protocol for emerging markets",
             ProtocolActive, 95000000, 12.1, 3, 18, "2021-01-20T00:00:00Z", "2024-01-13T16:45:00Z"),
    Protocol("truefi", "TrueFi", "truefi", "Uncollateralized lending powered by on-chain credit scores",
             ProtocolActive, 120000000, 9.8, 2, 12, "2020-11-01T00:00:00Z", "2024-01-12T10:15:00Z")
  ]

  /** `mockSummary` for the fixture: 640,000,000 total TVL, 98 active loans, average APY 9.4,
      and one entry per protocol in fixture order. The average is over exact reals, so the
      floating-point rounding of the JavaScript sum and division is not part of it. */
  lemma MockSummaryTotals()
    ensures Summarize(MockProtocols).totalTvl == 640000000
    ensures Summarize(MockProtocols).totalActiveLoans == 98
    ensures Summarize(MockProtocols).avgApy == Some(9.4)
    ensures |Summarize(MockProtocols).protocols| == 4
    ensures Summarize(MockProtocols).protocols[0].id == "maple-finance"
    ensures Summarize(MockProtocols).protocols[3].id == "truefi"
  {
    var ps := MockProtocols;
    assert TvlSum(ps) == 640000000 by {
      assert TvlSum(ps[..1]) == 245000000 by { assert ps[..1][..0] == []; }
      assert ps[..2][..1] == ps[..1];
      assert ps[..3][..2] == ps[..2];
      assert ps[..4][..3] == ps[..3];
    }
    assert ActiveLoansSum(ps) == 98 by {
      assert ActiveLoansSum(ps[..1]) == 23 by { assert ps[..1][..0] == []; }
      assert ps[..2][..1] == ps[..1];
      assert ps[..3][..2] == ps[..2];
      assert ps[..4][..3] == ps[..3];
    }
    assert ApySum(ps) == 37.6 by {
      assert ApySum(ps[..1]) == 8.5 by { assert ps[..1][..0] == []; }
      assert ps[..2][..1] == ps[..1];
      assert ps[..3][..2] == ps[..2];
      assert ps[..4][..3] == ps[..3];
    }
  }
}

/** The query layer of lib/api/services.ts: exact-match filters over the fixture arrays,
    inclusive timestamp bounds for pool events, newest-first ordering of events, and the
    page envelope. The artificial latency before each answer is not modelled; each query
    is a plain function of the fixture store, or a method where the source sorts a local
    array in place. */
module Services {
  import opened Wrappers
  import opened Seqs
  import opened Types
  import opened Paging
  import opened EventSort

  /** A JavaScript string filter applies only when it is present and non-empty. */
  predicate Given(o: Option<string>)
  {
    o.Some? && o.value != ""
  }

  // Single-field tests, one per `.filter(...)` call of the source.
  function PoolOfProtocol(id: string): Pool -> bool { (p: Pool) => p.protocolId == id }
  function PoolInStatus(st: PoolStatus): Pool -> bool { (p: Pool) => p.status == st }
  function PoolOfClass(c: AssetClass): Pool -> bool { (p: Pool) => p.assetClass == c }
  function LoanOfPool(id: string): Loan -> bool { (l: Loan) => l.poolId == id }
  function LoanInStatus(st: LoanStatus): Loan -> bool { (l: Loan) => l.status == st }
  function PoolEventOfType(t: EventType): PoolEvent -> bool { (e: PoolEvent) => e.eventType == t }
  function PoolEventFrom(start: int): PoolEvent -> bool { (e: PoolEvent) => e.timestamp >= start }
  function PoolEventUntil(end: int): PoolEvent -> bool { (e: PoolEvent) => e.timestamp <= end }
  function LoanEventOfType(t: EventType): LoanEvent -> bool { (e: LoanEvent) => e.eventType == t }

  /** Copies `s` into a fresh array and sorts it there, newest first, as
      `filtered.sort((a, b) => b.timestamp - a.timestamp)` does on the filtered array. */
  method SortedCopy<T>(s: seq<T>, key: T -> int) returns (r: seq<T>)
    ensures r == SortNewest(s, key)
    ensures multiset(r) == multiset(s) && NewestFirst(r, key)
  {
    var a := new T[|s|](i requires 0 <= i < |s| => s[i]);
    assert a[..] == s;
    SortNewestFirst(a, key);
    r := a[..];
    SortNewestSortsAndPermutes(s, key);
  }

  // ---------------------------------------------------------------- pools

  datatype PoolFilters = PoolFilters(
    protocolId: Option<string>,
    status: Option<PoolStatus>,
    assetClass: Option<AssetClass>,
    page: Option<int>,
    pageSize: Option<int>)

  predicate ProtocolOk(f: PoolFilters, p: Pool) { Given(f.protocolId) ==> p.protocolId == f.protocolId.value }
  predicate PoolStatusOk(f: PoolFilters, p: Pool) { f.status.Some? ==> p.status == f.status.value }
  predicate AssetClassOk(f: PoolFilters, p: Pool) { f.assetClass.Some? ==> p.assetClass == f.assetClass.value }

  /** A pool passes the filters when it agrees with every filter that was supplied. */
  predicate PoolMatches(f: PoolFilters, p: Pool)
  {
    ProtocolOk(f, p) && PoolStatusOk(f, p) && AssetClassOk(f, p)
  }

  function PoolMatching(f: PoolFilters): Pool -> bool { p => PoolMatches(f, p) }

  /** The successive `filteredPools = filteredPools.filter(...)` steps. */
  function FilterPools(pools: seq<Pool>, f: PoolFilters): (r: seq<Pool>)
    ensures r == Filter(pools, PoolMatching(f))
  {
    var byProtocol := if Given(f.protocolId) then Filter(pools, PoolOfProtocol(f.protocolId.GetOr(""))) else pools;
    var byStatus := if f.status.Some? then Filter(byProtocol, PoolInStatus(f.status.GetOr(PoolOpen))) else byProtocol;
    var byAsset := if f.assetClass.Some? then Filter(byStatus, PoolOfClass(f.assetClass.GetOr(Corporate))) else byStatus;
    var all: Pool -> bool := _ => true;
    var s1: Pool -> bool := (p: Pool) => ProtocolOk(f, p);
    var s2: Pool -> bool := (p: Pool) => ProtocolOk(f, p) && PoolStatusOk(f, p);
    FilterAll(pools, all);
    FilterStage(pools, all, PoolOfProtocol(f.protocolId.GetOr("")), s1, Given(f.protocolId));
    FilterStage(pools, s1, PoolInStatus(f.status.GetOr(PoolOpen)), s2, f.status.Some?);
    FilterStage(pools, s2, PoolOfClass(f.assetClass.GetOr(Corporate)), PoolMatching(f), f.assetClass.Some?);
    byAsset
  }

  /** `getPools(filters)`. */
  function GetPools(store: Store, f: PoolFilters): (r: Paginated<Pool>)
    ensures r == Paginate(Filter(store.pools, PoolMatching(f)), f.page, f.pageSize)
    ensures forall p :: p in r.data ==> p in store.pools && PoolMatches(f, p)
    ensures r.pagination.totalItems == |Filter(store.pools, PoolMatching(f))|
  {
    var r := Paginate(FilterPools(store.pools, f), f.page, f.pageSize);
    assert forall p :: p in r.data ==> p in FilterPools(store.pools, f);
    r
  }

  // ---------------------------------------------------------------- loans

  datatype LoanFilters = LoanFilters(
    poolId: Option<string>,
    status: Option<LoanStatus>,
    page: Option<int>,
    pageSize: Option<int>)

  predicate LoanPoolOk(f: LoanFilters, l: Loan) { Given(f.poolId) ==> l.poolId == f.poolId.value }
  predicate LoanStatusOk(f: LoanFilters, l: Loan) { f.status.Some? ==> l.status == f.status.value }

  predicate LoanMatches(f: LoanFilters, l: Loan)
  {
    LoanPoolOk(f, l) && LoanStatusOk(f, l)
  }

  function LoanMatching(f: LoanFilters): Loan -> bool { l => LoanMatches(f, l) }

  function FilterLoans(loans: seq<Loan>, f: LoanFilters): (r: seq<Loan>)
    ensures r == Filter(loans, LoanMatching(f))
  {
    var byPool := if Given(f.poolId) then Filter(loans, LoanOfPool(f.poolId.GetOr(""))) else loans;
    var byStatus := if f.status.Some? then Filter(byPool, LoanInStatus(f.status.GetOr(LoanCurrent))) else byPool;
    var all: Loan -> bool := _ => true;
    var s1: Loan -> bool := (l: Loan) => LoanPoolOk(f, l);
    FilterAll(loans, all);
    FilterStage(loans, all, LoanOfPool(f.poolId.GetOr("")), s1, Given(f.poolId));
    FilterStage(loans, s1, LoanInStatus(f.status.GetOr(LoanCurrent)), LoanMatching(f), f.status.Some?);
    byStatus
  }

  /** `getLoans(filters)`. */
  function GetLoans(store: Store, f: LoanFilters): (r: Paginated<Loan>)
    ensures r == Paginate(Filter(store.loans, LoanMatching(f)), f.page, f.pageSize)
    ensures forall l :: l in r.data ==> l in store.loans && LoanMatches(f, l)
    ensures r.pagination.totalItems == |Filter(store.loans, LoanMatching(f))|
  {
    var r := Paginate(FilterLoans(store.loans, f), f.page, f.pageSize);
    assert forall l :: l in r.data ==> l in FilterLoans(store.loans, f);
    r
  }

  /** `getLoan(id)`: the first loan with that id, or null. */
  function GetLoan(store: Store, id: string): (r: Option<Loan>)
    ensures r.None? <==> forall i :: 0 <= i < |store.loans| ==> store.loans[i].id != id
    ensures r.Some? ==> r.value in store.loans && r.value.id == id
    ensures r.Some? ==> exists i :: (0 <= i < |store.loans| && store.loans[i] == r.value &&
      forall j :: 0 <= j < i ==> store.loans[j].id != id)
  {
    Find(store.loans, (l: Loan) => l.id == id)
  }

  // ---------------------------------------------------------------- events

  datatype EventFilters = EventFilters(
    eventType: Option<EventType>,
    startDate: Option<int>,
    endDate: Option<int>,
    page: Option<int>,
    pageSize: Option<int>)

  function PoolEventTime(e: PoolEvent): int { e.timestamp }
  function LoanEventTime(e: LoanEvent): int { e.timestamp }

  /** A pool event is kept when it belongs to the pool, has the requested type, and lies
      within the requested bounds, both inclusive. */
  predicate PoolEventMatches(poolId: string, f: EventFilters, e: PoolEvent)
  {
    && e.poolId == poolId
    && (f.eventType.Some? ==> e.eventType == f.eventType.value)
    && (f.startDate.Some? ==> e.timestamp >= f.startDate.value)
    && (f.endDate.Some? ==> e.timestamp <= f.endDate.value)
  }

  function PoolEventMatching(poolId: string, f: EventFilters): PoolEvent -> bool
  {
    e => PoolEventMatches(poolId, f, e)
  }

  function FilterPoolEvents(events: seq<PoolEvent>, poolId: string, f: EventFilters): (r: seq<PoolEvent>)
    ensures r == Filter(events, PoolEventMatching(poolId, f))
  {
    var byPool := Filter(events, (e: PoolEvent) => e.poolId == poolId);
    var byType := if f.eventType.Some? then Filter(byPool, PoolEventOfType(f.eventType.GetOr(Deposit))) else byPool;
    var byStart := if f.startDate.Some? then Filter(byType, PoolEventFrom(f.startDate.GetOr(0))) else byType;
    var byEnd := if f.endDate.Some? then Filter(byStart, PoolEventUntil(f.endDate.GetOr(0))) else byStart;
    var all: PoolEvent -> bool := _ => true;
    var s1: PoolEvent -> bool := (e: PoolEvent) => e.poolId == poolId;
    var s2: PoolEvent -> bool := (e: PoolEvent) => e.poolId == poolId && (f.eventType.Some? ==> e.eventType == f.eventType.value);
    var s3: PoolEvent -> bool := (e: PoolEvent) => e.poolId == poolId && (f.eventType.Some? ==> e.eventType == f.eventType.value)
                                      && (f.startDate.Some? ==> e.timestamp >= f.startDate.value);
    FilterAll(events, all);
    FilterStage(events, all, (e: PoolEvent) => e.poolId == poolId, s1, true);
    FilterStage(events, s1, PoolEventOfType(f.eventType.GetOr(Deposit)), s2, f.eventType.Some?);
    FilterStage(events, s2, PoolEventFrom(f.startDate.GetOr(0)), s3, f.startDate.Some?);
    FilterStage(events, s3, PoolEventUntil(f.endDate.GetOr(0)), PoolEventMatching(poolId, f), f.endDate.Some?);
    byEnd
  }

  /** `getPoolEvents(poolId, filters)`: filter, sort the filtered array in place newest first, paginate. */
  method GetPoolEvents(store: Store, poolId: string, f: EventFilters) returns (r: Paginated<PoolEvent>)
    ensures r == Paginate(SortNewest(Filter(store.poolEvents, PoolEventMatching(poolId, f)), PoolEventTime), f.page, f.pageSize)
    ensures r.pagination.totalItems == |Filter(store.poolEvents, PoolEventMatching(poolId, f))|
    ensures forall e :: e in r.data ==> e in store.poolEvents && PoolEventMatches(poolId, f, e)
  {
    var filtered := FilterPoolEvents(store.poolEvents, poolId, f);
    var sorted := SortedCopy(filtered, PoolEventTime);
    r := Paginate(sorted, f.page, f.pageSize);
    PageWithin(sorted, r.pagination.page, r.pagination.pageSize);
    forall e | e in r.data ensures e in store.poolEvents && PoolEventMatches(poolId, f, e) {
      assert e in multiset(sorted);
      assert e in filtered;
    }
  }

  predicate LoanEventMatches(loanId: string, eventType: Option<EventType>, e: LoanEvent)
  {
    e.loanId == loanId && (eventType.Some? ==> e.eventType == eventType.value)
  }

  function LoanEventMatching(loanId: string, eventType: Option<EventType>): LoanEvent -> bool
  {
    e => LoanEventMatches(loanId, eventType, e)
  }

  function FilterLoanEvents(events: seq<LoanEvent>, loanId: string, f: EventFilters): (r: seq<LoanEvent>)
    ensures r == Filter(events, LoanEventMatching(loanId, f.eventType))
  {
    var byLoan := Filter(events, (e: LoanEvent) => e.loanId == loanId);
    var byType := if f.eventType.Some? then Filter(byLoan, LoanEventOfType(f.eventType.GetOr(Deposit))) else byLoan;
    var all: LoanEvent -> bool := _ => true;
    var s1: LoanEvent -> bool := (e: LoanEvent) => e.loanId == loanId;
    FilterAll(events, all);
    FilterStage(events, all, (e: LoanEvent) => e.loanId == loanId, s1, true);
    FilterStage(events, s1, LoanEventOfType(f.eventType.GetOr(Deposit)), LoanEventMatching(loanId, f.eventType), f.eventType.Some?);
    byType
  }

  /** `getLoanEvents(loanId, filters)`: only the loan id and the type filter apply; the date bounds are ignored. */
  method GetLoanEvents(store: Store, loanId: string, f: EventFilters) returns (r: Paginated<LoanEvent>)
    ensures r == Paginate(SortNewest(Filter(store.loanEvents, LoanEventMatching(loanId, f.eventType)), LoanEventTime), f.page, f.pageSize)
    ensures r.pagination.totalItems == |Filter(store.loanEvents, LoanEventMatching(loanId, f.eventType))|
    ensures forall e :: e in r.data ==> e in store.loanEvents && LoanEventMatches(loanId, f.eventType, e)
  {
    var filtered := FilterLoanEvents(store.loanEvents, loanId, f);
    var sorted := SortedCopy(filtered, LoanEventTime);
    r := Paginate(sorted, f.page, f.pageSize);
    PageWithin(sorted, r.pagination.page, r.pagination.pageSize);
    forall e | e in r.data ensures e in store.loanEvents && LoanEventMatches(loanId, f.eventType, e) {
      assert e in multiset(sorted);
      assert e in filtered;
    }
  }
}

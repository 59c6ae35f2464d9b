/** The entities of the dashboard's data layer: protocols, pools, loans and their events,
    the optional extension record of a pool, and the fixture store that holds them.
    Timestamps are integer instants (milliseconds since the epoch); the ISO strings of
    the fixtures are not modelled. Amounts that the fixtures give as whole numbers are `int`,
    rates and yields are `real`. */
module Types {
  import opened Wrappers

  datatype ProtocolStatus = ProtocolActive | ProtocolPaused | ProtocolDeprecated
  datatype PoolStatus = PoolOpen | PoolClosed | PoolDefaulted
  datatype AssetClass = Corporate | RealEstate | TradeFinance | Consumer | Mixed
  datatype LoanStatus = LoanCurrent | LoanLate | LoanDefaulted | LoanRepaid
  datatype EventType = Deposit | Withdrawal | LoanOriginated | LoanRepaidEvent | InterestPayment | DefaultEvent

  /** The wire spelling of an event type, as the API and the events table see it. */
  function EventTypeName(t: EventType): string
  {
    match t
    case Deposit => "deposit"
    case Withdrawal => "withdrawal"
    case LoanOriginated => "loan_originated"
    case LoanRepaidEvent => "loan_repaid"
    case InterestPayment => "interest_payment"
    case DefaultEvent => "default"
  }

  datatype Protocol = Protocol(
    id: string,
    name: string,
    slug: string,
    description: string,
    status: ProtocolStatus,
    tvl: int,
    apy: real,
    activePoolsCount: int,
    activeLoansCount: int,
    createdAt: string,
    updatedAt: string)

  datatype Pool = Pool(
    id: string,
    protocolId: string,
    name: string,
    status: PoolStatus,
    assetClass: AssetClass,
    tvl: int,
    utilizationRate: real,
    apy: real,
    minDeposit: int,
    lockupPeriodDays: int,
    activeLoansCount: int,
    createdAt: string,
    updatedAt: string)

  datatype Loan = Loan(
    id: string,
    poolId: string,
    borrowerName: string,
    borrowerAddress: string,
    principalAmount: int,
    outstandingAmount: int,
    interestRate: real,
    status: LoanStatus,
    originationDate: string,
    maturityDate: string,
    lastPaymentDate: Option<string>,
    nextPaymentDate: Option<string>)

  datatype PoolEvent = PoolEvent(
    id: string,
    poolId: string,
    eventType: EventType,
    amount: int,
    walletAddress: string,
    txHash: string,
    timestamp: int)

  datatype LoanEvent = LoanEvent(
    id: string,
    loanId: string,
    eventType: EventType,
    amount: int,
    txHash: string,
    timestamp: int)

  /** Extension fields a pool may carry beyond the base record. */
  datatype Asset = Asset(address: string, symbol: string, decimals: int)
  datatype Managers = Managers(poolManager: string, loanManager: string, withdrawalManager: string)
  datatype LoanSummary = LoanSummary(total: int, active: int, repaid: int, defaulted: int)

  /** A pool merged with its extension record. */
  datatype PoolExtended = PoolExtended(
    pool: Pool,
    address: Option<string>,
    asset: Option<Asset>,
    managers: Option<Managers>,
    loanSummary: Option<LoanSummary>,
    nav: Option<int>)

  /** A partial extension record (`Partial<PoolExtended>`): any field may be absent, and a
      present base-pool field overrides the pool's own value when the two are spread together. */
  datatype PoolPatch = PoolPatch(
    id: Option<string>,
    protocolId: Option<string>,
    name: Option<string>,
    status: Option<PoolStatus>,
    assetClass: Option<AssetClass>,
    tvl: Option<int>,
    utilizationRate: Option<real>,
    apy: Option<real>,
    minDeposit: Option<int>,
    lockupPeriodDays: Option<int>,
    activeLoansCount: Option<int>,
    createdAt: Option<string>,
    updatedAt: Option<string>,
    address: Option<string>,
    asset: Option<Asset>,
    managers: Option<Managers>,
    loanSummary: Option<LoanSummary>,
    nav: Option<int>)

  /** The empty record `{}`. */
  const EmptyPatch := PoolPatch(None, None, None, None, None, None, None, None, None, None, None, None, None,
                                None, None, None, None, None)

  /** The fixture arrays, as one immutable snapshot handed to every query. */
  datatype Store = Store(
    protocols: seq<Protocol>,
    pools: seq<Pool>,
    loans: seq<Loan>,
    poolEvents: seq<PoolEvent>,
    loanEvents: seq<LoanEvent>,
    poolsExtended: map<string, PoolPatch>)
}

// Records, constants and error sentinels shared by the account and asset modules.
module Types {

  datatype Option<+T> = None | Some(value: T)

  datatype Error =
    | InvalidAuthority | AccountNotFound | Unauthorized | InvalidParams | InsufficientFunds
    | InvalidRoute | AssetDisabled | AssetNotMargin | AmountTooSmall | InvalidAccountType
    | InvalidMarginAction | PositionNotIsolated | PositionNotEmpty | AccountIndexExceed
    | RiskRegression | InvalidTradingMode | PoolFrozen | PoolNotActive | CooldownNotElapsed
    | OperatorRateViolation | NotInsuranceFund | InvalidStrategyIdx | PoolMustBeEmpty
    | SharesListFull | InsufficientShares | InvalidPoolUpdate | InvalidPoolAccount
    | PoolGenericMsg | InvalidMarginMode | InvalidDepositorIndex | InvalidAddress
    | BankRefused | MarketNotFound
    | RiskUnavailable | MissingPrice | OpenInterestLimit | DivisionByZero
    | MakerInvalidPosition | TakerInvalidPosition | MakerInsufficientCollateral | TakerInsufficientCollateral
    | MakerRiskRegression | TakerRiskRegression
    | AssetNotFound | AssetExists | InvalidAssetParams | AssetIndexExceedsMax | UsdcMarginConstraint

  datatype Result<+T> = Ok(value: T) | Err(error: Error) {
    predicate IsFailure() { Err? }
    function PropagateFailure<U>(): Result<U>
      requires Err?
    { Err(error) }
    function Extract(): T
      requires Ok?
    { value }
  }

  datatype Outcome = Pass | Fail(error: Error) {
    predicate IsFailure() { Fail? }
    function PropagateFailure<U>(): Result<U>
      requires Fail?
    { Err(error) }
  }

  /** Passes when the condition holds, fails with the given sentinel otherwise. */
  function Need(condition: bool, error: Error): Outcome {
    if condition then Pass else Fail(error)
  }

  // types/constants.go
  const USDC_TO_COLLATERAL := 1_000_000
  const FEE_TICK := 1_000_000
  const MARGIN_TICK := 10_000
  const SHARE_TICK := 10_000
  const FUNDING_RATE_TICK := 1_000_000
  const MAX_ACCOUNT_INDEX := 281_474_976_710_654
  const MAX_MASTER_INDEX := 140_737_488_355_327
  const MIN_SUB_INDEX := 140_737_488_355_328
  const NIL_MASTER := 0
  const TREASURY := 0
  const INSURANCE_FUND := 1
  const FIRST_USER_MASTER := 2
  const USDC: nat := 3
  const USDC_DENOM := "uusdc"
  const USDC_DISPLAY_NAME := "USDC"
  const MAX_ASSET_DECIMALS := 18
  const MAX_DISPLAY_NAME_LENGTH := 32
  const MAX_EXTENSION_MULTIPLIER := 1_000_000_000_000_000_000
  const MIN_PARTIAL_AMOUNT := 10_000_000
  const NB_STRATEGIES := 8
  const SHARES_LIST_SIZE := 16
  const INITIAL_POOL_SHARE_VALUE := 1_000
  const ACTIVE: nat := 0
  const FROZEN: nat := 1
  const LLP_COOLDOWN_MS := 7 * 24 * 60 * 60 * 1000
  const CROSS_MARGIN: nat := 0
  const ISOLATED_MARGIN: nat := 1
  const MAX_POSITION_SIZE := 0xFF_FFFF_FFFF_FFFF
  const MAX_ENTRY_QUOTE := 0xFF_FFFF_FFFF_FFFF

  datatype AccountType = Master | Sub | PublicPool | InsuranceFund

  datatype PoolInfo = PoolInfo(
    status: nat,
    operatorFee: nat,
    minOperatorShareRate: nat,
    totalShares: int,
    operatorShares: int,
    strategies: seq<int>)

  datatype Share = Share(pool: nat, amount: int, principal: int, entryTime: int)

  datatype Account = Account(
    index: nat,
    master: nat,
    owner: string,
    kind: AccountType,
    tradingMode: nat,
    collateral: int,
    totalOrderCount: int,
    createdAt: int,
    shares: seq<Share>,
    info: Option<PoolInfo>)
  {
    predicate IsPoolType() { kind.PublicPool? || kind.InsuranceFund? }
    predicate IsPoolAccount() { info.Some? && IsPoolType() }
  }

  datatype AssetRow = AssetRow(account: nat, asset: nat, balance: int, locked: int, marginMode: nat)

  datatype Position = Position(
    account: nat,
    market: nat,
    baseSize: int,
    entryQuote: int,
    lastFundingPrefix: int,
    initialMarginFraction: nat,
    marginMode: nat,
    allocatedMargin: int)

  datatype Meta = Meta(account: nat, nextClientOrderIndex: int)

  datatype Params = Params(
    treasury: nat,
    insuranceFund: nat,
    minTransfer: nat,
    minWithdraw: nat,
    liquidityPool: nat,
    cooldownMs: int)

  datatype Asset = Asset(
    index: nat,
    denom: string,
    displayName: string,
    decimals: nat,
    multiplier: nat,
    minTransfer: nat,
    minWithdraw: nat,
    margin: bool,
    enabled: bool)
}

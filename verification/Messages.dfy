// The messages of the account and asset modules as transitions of the stores,
// and runs of messages.
module Messages {
  import opened Types
  import opened Pools
  import opened Store
  import opened Assets
  import opened Funding
  import opened Trades

  datatype Route = Perps | Spot

  datatype MarginAction = AddMargin | RemoveMargin

  datatype Msg =
    | Deposit(sender: string, beneficiary: string, asset: nat, route: Route, amount: nat)
    | Withdraw(sender: string, account: nat, asset: nat, route: Route, amount: nat)
    | Transfer(sender: string, from: nat, to: nat, asset: nat, amount: nat)
    | CreateSubAccount(sender: string, account: nat)
    | UpdateAccountConfig(sender: string, account: nat, tradingMode: nat)
    | UpdateAccountAssetConfig(sender: string, account: nat, asset: nat, marginMode: nat)
    | UpdateMargin(sender: string, account: nat, market: nat, action: MarginAction, delta: int)
    | UpdateLeverage(sender: string, account: nat, market: nat, marginMode: nat, imf: nat)
    | UpdateParams(sender: string, params: Params)
    | CreatePublicPool(sender: string, account: nat, initialShares: nat, fee: nat, rate: nat)
    | UpdatePublicPool(sender: string, pool: nat, status: nat, fee: nat, rate: nat)
    | MintShares(sender: string, pool: nat, principal: nat)
    | BurnShares(sender: string, pool: nat, shares: int)
    | ForceBurnShares(sender: string, pool: nat, depositor: nat, shares: int)
    | StrategyTransfer(sender: string, pool: nat, fromSlot: nat, toSlot: nat, delta: int)
    | RegisterAsset(sender: string, denom: string, displayName: string, decimals: nat, multiplier: nat,
                    minTransfer: nat, minWithdraw: nat, marginMode: nat)
    | UpdateAsset(sender: string, asset: nat, minTransfer: nat, minWithdraw: nat, enabled: bool)
    // keeper entry points driven by other modules
    | LockSpot(account: nat, asset: nat, delta: int)
    | UnlockSpot(account: nat, asset: nat, delta: int)
    | MoveSpot(from: nat, to: nat, asset: nat, delta: int, drain: bool)
    | SettleFunding(account: nat, market: nat)
    | PerpFill(fill: Match)   // on a branch of the stores, as matching does
    | CloseOut(fill: Match)   // on the stores themselves, an error being logged only, as end-blockers do

  /** A successful message: the new stores and the number in its response. */
  datatype Reply = Reply(state: State, value: int)

  // ---------- x/account/keeper/msg_server.go ----------

  function ExecDeposit(st: State, sender: string, beneficiary: string, asset: nat, route: Route, amount: nat,
        env: Env): Result<Reply> {
    if sender == "" then Err(InvalidAddress) else
    :- Need(amount != 0, AmountTooSmall);
    var a :- st.GetAsset(asset);
    :- Need(a.enabled, AssetDisabled);
    :- Need(route.Perps? ==> a.margin, AssetNotMargin);
    :- Need(amount >= Max(a.minTransfer, st.params.minTransfer), AmountTooSmall);
    :- Need(env.bankOk, BankRefused);
    var (st2, acc) :- st.MoveCoins(a.denom, amount)
                        .EnsureMasterAccount(if beneficiary == "" then sender else beneficiary, env.now);
    var st3 :- if route.Perps? then st2.AddCollateral(acc.index, amount * a.multiplier)
               else st2.AddAccountAssetBalance(acc.index, asset, amount * a.multiplier);
    Ok(Reply(st3, acc.index))
  }

  function Debit(st: State, account: nat, asset: nat, a: Asset, route: Route, delta: int, env: Env): Result<State> {
    if route.Perps? then
      :- Need(a.margin, AssetNotMargin);
      var st1 :- SettleAll(st, account, env.prefixes);
      var st2 :- st1.AddCollateral(account, -delta);
      :- Need(env.riskOk, RiskRegression);
      Ok(st2)
    else st.AddAccountAssetBalance(account, asset, -delta)
  }

  function ExecWithdraw(st: State, sender: string, account: nat, asset: nat, route: Route, amount: nat,
        env: Env): Result<Reply> {
    if sender == "" then Err(InvalidAddress) else
    :- Need(amount != 0, AmountTooSmall);
    var mine :- st.IsAuthorized(sender, account);
    :- Need(mine, Unauthorized);
    :- st.RejectPoolAccount(account);
    var a :- st.GetAsset(asset);
    :- Need(a.enabled, AssetDisabled);
    :- Need(amount >= Max(a.minWithdraw, st.params.minWithdraw), AmountTooSmall);
    var st2 :- Debit(st, account, asset, a, route, amount * a.multiplier, env);
    :- Need(st2.Coins(a.denom) >= amount, BankRefused);
    Ok(Reply(st2.MoveCoins(a.denom, 0 - amount), 0))
  }

  function ExecTransfer(st: State, sender: string, from: nat, to: nat, asset: nat, amount: nat,
        env: Env): Result<Reply> {
    if sender == "" then Err(InvalidAddress) else
    :- Need(amount != 0, AmountTooSmall);
    :- Need(from != to, InvalidParams);
    var mine :- st.IsAuthorized(sender, from);
    :- Need(mine, Unauthorized);
    :- st.RejectPoolAccount(from);
    :- st.RejectPoolAccount(to);
    var a :- st.GetAsset(asset);
    :- Need(a.enabled, AssetDisabled);
    :- Need(amount >= Max(a.minTransfer, st.params.minTransfer), AmountTooSmall);
    var delta := amount * a.multiplier;
    if a.margin then
      var st1 :- SettleAll(st, from, env.prefixes);
      var st2 :- st1.AddCollateral(from, -delta);
      var st3 :- st2.AddCollateral(to, delta);
      :- Need(env.riskOk, RiskRegression);
      Ok(Reply(st3, 0))
    else
      var st2 :- st.AddAccountAssetBalance(from, asset, -delta);
      var st3 :- st2.AddAccountAssetBalance(to, asset, delta);
      Ok(Reply(st3, 0))
  }

  function ExecCreateSubAccount(st: State, sender: string, account: nat, env: Env): Result<Reply> {
    if sender == "" then Err(InvalidAddress) else
    var m :- st.GetAccount(account);
    :- Need(m.owner == sender, Unauthorized);
    :- Need(m.kind.Master?, InvalidAccountType);
    var (st2, i) :- st.AllocateSubIndex();
    Ok(Reply(st2.CreateAccount(Account(i, m.index, m.owner, Sub, 0, 0, 0, env.now, [], None)), i))
  }

  function ExecUpdateAccountConfig(st: State, sender: string, account: nat, mode: nat): Result<Reply> {
    if sender == "" then Err(InvalidAddress) else
    :- Need(mode <= 1, InvalidTradingMode);
    var a :- st.GetAccount(account);
    :- Need(a.owner == sender, Unauthorized);
    :- Need(!a.IsPoolType(), PoolGenericMsg);
    Ok(Reply(st.UpdateAccount(a.(tradingMode := mode)), 0))
  }

  function ExecUpdateAccountAssetConfig(st: State, sender: string, account: nat, asset: nat, mode: nat): Result<Reply> {
    if sender == "" then Err(InvalidAddress) else
    :- Need(mode <= 1, InvalidMarginMode);
    var a :- st.GetAccount(account);
    :- Need(a.owner == sender, Unauthorized);
    :- Need(!a.IsPoolType(), PoolGenericMsg);
    Ok(Reply(st.SetRow(st.GetRow(account, asset).(marginMode := mode)), 0))
  }

  function ExecUpdateMargin(st: State, sender: string, account: nat, market: nat, action: MarginAction,
        delta: int, env: Env): Result<Reply> {
    if sender == "" then Err(InvalidAddress) else
    :- Need(delta > 0, InvalidParams);
    var mine :- st.IsAuthorized(sender, account);
    :- Need(mine, Unauthorized);
    :- st.RejectPoolAccount(account);
    var st1 :- SettlePosition(st, account, market, env.prefixes);
    var p := st1.GetPosition(account, market);
    :- Need(p.marginMode == ISOLATED_MARGIN, PositionNotIsolated);
    :- Need(action.RemoveMargin? ==> p.allocatedMargin >= delta, InsufficientFunds);
    var moved := if action.AddMargin? then delta else -delta;
    var st2 :- st1.SetPosition(p.(allocatedMargin := p.allocatedMargin + moved)).AddCollateral(account, -moved);
    :- Need(env.riskOk, RiskRegression);
    Ok(Reply(st2, 0))
  }

  function ExecUpdateLeverage(st: State, sender: string, account: nat, market: nat, mode: nat, imf: nat,
        env: Env): Result<Reply> {
    if sender == "" then Err(InvalidAddress) else
    :- Need(mode <= 1, InvalidMarginMode);
    :- Need(imf <= MARGIN_TICK, InvalidParams);
    var mine :- st.IsAuthorized(sender, account);
    :- Need(mine, Unauthorized);
    :- st.RejectPoolAccount(account);
    :- Need(env.minImf.Some?, MarketNotFound);
    :- Need(imf >= env.minImf.value, InvalidParams);
    var p := st.GetPosition(account, market);
    :- Need(p.baseSize == 0, PositionNotEmpty);
    Ok(Reply(st.SetPosition(p.(marginMode := mode, initialMarginFraction := imf)), 0))
  }

  function ExecUpdateParams(st: State, sender: string, params: Params): Result<Reply> {
    if sender == "" then Err(InvalidAddress) else
    :- Need(params.minTransfer != 0 && params.minWithdraw != 0 && params.cooldownMs >= 0, InvalidParams);
    :- Need(sender == st.authority, InvalidAuthority);
    Ok(Reply(st.(params := params), 0))
  }

  // ---------- x/account/keeper/msg_server_publicpool.go ----------

  function ExecCreatePublicPool(st: State, sender: string, account: nat, initialShares: nat, fee: nat,
        rate: nat, env: Env): Result<Reply> {
    if sender == "" then Err(InvalidAddress) else
    :- Need(initialShares != 0 && fee < FEE_TICK && rate <= SHARE_TICK, InvalidParams);
    var m :- st.GetAccount(account);
    :- Need(m.owner != "" && m.owner == sender, Unauthorized);
    :- Need(m.kind.Master?, InvalidAccountType);
    var seed := initialShares * INITIAL_POOL_SHARE_VALUE * USDC_TO_COLLATERAL;
    :- Need(m.collateral >= seed, InsufficientFunds);
    var st1 :- SettleAll(st, m.index, env.prefixes);
    var (st2, i) :- st1.AllocateSubIndex();
    var info := PoolInfo(ACTIVE, fee, rate, initialShares, initialShares, seq(NB_STRATEGIES, _ => 0));
    var pool := Account(i, m.index, m.owner, PublicPool, 0, seed, 0, env.now, [], Some(info));
    var st3 :- st2.CreateAccount(pool).AddCollateral(m.index, -seed);
    :- Need(env.riskOk, RiskRegression);
    Ok(Reply(st3, i))
  }

  /** The freeze gate: healthy, no open orders, no open position. */
  predicate PoolEmpty(st: State, pool: Account, env: Env) {
    && env.healthy
    && pool.totalOrderCount == 0
    && forall k :: k in st.positions && k.0 == pool.index ==> st.positions[k].baseSize == 0
  }

  function ExecUpdatePublicPool(st: State, sender: string, pool: nat, status: nat, fee: nat, rate: nat,
        env: Env): Result<Reply> {
    if sender == "" then Err(InvalidAddress) else
    :- Need(status == ACTIVE || status == FROZEN, InvalidPoolUpdate);
    :- Need(rate <= SHARE_TICK, InvalidParams);
    var p :- st.GetAccount(pool);
    :- Need(p.IsPoolAccount(), InvalidPoolAccount);
    var info := p.info.value;
    :- Need(info.status == ACTIVE, PoolNotActive);
    var operator :- st.IsPoolOperator(p, sender);
    :- Need(operator, Unauthorized);
    :- Need(fee <= info.operatorFee, InvalidPoolUpdate);
    :- Need(CheckMinOperatorShareRate(info.(minOperatorShareRate := rate)), OperatorRateViolation);
    :- Need(status == FROZEN ==> PoolEmpty(st, p, env), PoolMustBeEmpty);
    var st2 :- st.UpdatePoolInfo(p.index, info.(status := status, operatorFee := fee, minOperatorShareRate := rate));
    Ok(Reply(if status == FROZEN && st.params.liquidityPool == p.index
             then st2.(params := st.params.(liquidityPool := 0)) else st2, 0))
  }

  /** The pool's record after a mint of `sh` shares. */
  function Minted(info: PoolInfo, operator: bool, sh: int): PoolInfo {
    info.(totalShares := info.totalShares + sh,
          operatorShares := if operator then info.operatorShares + sh else info.operatorShares)
  }

  /** The writes of a mint: both collaterals, the pool record, which an LP may not push below the floor, and the LP's entry. */
  function PayIn(st: State, pool: nat, m: nat, operator: bool, sh: int, principal: nat, info: PoolInfo,
        now: int): Result<State> {
    var cost := principal * USDC_TO_COLLATERAL;
    var st2 :- st.AddCollateral(m, -cost);
    var st3 :- st2.AddCollateral(pool, cost);
    :- Need(operator || CheckMinOperatorShareRate(info), OperatorRateViolation);
    var st4 :- st3.UpdatePoolInfo(pool, info);
    if operator then Ok(st4) else st4.UpsertPublicPoolShare(m, pool, sh, principal, now)
  }

  function ExecMintShares(st: State, sender: string, pool: nat, principal: nat, env: Env): Result<Reply> {
    if sender == "" then Err(InvalidAddress) else
    :- Need(principal != 0, AmountTooSmall);
    var p :- st.GetAccount(pool);
    :- Need(p.IsPoolAccount(), InvalidPoolAccount);
    var info := p.info.value;
    :- Need(info.status == ACTIVE, PoolNotActive);
    var m :- st.MasterByOwner(sender);
    var operator :- st.IsPoolOperator(p, sender);
    var cost := principal * USDC_TO_COLLATERAL;
    :- Need(m.collateral >= cost, InsufficientFunds);
    var sh :- UsdcValueToShares(info, p.collateral + env.pnl, principal);
    :- Need(sh > 0, InvalidParams);
    var st1 :- SettleAll(st, m.index, env.prefixes);
    var info' := Minted(info, operator, sh);
    var st2 :- PayIn(st1, p.index, m.index, operator, sh, principal, info', env.now);
    :- Need(env.riskOk, RiskRegression);
    Ok(Reply(st2, sh))
  }

  /** The pool's record after a burn of `s` shares under the given terms. */
  function Burned(info: PoolInfo, operator: bool, s: int, t: BurnTerms): PoolInfo {
    info.(totalShares := info.totalShares - t.burned,
          operatorShares := if operator then info.operatorShares - s else info.operatorShares + t.feeShares)
  }

  /** The cooldown of the system liquidity pool, in force for LP burns that are not forced. */
  predicate CoolingDown(st: State, pool: nat, e: Share, env: Env) {
    && st.params.liquidityPool == pool
    && st.params.cooldownMs > 0
    && env.now < e.entryTime + st.params.cooldownMs
  }

  /** The writes of a burn: pool record, pool collateral, depositor collateral, depositor entry. */
  function PayOut(st: State, pool: nat, depositor: nat, operator: bool, s: int, info: PoolInfo,
        paid: int): Result<State> {
    var st2 :- st.UpdatePoolInfo(pool, info);
    var st3 :- st2.AddCollateral(pool, -paid);
    var st4 :- st3.AddCollateral(depositor, paid);
    if operator then Ok(st4) else st4.ReducePublicPoolShare(depositor, pool, s)
  }

  /** Whether a burn is admitted, and the entry it draws on; the operator has none. */
  function AdmitBurn(st: State, p: Account, depositor: Account, operator: bool, s: int, skipCooldown: bool,
        env: Env): Result<Option<Share>> {
    if !p.IsPoolAccount() then Err(InvalidPoolAccount) else
    var info, tav := p.info.value, p.collateral + env.pnl;
    :- Need(BurnAllowed(info), PoolNotActive);
    :- Need(s <= AvailableSharesToBurn(info, tav, env.avail), InsufficientShares);
    var i := FindShareEntry(depositor.shares, p.index);
    :- Need(operator || i < |depositor.shares|, InsufficientShares);
    :- Need((if operator then info.operatorShares else depositor.shares[i].amount) >= s, InsufficientShares);
    :- Need(operator || skipCooldown || !CoolingDown(st, p.index, depositor.shares[i], env), CooldownNotElapsed);
    :- Need(s > 0 && SharesToUsdcValue(info, tav, s) > 0, InvalidParams);
    Ok(if operator then None else Some(depositor.shares[i]))
  }

  function ExecBurn(st: State, p: Account, depositor: Account, operator: bool, s: int, skipCooldown: bool,
        env: Env): Result<Reply> {
    var entry :- AdmitBurn(st, p, depositor, operator, s, skipCooldown, env);
    var info := p.info.value;
    var t := TermsOfBurn(info, p.collateral + env.pnl, entry, s);
    var info' := Burned(info, operator, s, t);
    :- Need(info.status == FROZEN || CheckMinOperatorShareRate(info'), OperatorRateViolation);
    var st2 :- PayOut(st, p.index, depositor.index, operator, s, info', t.delivered * USDC_TO_COLLATERAL);
    Ok(Reply(st2, t.delivered))
  }

  function ExecBurnShares(st: State, sender: string, pool: nat, s: int, env: Env): Result<Reply> {
    if sender == "" then Err(InvalidAddress) else
    :- Need(s > 0, InvalidParams);
    var p :- st.GetAccount(pool);
    :- Need(p.IsPoolAccount(), InvalidPoolAccount);
    var depositor :- st.MasterByOwner(sender);
    var operator :- st.IsPoolOperator(p, sender);
    ExecBurn(st, p, depositor, operator, s, false, env)
  }

  function ExecForceBurnShares(st: State, sender: string, pool: nat, depositor: nat, s: int, env: Env): Result<Reply> {
    if sender == "" then Err(InvalidAddress) else
    :- Need(s > 0, InvalidParams);
    :- Need(sender == st.authority, InvalidAuthority);
    var p :- st.GetAccount(pool);
    :- Need(p.IsPoolAccount(), InvalidPoolAccount);
    :- Need(p.kind.InsuranceFund?, NotInsuranceFund);
    :- Need(st.params.liquidityPool == pool, InvalidPoolUpdate);
    :- Need(depositor in st.accounts, InvalidDepositorIndex);
    ExecBurn(st, p, st.accounts[depositor], false, s, true, env)
  }

  /** The strategy slots, rebuilt to their fixed number if they ever drift. */
  function FixedSlots(slots: seq<int>): (r: seq<int>)
    ensures |r| == NB_STRATEGIES
  {
    if |slots| == NB_STRATEGIES then slots
    else seq(NB_STRATEGIES, i requires 0 <= i => if i < |slots| then slots[i] else 0)
  }

  function ExecStrategyTransfer(st: State, sender: string, pool: nat, f: nat, t: nat, delta: int): Result<Reply> {
    if sender == "" then Err(InvalidAddress) else
    :- Need(f != t, InvalidParams);
    :- Need(f < NB_STRATEGIES && t < NB_STRATEGIES, InvalidStrategyIdx);
    :- Need(delta > 0, InvalidParams);
    var p :- st.GetAccount(pool);
    :- Need(p.IsPoolAccount(), InvalidPoolAccount);
    :- Need(p.kind.InsuranceFund?, NotInsuranceFund);
    var operator :- st.IsPoolOperator(p, sender);
    :- Need(operator, Unauthorized);
    :- Need(p.info.value.status != FROZEN, PoolFrozen);
    var slots := FixedSlots(p.info.value.strategies);
    :- Need(slots[f] >= delta, InsufficientFunds);
    var st2 :- st.UpdatePoolInfo(p.index,
                 p.info.value.(strategies := slots[f := slots[f] - delta][t := slots[t] + delta]));
    Ok(Reply(st2, 0))
  }

  // ---------- x/asset/keeper/msg_server.go ----------

  function ExecRegisterAsset(st: State, sender: string, denom: string, name: string, decimals: nat, multiplier: nat,
        minTransfer: nat, minWithdraw: nat, marginMode: nat): Result<Reply> {
    if sender == "" then Err(InvalidAddress) else
    :- Need(ValidDenom(denom), InvalidAssetParams);
    :- Need(denom != USDC_DENOM, UsdcMarginConstraint);
    :- Need(0 < |name| <= MAX_DISPLAY_NAME_LENGTH, InvalidAssetParams);
    :- Need(Fold(name) != Fold(USDC_DISPLAY_NAME), UsdcMarginConstraint);
    :- Need(0 < decimals <= MAX_ASSET_DECIMALS, InvalidAssetParams);
    :- Need(0 < multiplier <= MAX_EXTENSION_MULTIPLIER && minTransfer != 0 && minWithdraw != 0, InvalidAssetParams);
    :- Need(marginMode == 0, UsdcMarginConstraint);
    :- Need(sender == st.authority, InvalidAuthority);
    :- Need(!NameTaken(st.assets, name), AssetExists);
    :- Need(1 <= st.nextAsset, InvalidParams);
    :- Need(st.nextAsset <= st.maxAsset, AssetIndexExceedsMax);
    :- Need(st.nextAsset != USDC, UsdcMarginConstraint);
    var a := Asset(st.nextAsset, denom, name, decimals, multiplier, minTransfer, minWithdraw, false, true);
    var st2 :- st.(nextAsset := st.nextAsset + 1).CreateAsset(a);
    Ok(Reply(st2, a.index))
  }

  function ExecUpdateAsset(st: State, sender: string, asset: nat, minTransfer: nat, minWithdraw: nat,
        enabled: bool): Result<Reply> {
    if sender == "" then Err(InvalidAddress) else
    :- Need(asset != 0 && minTransfer != 0 && minWithdraw != 0, InvalidAssetParams);
    :- Need(sender == st.authority, InvalidAuthority);
    var a :- st.GetAsset(asset);
    :- Need(asset != USDC || enabled, UsdcMarginConstraint);
    var st2 :- st.UpdateAsset(a.(minTransfer := minTransfer, minWithdraw := minWithdraw, enabled := enabled));
    Ok(Reply(st2, 0))
  }

  // ---------- delivery and runs ----------

  function Quiet(r: Result<State>): Result<Reply> {
    var st :- r; Ok(Reply(st, 0))
  }

  function Exec(st: State, msg: Msg, env: Env): Result<Reply> {
    match msg
    case Deposit(s, b, x, r, n) => ExecDeposit(st, s, b, x, r, n, env)
    case Withdraw(s, i, x, r, n) => ExecWithdraw(st, s, i, x, r, n, env)
    case Transfer(s, f, t, x, n) => ExecTransfer(st, s, f, t, x, n, env)
    case CreateSubAccount(s, i) => ExecCreateSubAccount(st, s, i, env)
    case UpdateAccountConfig(s, i, m) => ExecUpdateAccountConfig(st, s, i, m)
    case UpdateAccountAssetConfig(s, i, x, m) => ExecUpdateAccountAssetConfig(st, s, i, x, m)
    case UpdateMargin(s, i, k, a, d) => ExecUpdateMargin(st, s, i, k, a, d, env)
    case UpdateLeverage(s, i, k, m, f) => ExecUpdateLeverage(st, s, i, k, m, f, env)
    case UpdateParams(s, p) => ExecUpdateParams(st, s, p)
    case CreatePublicPool(s, i, n, f, r) => ExecCreatePublicPool(st, s, i, n, f, r, env)
    case UpdatePublicPool(s, p, c, f, r) => ExecUpdatePublicPool(st, s, p, c, f, r, env)
    case MintShares(s, p, u) => ExecMintShares(st, s, p, u, env)
    case BurnShares(s, p, n) => ExecBurnShares(st, s, p, n, env)
    case ForceBurnShares(s, p, d, n) => ExecForceBurnShares(st, s, p, d, n, env)
    case StrategyTransfer(s, p, f, t, d) => ExecStrategyTransfer(st, s, p, f, t, d)
    case RegisterAsset(s, d, name, c, m, t, w, g) => ExecRegisterAsset(st, s, d, name, c, m, t, w, g)
    case UpdateAsset(s, x, t, w, e) => ExecUpdateAsset(st, s, x, t, w, e)
    case LockSpot(i, x, d) => Quiet(st.IncreaseLockedBalance(i, x, d))
    case UnlockSpot(i, x, d) => Quiet(st.DecreaseLockedBalance(i, x, d))
    case MoveSpot(f, t, x, d, drain) => Quiet(st.TransferAccountAssetBalance(f, t, x, d, drain))
    case SettleFunding(i, k) => Quiet(SettlePosition(st, i, k, env.prefixes))
    case PerpFill(m) => Quiet(Branched(ApplyMatch(st, m, env)))
    case CloseOut(m) => Ok(Reply(Kept(ApplyMatch(st, m, env)), 0))
  }

  /** A failing message is rolled back whole. */
  function Deliver(st: State, msg: Msg, env: Env): State {
    var r := Exec(st, msg, env);
    if r.Ok? then r.value.state else st
  }

  datatype Tx = Tx(msg: Msg, env: Env)

  function Run(st: State, txs: seq<Tx>): State {
    if txs == [] then st
    else
      var last := txs[|txs| - 1];
      Deliver(Run(st, txs[..|txs| - 1]), last.msg, last.env)
  }
}

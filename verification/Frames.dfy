// Which accounts a message may touch, and what it leaves alone in all others.
module Frames {
  import opened Types
  import opened Pools
  import opened Store
  import opened Funding
  import opened Trades
  import opened Messages
  import opened Invariants
  import opened Preservation
  import opened Delivery

  /** The accounts a message names, directly or through an owner. */
  function Touched(st: State, msg: Msg): set<nat> {
    match msg
    case Deposit(s, b, _, _, _) => MasterOf(st, if b == "" then s else b)
    case Withdraw(_, i, _, _, _) => {i}
    case Transfer(_, f, t, _, _) => {f, t}
    case CreateSubAccount(_, _) => {}
    case UpdateAccountConfig(_, i, _) => {i}
    case UpdateAccountAssetConfig(_, i, _, _) => {i}
    case UpdateMargin(_, i, _, _, _) => {i}
    case UpdateLeverage(_, i, _, _, _) => {i}
    case UpdateParams(_, _) => {}
    case CreatePublicPool(_, i, _, _, _) => {i}
    case UpdatePublicPool(_, p, _, _, _) => {p}
    case MintShares(s, p, _) => {p} + MasterOf(st, s)
    case BurnShares(s, p, _) => {p} + MasterOf(st, s)
    case ForceBurnShares(_, p, d, _) => {p, d}
    case StrategyTransfer(_, p, _, _, _) => {p}
    case RegisterAsset(_, _, _, _, _, _, _, _) => {}
    case UpdateAsset(_, _, _, _, _) => {}
    case LockSpot(i, _, _) => {i}
    case UnlockSpot(i, _, _) => {i}
    case MoveSpot(f, t, _, _, _) => {f, t}
    case SettleFunding(i, _) => {i}
    case PerpFill(m) => FillTouches(m)
    case CloseOut(m) => FillTouches(m)
  }

  function FillTouches(m: Match): set<nat> {
    {m.maker, m.taker, TREASURY, m.Recipient()}
  }

  function MasterOf(st: State, owner: string): set<nat> {
    if owner in st.owners then {st.owners[owner]} else {}
  }

  /** Everything filed under account `i` is as it was. */
  ghost predicate Framed(st: State, st': State, i: nat) {
    && i in st.accounts && i in st'.accounts && st'.accounts[i] == st.accounts[i]
    && (forall x :: st'.GetRow(i, x) == st.GetRow(i, x))
    && (forall k :: st'.GetPosition(i, k) == st.GetPosition(i, k))
  }

  /** The row kept its identity, its pool record and its entries. */
  predicate OnlyBalance(a: Account, a': Account) {
    a' == a.(collateral := a'.collateral, tradingMode := a'.tradingMode)
  }

  /** The row kept all but its balance, and everything if it was not touched. */
  ghost predicate Leaves(st: State, st': State, i: nat, touched: bool) {
    && i in st.accounts && i in st'.accounts && OnlyBalance(st.accounts[i], st'.accounts[i])
    && (touched || Framed(st, st', i))
  }

  // ---------- writes ----------

  lemma LeavesOn(st: State, st1: State, st2: State, i: nat, touched: bool)
    requires Leaves(st, st1, i, touched) && Leaves(st1, st2, i, touched)
    ensures Leaves(st, st2, i, touched)
  {
    hide State.GetRow, State.GetPosition;
    if !touched {
      forall x ensures st2.GetRow(i, x) == st.GetRow(i, x) { assert st1.GetRow(i, x) == st.GetRow(i, x); }
      forall k ensures st2.GetPosition(i, k) == st.GetPosition(i, k) {
        assert st1.GetPosition(i, k) == st.GetPosition(i, k);
      }
    }
  }

  /** A write to other tables, or to other account rows. */
  lemma OtherTables(st: State, st': State, i: nat, touched: bool)
    requires i in st.accounts && i in st'.accounts && st'.accounts[i] == st.accounts[i]
    requires st'.rows == st.rows && st'.positions == st.positions
    ensures Framed(st, st', i) && Leaves(st, st', i, touched)
  {
  }

  lemma AddCollateralLeaves(st: State, j: nat, d: int, i: nat, touched: bool)
    requires Core(st) && i in st.accounts && st.AddCollateral(j, d).Ok? && (i == j ==> touched)
    ensures Leaves(st, st.AddCollateral(j, d).value, i, touched)
  {
    hide Core;
    KeyFacts(st, j);
  }

  lemma CreditLeaves(st: State, j: nat, d: int, i: nat, touched: bool)
    requires Core(st) && i in st.accounts && (i == j ==> touched)
    ensures Leaves(st, Kept(At(st, Credit(st, j, d))), i, touched)
  {
    hide Core, Leaves, State.AddCollateral;
    OtherTables(st, st, i, touched);
    if d != 0 && st.AddCollateral(j, d).Ok? { AddCollateralLeaves(st, j, d, i, touched); }
  }

  lemma SetRowLeaves(st: State, r: AssetRow, i: nat, touched: bool)
    requires i in st.accounts && (i == r.account ==> touched)
    ensures Leaves(st, st.SetRow(r), i, touched)
  {
  }

  lemma AddBalanceLeaves(st: State, j: nat, x: nat, d: int, i: nat, touched: bool)
    requires Core(st) && i in st.accounts && st.AddAccountAssetBalance(j, x, d).Ok? && (i == j ==> touched)
    ensures Leaves(st, st.AddAccountAssetBalance(j, x, d).value, i, touched)
  {
    hide Core, Leaves;
    CoreTables(st);
    GetRowOk(st, j, x);
    var r := st.GetRow(j, x);
    SetRowLeaves(st, r.(balance := r.balance + d), i, touched);
  }

  lemma SetPositionLeaves(st: State, p: Position, i: nat, touched: bool)
    requires i in st.accounts && (i == p.account ==> touched)
    ensures Leaves(st, st.SetPosition(p), i, touched)
  {
  }

  lemma SettleLeaves(st: State, j: nat, k: nat, prefixes: map<nat, int>, i: nat, touched: bool)
    requires i in st.accounts && SettlePosition(st, j, k, prefixes).Ok? && (i == j ==> touched)
    ensures Leaves(st, SettlePosition(st, j, k, prefixes).value, i, touched)
  {
    hide Leaves, Settled;
    SetPositionLeaves(st, Settled(st.GetPosition(j, k), prefixes[k]).(account := j, market := k), i, touched);
  }

  lemma SettleAllLeaves(st: State, j: nat, prefixes: map<nat, int>, i: nat, touched: bool)
    requires i in st.accounts && SettleAll(st, j, prefixes).Ok? && (i == j ==> touched)
    ensures Leaves(st, SettleAll(st, j, prefixes).value, i, touched)
  {
    hide Settled;
  }

  // ---------- ledger messages ----------

  lemma DepositLeaves(st: State, sender: string, b: string, x: nat, route: Route, n: nat, env: Env, i: nat)
    requires Core(st) && i in st.accounts && ExecDeposit(st, sender, b, x, route, n, env).Ok?
    ensures Leaves(st, ExecDeposit(st, sender, b, x, route, n, env).value.state, i,
                   i in MasterOf(st, if b == "" then sender else b))
  {
    hide Core, Leaves, Moves, Max, State.EnsureMasterAccount, State.AddCollateral, State.AddAccountAssetBalance;
    var a, who := st.assets[x], if b == "" then sender else b;
    var t := i in MasterOf(st, who);
    var st1 := st.MoveCoins(a.denom, n);
    MoveCoinsStep(st, x, n);
    OtherTables(st, st1, i, t);
    var st2, acc := EnsureMasterStep(st1, who, env.now);
    EnsureMasterLeaves(st1, who, env.now, i);
    LeavesOn(st, st1, st2, i, t);
    if route.Perps? {
      AddCollateralLeaves(st2, acc.index, n * a.multiplier, i, t);
    } else {
      AddBalanceLeaves(st2, acc.index, x, n * a.multiplier, i, t);
    }
    LeavesOn(st, st2, ExecDeposit(st, sender, b, x, route, n, env).value.state, i, t);
  }

  /** The owner's master is the one the index names, or a row that was not there. */
  lemma EnsureMasterLeaves(st: State, owner: string, now: int, i: nat)
    requires Core(st) && i in st.accounts && st.EnsureMasterAccount(owner, now).Ok?
    ensures var (st', a) := st.EnsureMasterAccount(owner, now).value;
            Leaves(st, st', i, i in MasterOf(st, owner)) && i in st'.accounts
            && (i == a.index ==> i in MasterOf(st, owner))
  {
    hide Core, Leaves, AccountsOk, SharesAddUp;
    CoreAccounts(st);
    NextIndexUnused(st);
    if owner in st.owners { KeyFacts(st, st.owners[owner]); }
    OtherTables(st, st.EnsureMasterAccount(owner, now).value.0, i, i in MasterOf(st, owner));
  }

  lemma WithdrawLeaves(st: State, sender: string, j: nat, x: nat, route: Route, n: nat, env: Env, i: nat)
    requires Core(st) && i in st.accounts && ExecWithdraw(st, sender, j, x, route, n, env).Ok?
    ensures Leaves(st, ExecWithdraw(st, sender, j, x, route, n, env).value.state, i, i == j)
  {
    hide Core, Leaves, Moves, Max, SettleAll, State.AddCollateral, State.AddAccountAssetBalance;
    var delta := n * st.assets[x].multiplier;
    var st2 := Debit(st, j, x, st.assets[x], route, delta, env).value;
    if route.Perps? {
      var st1 := SettleAllStep(st, j, env.prefixes);
      SettleAllLeaves(st, j, env.prefixes, i, i == j);
      AddCollateralLeaves(st1, j, -delta, i, i == j);
      LeavesOn(st, st1, st2, i, i == j);
    } else {
      AddBalanceLeaves(st, j, x, -delta, i, i == j);
    }
    LeavesInside(st, st2, i, i == j);
    var st' := ExecWithdraw(st, sender, j, x, route, n, env).value.state;
    OtherTables(st2, st', i, i == j);
    LeavesOn(st, st2, st', i, i == j);
  }

  lemma LeavesInside(st: State, st': State, i: nat, touched: bool)
    requires Leaves(st, st', i, touched)
    ensures i in st'.accounts
  {
  }

  lemma TransferLeaves(st: State, sender: string, f: nat, to: nat, x: nat, n: nat, env: Env, i: nat)
    requires Core(st) && i in st.accounts && ExecTransfer(st, sender, f, to, x, n, env).Ok?
    ensures Leaves(st, ExecTransfer(st, sender, f, to, x, n, env).value.state, i, i in {f, to})
  {
    hide Core, Leaves, Moves, Max, SettleAll, State.AddCollateral, State.AddAccountAssetBalance;
    var delta, t := n * st.assets[x].multiplier, i in {f, to};
    var st2, st3: State;
    if st.assets[x].margin {
      var st1 := SettleAllStep(st, f, env.prefixes);
      SettleAllLeaves(st, f, env.prefixes, i, t);
      st2 := AddCollateralStep(st1, f, -delta);
      AddCollateralLeaves(st1, f, -delta, i, t);
      LeavesOn(st, st1, st2, i, t);
      st3 := AddCollateralStep(st2, to, delta);
      AddCollateralLeaves(st2, to, delta, i, t);
    } else {
      st2 := AddBalanceStep(st, f, x, -delta);
      AddBalanceLeaves(st, f, x, -delta, i, t);
      st3 := AddBalanceStep(st2, to, x, delta);
      AddBalanceLeaves(st2, to, x, delta, i, t);
    }
    LeavesOn(st, st2, st3, i, t);
  }

  lemma UpdateMarginLeaves(st: State, sender: string, j: nat, k: nat, action: MarginAction, d: int, env: Env, i: nat)
    requires Core(st) && i in st.accounts && ExecUpdateMargin(st, sender, j, k, action, d, env).Ok?
    ensures Leaves(st, ExecUpdateMargin(st, sender, j, k, action, d, env).value.state, i, i == j)
  {
    hide Core, Leaves, Moves, SettlePosition, State.AddCollateral;
    var st1 := SettlePositionStep(st, j, k, env.prefixes);
    SettleLeaves(st, j, k, env.prefixes, i, i == j);
    GetPositionOk(st1, j, k);
    var p := st1.GetPosition(j, k);
    var moved := if action.AddMargin? then d else -d;
    var p' := p.(allocatedMargin := p.allocatedMargin + moved);
    SetPositionStep(st1, p');
    SetPositionLeaves(st1, p', i, i == j);
    LeavesOn(st, st1, st1.SetPosition(p'), i, i == j);
    AddCollateralLeaves(st1.SetPosition(p'), j, -moved, i, i == j);
    LeavesOn(st, st1.SetPosition(p'), st1.SetPosition(p').AddCollateral(j, -moved).value, i, i == j);
  }

  lemma AccountConfigLeaves(st: State, sender: string, j: nat, mode: nat, i: nat)
    requires Core(st) && i in st.accounts && ExecUpdateAccountConfig(st, sender, j, mode).Ok?
    ensures Leaves(st, ExecUpdateAccountConfig(st, sender, j, mode).value.state, i, i == j)
  {
    hide Core;
    KeyFacts(st, j);
  }

  lemma RowConfigLeaves(st: State, sender: string, j: nat, x: nat, mode: nat, i: nat)
    requires Core(st) && i in st.accounts && ExecUpdateAccountAssetConfig(st, sender, j, x, mode).Ok?
    ensures Leaves(st, ExecUpdateAccountAssetConfig(st, sender, j, x, mode).value.state, i, i == j)
  {
    hide Core, Leaves;
    CoreTables(st);
    GetRowOk(st, j, x);
    SetRowLeaves(st, st.GetRow(j, x).(marginMode := mode), i, i == j);
  }

  lemma LeverageLeaves(st: State, sender: string, j: nat, k: nat, mode: nat, imf: nat, env: Env, i: nat)
    requires Core(st) && i in st.accounts && ExecUpdateLeverage(st, sender, j, k, mode, imf, env).Ok?
    ensures Leaves(st, ExecUpdateLeverage(st, sender, j, k, mode, imf, env).value.state, i, i == j)
  {
    hide Core, Leaves;
    GetPositionOk(st, j, k);
    SetPositionLeaves(st, st.GetPosition(j, k).(marginMode := mode, initialMarginFraction := imf), i, i == j);
  }

  lemma CreateSubLeaves(st: State, sender: string, j: nat, env: Env, i: nat)
    requires Core(st) && i in st.accounts && ExecCreateSubAccount(st, sender, j, env).Ok?
    ensures Leaves(st, ExecCreateSubAccount(st, sender, j, env).value.state, i, false)
  {
    hide Core, Leaves, AccountsOk, SharesAddUp, IndexOk;
    CoreAccounts(st);
    NextIndexUnused(st);
    SubIndexInRange(st);
    OtherTables(st, ExecCreateSubAccount(st, sender, j, env).value.state, i, false);
  }

  lemma ParamsLeave(st: State, sender: string, q: Params, i: nat)
    requires i in st.accounts && ExecUpdateParams(st, sender, q).Ok?
    ensures Leaves(st, ExecUpdateParams(st, sender, q).value.state, i, false)
  {
    hide Leaves;
    OtherTables(st, ExecUpdateParams(st, sender, q).value.state, i, false);
  }

  lemma RegisterLeaves(st: State, s: string, d: string, name: string, c: nat, m: nat, t: nat, w: nat, g: nat, i: nat)
    requires i in st.accounts && ExecRegisterAsset(st, s, d, name, c, m, t, w, g).Ok?
    ensures Leaves(st, ExecRegisterAsset(st, s, d, name, c, m, t, w, g).value.state, i, false)
  {
    hide Leaves;
    OtherTables(st, ExecRegisterAsset(st, s, d, name, c, m, t, w, g).value.state, i, false);
  }

  lemma AssetUpdateLeaves(st: State, sender: string, x: nat, t: nat, w: nat, enabled: bool, i: nat)
    requires i in st.accounts && ExecUpdateAsset(st, sender, x, t, w, enabled).Ok?
    ensures Leaves(st, ExecUpdateAsset(st, sender, x, t, w, enabled).value.state, i, false)
  {
    hide Leaves;
    OtherTables(st, ExecUpdateAsset(st, sender, x, t, w, enabled).value.state, i, false);
  }

  lemma LedgerMessageLeaves(st: State, msg: Msg, env: Env, i: nat)
    requires Core(st) && i in st.accounts && !PoolMessage(msg) && !Settlement(msg) && Exec(st, msg, env).Ok?
    ensures Leaves(st, Exec(st, msg, env).value.state, i, i in Touched(st, msg))
  {
    hide Core, Leaves, ExecDeposit, ExecWithdraw, ExecTransfer, ExecCreateSubAccount, ExecUpdateAccountConfig,
         ExecUpdateAccountAssetConfig, ExecUpdateMargin, ExecUpdateLeverage, ExecUpdateParams, ExecRegisterAsset,
         ExecUpdateAsset;
    match msg {
      case Deposit(s, b, x, r, n) => DepositLeaves(st, s, b, x, r, n, env, i);
      case Withdraw(s, j, x, r, n) => WithdrawLeaves(st, s, j, x, r, n, env, i);
      case Transfer(s, f, t, x, n) => TransferLeaves(st, s, f, t, x, n, env, i);
      case CreateSubAccount(s, j) => CreateSubLeaves(st, s, j, env, i);
      case UpdateAccountConfig(s, j, m) => AccountConfigLeaves(st, s, j, m, i);
      case UpdateAccountAssetConfig(s, j, x, m) => RowConfigLeaves(st, s, j, x, m, i);
      case UpdateMargin(s, j, k, a, d) => UpdateMarginLeaves(st, s, j, k, a, d, env, i);
      case UpdateLeverage(s, j, k, m, f) => LeverageLeaves(st, s, j, k, m, f, env, i);
      case UpdateParams(s, q) => ParamsLeave(st, s, q, i);
      case RegisterAsset(s, d, name, c, m, t, w, g) => RegisterLeaves(st, s, d, name, c, m, t, w, g, i);
      case UpdateAsset(s, x, t, w, e) => AssetUpdateLeaves(st, s, x, t, w, e, i);
    }
  }

  // ---------- perp fills ----------

  /** The account gains at most: nothing but its collateral moved, and that only up. */
  ghost predicate Enriched(st: State, st': State, i: nat) {
    && i in st.accounts && i in st'.accounts
    && st.accounts[i].collateral <= st'.accounts[i].collateral
    && st'.accounts[i] == st.accounts[i].(collateral := st'.accounts[i].collateral)
    && (forall x :: st'.GetRow(i, x) == st.GetRow(i, x))
    && (forall k :: st'.GetPosition(i, k) == st.GetPosition(i, k))
  }

  lemma FoldMarginLeaves(st: State, s: Side, delta: int, i: nat, touched: bool)
    requires Core(st) && i in st.accounts && (i == s.account ==> touched)
    ensures Leaves(st, FoldMargin(st, s, delta).0, i, touched)
  {
    hide Core, Leaves;
    if delta == 0 {
      OtherTables(st, st, i, touched);
    } else {
      GetPositionOk(st, s.account, s.market);
      var p := st.GetPosition(s.account, s.market);
      SetPositionLeaves(st, p.(allocatedMargin := p.allocatedMargin + delta), i, touched);
    }
  }

  lemma RebalanceLeaves(st: State, s: Side, fee: int, isMaker: bool, m: Match, env: TradeEnv, i: nat, touched: bool)
    requires Core(st) && i in st.accounts && (i == s.account ==> touched)
    ensures Leaves(st, Kept(Rebalance(st, s, fee, isMaker, m, env)), i, touched)
  {
    hide Core, Leaves, Moves, MarginDelta, FoldMargin, ShortOf;
    OtherTables(st, st, i, touched);
    if MarginDelta(s, fee, env).Ok? {
      var delta := MarginDelta(s, fee, env).value;
      if delta != 0 && !ShortOf(delta, isMaker, m, env) {
        FoldMarginStep(st, s, delta);
        FoldMarginLeaves(st, s, delta, i, touched);
        var st1 := FoldMargin(st, s, delta).0;
        CreditLeaves(st1, s.account, -delta, i, touched);
        LeavesOn(st, st1, Kept(At(st1, Credit(st1, s.account, -delta))), i, touched);
      }
    }
  }

  lemma IsolatedLeaves(st: State, s: Side, fee: int, isMaker: bool, liqFee: int, m: Match, env: TradeEnv, i: nat,
        touched: bool)
    requires Core(st) && i in st.accounts && (i == s.account ==> touched)
    ensures Leaves(st, Kept(ApplyIsolated(st, s, fee, isMaker, liqFee, m, env)), i, touched)
  {
    hide Core, Leaves, Moves, FoldMargin, Rebalance, Charge;
    FoldMarginStep(st, s, s.realized - fee);
    FoldMarginLeaves(st, s, s.realized - fee, i, touched);
    var (st1, s1) := FoldMargin(st, s, s.realized - fee);
    FoldMarginStep(st1, s1, Charge(isMaker, liqFee));
    FoldMarginLeaves(st1, s1, Charge(isMaker, liqFee), i, touched);
    var (st2, s2) := FoldMargin(st1, s1, Charge(isMaker, liqFee));
    LeavesOn(st, st1, st2, i, touched);
    RebalanceLeaves(st2, s2, fee, isMaker, m, env, i, touched);
    LeavesOn(st, st2, Kept(Rebalance(st2, s2, fee, isMaker, m, env)), i, touched);
  }

  lemma CrossLeaves(st: State, s: Side, fee: int, isMaker: bool, liqFee: int, i: nat, touched: bool)
    requires Core(st) && i in st.accounts && (i == s.account ==> touched)
    ensures Leaves(st, Kept(ApplyCross(st, s, fee, isMaker, liqFee)), i, touched)
  {
    hide Core, Leaves, Moves, Credit, Charge;
    var st1 := CreditStep(st, s.account, s.realized - fee);
    CreditLeaves(st, s.account, s.realized - fee, i, touched);
    LeavesInside(st, st1, i, touched);
    CreditLeaves(st1, s.account, Charge(isMaker, liqFee), i, touched);
    LeavesOn(st, st1, Kept(At(st1, Credit(st1, s.account, Charge(isMaker, liqFee)))), i, touched);
  }

  lemma AccountLeaves(st: State, s: Side, fee: int, isMaker: bool, liqFee: int, m: Match, env: TradeEnv, i: nat,
        touched: bool)
    requires Core(st) && i in st.accounts && (i == s.account ==> touched)
    ensures Leaves(st, Kept(ApplyAccount(st, s, fee, isMaker, liqFee, m, env)), i, touched)
  {
    hide Core, Leaves, ApplyIsolated, ApplyCross;
    if s.before.marginMode == ISOLATED_MARGIN {
      IsolatedLeaves(st, s, fee, isMaker, liqFee, m, env, i, touched);
    } else {
      CrossLeaves(st, s, fee, isMaker, liqFee, i, touched);
    }
  }

  lemma RouteSidesLeave(st: State, m: Match, maker: Side, taker: Side, env: TradeEnv, i: nat, touched: bool)
    requires Core(st) && i in st.accounts && (i == maker.account || i == taker.account ==> touched)
    ensures Leaves(st, Kept(RouteSides(st, m, maker, taker, env)), i, touched)
  {
    hide Core, Leaves, Moves, ApplyAccount, TakerFee, MakerFee, LiquidationFee;
    var first := ApplyAccount(st, taker, TakerFee(m), false, 0, m, env);
    AccountStep(st, taker, TakerFee(m), false, 0, m, env);
    AccountLeaves(st, taker, TakerFee(m), false, 0, m, env, i, touched);
    if first.Made? {
      LeavesInside(st, first.value, i, touched);
      AccountLeaves(first.value, maker, MakerFee(m), true, LiquidationFee(m), m, env, i, touched);
      LeavesOn(st, first.value, Kept(ApplyAccount(first.value, maker, MakerFee(m), true, LiquidationFee(m), m, env)),
               i, touched);
    }
  }

  lemma SettleBothLeaves(st: State, m: Match, prefixes: map<nat, int>, i: nat, touched: bool)
    requires Core(st) && i in st.accounts && (i in {m.maker, m.taker} ==> touched)
    ensures Leaves(st, Kept(SettleBoth(st, m, prefixes)), i, touched)
  {
    hide Core, Leaves, Moves, SettlePosition;
    OtherTables(st, st, i, touched);
    KnownMarket(st, m.maker, m.market, prefixes);
    if m.market in prefixes {
      var st1 := SettlePositionStep(st, m.maker, m.market, prefixes);
      SettleLeaves(st, m.maker, m.market, prefixes, i, touched);
      LeavesInside(st, st1, i, touched);
      KnownMarket(st1, m.taker, m.market, prefixes);
      SettleLeaves(st1, m.taker, m.market, prefixes, i, touched);
      LeavesOn(st, st1, SettlePosition(st1, m.taker, m.market, prefixes).value, i, touched);
    }
  }

  lemma ChangeLeaves(st: State, j: nat, k: nat, d: int, price: nat, error: Error, i: nat, touched: bool)
    returns (st': State, s: Side)
    requires Core(st) && i in st.accounts && ChangePosition(st, j, k, d, price, error).Ok? && (i == j ==> touched)
    ensures ChangePosition(st, j, k, d, price, error) == Ok((st', s)) && Core(st') && s.account == j
    ensures Leaves(st, st', i, touched) && i in st'.accounts
  {
    hide Core, Leaves, Moves, P.ApplyFill, Shifts;
    var r: int;
    st', s, r := ChangePositionStep(st, j, k, d, price, error);
    SetPositionLeaves(st, s.after, i, touched);
  }

  /**
   * Up to the fees' recipients a match touches its two sides only, wherever it
   * stops: it ends here, or with the credit of the fees.
   */
  lemma UpToFees(st: State, m: Match, env: Env, i: nat, touched: bool) returns (st': State)
    requires Core(st) && i in st.accounts && (i in {m.maker, m.taker} ==> touched)
    ensures Core(st') && Leaves(st, st', i, touched) && i in st'.accounts
    ensures Kept(ApplyMatch(st, m, env)) == st' || Kept(ApplyMatch(st, m, env)) == Kept(CreditFees(st', m))
  {
    hide Core, Leaves, Moves, Shifts, SettleBoth, ChangePosition, RouteSides, CreditFees, Approve, SnapshotFails;
    var st1 := SettleBothStep(st, m, env.prefixes);
    SettleBothLeaves(st, m, env.prefixes, i, touched);
    LeavesInside(st, st1, i, touched);
    st' := st1;
    if SettleBoth(st, m, env.prefixes).Made? && !SnapshotFails(m, env.trade) && ChangeMaker(st1, m).Ok? {
      var st2, maker := ChangeLeaves(st1, m.maker, m.market, m.MakerDelta(), m.price, MakerInvalidPosition, i, touched);
      LeavesOn(st, st1, st2, i, touched);
      st' := st2;
      if ChangeTaker(st2, m).Ok? {
        var st3, taker := ChangeLeaves(st2, m.taker, m.market, -m.MakerDelta(), m.price, TakerInvalidPosition, i, touched);
        LeavesOn(st, st2, st3, i, touched);
        SidesStep(st3, m, maker, taker, env.trade);
        RouteSidesLeave(st3, m, maker, taker, env.trade, i, touched);
        st' := Kept(RouteSides(st3, m, maker, taker, env.trade));
        LeavesOn(st, st3, st', i, touched);
        LeavesInside(st, st', i, touched);
        ApproveKeeps(Kept(CreditFees(st', m)), m, env.trade);
      }
    }
  }

  lemma FeesAreCredits(m: Match)
    ensures 0 <= TakerFee(m) && 0 <= MakerFee(m)
  {
    FeeIsCredit(m.base * m.price, m.takerFee);
    FeeIsCredit(m.base * m.price, m.makerFee);
  }

  lemma FeeIsCredit(notional: nat, bps: nat)
    ensures 0 <= FeeOf(notional, bps)
  {
  }

  lemma CreditEnriches(st: State, j: nat, d: int, i: nat)
    requires Core(st) && i in st.accounts && 0 <= d
    ensures Enriched(st, Kept(At(st, Credit(st, j, d))), i)
  {
    hide Core;
    if d != 0 && j in st.accounts { KeyFacts(st, j); }
  }

  lemma FeesEnrich(st: State, m: Match, i: nat)
    requires Core(st) && i in st.accounts
    ensures Enriched(st, Kept(CreditFees(st, m)), i)
  {
    hide Core, Moves, Enriched, Credit, TakerFee, MakerFee, LiquidationFee;
    FeesAreCredits(m);
    var st1 := CreditStep(st, TREASURY, TakerFee(m) + MakerFee(m));
    CreditEnriches(st, TREASURY, TakerFee(m) + MakerFee(m), i);
    EnrichedInside(st, st1, i);
    CreditEnriches(st1, m.Recipient(), Positive(LiquidationFee(m)), i);
    EnrichedTwice(st, st1, Kept(At(st1, Credit(st1, m.Recipient(), Positive(LiquidationFee(m))))), i);
  }

  lemma FeesLeave(st: State, m: Match, i: nat, touched: bool)
    requires Core(st) && i in st.accounts && (i == TREASURY || i == m.Recipient() ==> touched)
    ensures Leaves(st, Kept(CreditFees(st, m)), i, touched)
  {
    hide Core, Moves, Leaves, Credit, TakerFee, MakerFee, LiquidationFee;
    var st1 := CreditStep(st, TREASURY, TakerFee(m) + MakerFee(m));
    CreditLeaves(st, TREASURY, TakerFee(m) + MakerFee(m), i, touched);
    LeavesInside(st, st1, i, touched);
    CreditLeaves(st1, m.Recipient(), Positive(LiquidationFee(m)), i, touched);
    LeavesOn(st, st1, Kept(At(st1, Credit(st1, m.Recipient(), Positive(LiquidationFee(m))))), i, touched);
  }

  lemma EnrichedTwice(st: State, st1: State, st2: State, i: nat)
    requires Enriched(st, st1, i) && Enriched(st1, st2, i)
    ensures Enriched(st, st2, i)
  {
    hide State.GetRow, State.GetPosition;
    forall x ensures st2.GetRow(i, x) == st.GetRow(i, x) { assert st1.GetRow(i, x) == st.GetRow(i, x); }
    forall k ensures st2.GetPosition(i, k) == st.GetPosition(i, k) {
      assert st1.GetPosition(i, k) == st.GetPosition(i, k);
    }
  }

  lemma FramedIsEnriched(st: State, st': State, i: nat)
    requires Leaves(st, st', i, false)
    ensures Enriched(st, st', i) && i in st'.accounts
  {
  }

  /** A match never takes from an account that is not one of its sides, wherever it stops; it may credit it with fees. */
  lemma FillEnriches(st: State, m: Match, env: Env, i: nat)
    requires Core(st) && i in st.accounts && i != m.maker && i != m.taker
    ensures Enriched(st, Kept(ApplyMatch(st, m, env)), i)
  {
    hide Core, Leaves, Enriched, ApplyMatch, CreditFees;
    var st1 := UpToFees(st, m, env, i, false);
    FramedIsEnriched(st, st1, i);
    FeesEnrich(st1, m, i);
    EnrichedTwice(st, st1, Kept(CreditFees(st1, m)), i);
  }

  lemma EnrichedInside(st: State, st': State, i: nat)
    requires Enriched(st, st', i)
    ensures i in st'.accounts
  {
  }

  lemma FillLeaves(st: State, m: Match, env: Env, i: nat)
    requires Core(st) && i in st.accounts
    ensures Leaves(st, Kept(ApplyMatch(st, m, env)), i, i in FillTouches(m))
  {
    hide Core, Leaves, ApplyMatch, CreditFees;
    var st1 := UpToFees(st, m, env, i, i in FillTouches(m));
    FeesLeave(st1, m, i, i in FillTouches(m));
    LeavesOn(st, st1, Kept(CreditFees(st1, m)), i, i in FillTouches(m));
  }

  lemma SettlementLeaves(st: State, msg: Msg, env: Env, i: nat)
    requires Core(st) && i in st.accounts && Settlement(msg) && Exec(st, msg, env).Ok?
    ensures Leaves(st, Exec(st, msg, env).value.state, i, i in Touched(st, msg))
  {
    hide Core, Leaves, SettlePosition, ApplyMatch, State.IncreaseLockedBalance, State.DecreaseLockedBalance,
         State.TransferAccountAssetBalance;
    match msg {
      case LockSpot(j, x, d) => LockLeaves(st, j, x, d, i);
      case UnlockSpot(j, x, d) => LockLeaves(st, j, x, d, i);
      case MoveSpot(f, to, x, d, drain) => MoveSpotLeaves(st, f, to, x, d, drain, i);
      case SettleFunding(j, k) => SettleLeaves(st, j, k, env.prefixes, i, i == j);
      case PerpFill(m) => FillLeaves(st, m, env, i);
      case CloseOut(m) => FillLeaves(st, m, env, i);
    }
  }

  lemma LockLeaves(st: State, j: nat, x: nat, d: int, i: nat)
    requires Core(st) && i in st.accounts
    ensures var r := st.IncreaseLockedBalance(j, x, d); r.Ok? ==> Leaves(st, r.value, i, i == j)
    ensures var r := st.DecreaseLockedBalance(j, x, d); r.Ok? ==> Leaves(st, r.value, i, i == j)
  {
    hide Core, Leaves;
    CoreTables(st);
    GetRowOk(st, j, x);
    OtherTables(st, st, i, i == j);
    var r := st.GetRow(j, x);
    SetRowLeaves(st, r.(locked := r.locked + d), i, i == j);
    SetRowLeaves(st, r.(locked := r.locked - if d > r.locked then r.locked else d), i, i == j);
  }

  lemma MoveSpotLeaves(st: State, f: nat, to: nat, x: nat, d: int, drain: bool, i: nat)
    requires Core(st) && i in st.accounts && st.TransferAccountAssetBalance(f, to, x, d, drain).Ok?
    ensures Leaves(st, st.TransferAccountAssetBalance(f, to, x, d, drain).value, i, i in {f, to})
  {
    hide Core, Leaves;
    OtherTables(st, st, i, i in {f, to});
    if d != 0 {
      var src', dst' := MovedRows(st, f, to, x, d, drain);
      SetRowLeaves(st, src', i, i in {f, to});
      SetRowLeaves(st.SetRow(src'), dst', i, i in {f, to});
      LeavesOn(st, st.SetRow(src'), st.SetRow(src').SetRow(dst'), i, i in {f, to});
    }
  }

  // ---------- pool messages ----------

  lemma CreatePoolLeaves(st: State, sender: string, j: nat, n: nat, fee: nat, rate: nat, env: Env, i: nat)
    requires Core(st) && i in st.accounts && ExecCreatePublicPool(st, sender, j, n, fee, rate, env).Ok?
    ensures Leaves(st, ExecCreatePublicPool(st, sender, j, n, fee, rate, env).value.state, i, i == j)
  {
    hide Core, Leaves, AccountsOk, SharesAddUp, IndexOk, SettleAll, Moves;
    KeyFacts(st, j);
    var st1 := SettleAllStep(st, j, env.prefixes);
    SettleAllLeaves(st, j, env.prefixes, i, i == j);
    CoreAccounts(st1);
    NextIndexUnused(st1);
    SubIndexInRange(st1);
    var st' := ExecCreatePublicPool(st, sender, j, n, fee, rate, env).value.state;
    CreatedBeside(st1, st', i, j);
    LeavesOn(st, st1, st', i, i == j);
  }

  lemma CreatedBeside(st: State, st': State, i: nat, j: nat)
    requires i in st.accounts && i in st'.accounts && st'.rows == st.rows && st'.positions == st.positions
    requires OnlyBalance(st.accounts[i], st'.accounts[i]) && (i != j ==> st'.accounts[i] == st.accounts[i])
    ensures Leaves(st, st', i, i == j)
  {
  }

  /** Rows other than the two a mint or burn writes; the writer's positions may have been settled. */
  lemma PoolWritesLeave(st: State, st1: State, st': State, m: nat, p: nat, i: nat)
    requires i in st.accounts && i != m && i != p && Leaves(st, st1, i, false)
    requires st'.rows == st1.rows && st'.positions == st1.positions && i in st'.accounts
    requires st'.accounts[i] == st1.accounts[i]
    ensures Framed(st, st', i)
  {
    OtherTables(st1, st', i, false);
    LeavesOn(st, st1, st', i, false);
  }

  lemma MintLeaves(st: State, sender: string, p: nat, u: nat, env: Env, i: nat)
    requires Core(st) && i in st.accounts && ExecMintShares(st, sender, p, u, env).Ok?
    requires i != p && i !in MasterOf(st, sender)
    ensures Framed(st, ExecMintShares(st, sender, p, u, env).value.state, i)
  {
    hide Core, Framed, Leaves, ExecMintShares, UpsertEntry, UsdcValueToShares, CheckMinOperatorShareRate, SettleAll;
    var m, a, b, operator, sh := MintWrites(st, sender, p, u, env);
    OwnerIndex(st, sender);
    var st1 := SettleAllStep(st, m.index, env.prefixes);
    SettleAllLeaves(st, m.index, env.prefixes, i, false);
    PoolWritesLeave(st, st1, ExecMintShares(st, sender, p, u, env).value.state, m.index, p, i);
  }

  lemma BurnLeaves(st: State, p: nat, m: Account, operator: bool, s: int, skip: bool, env: Env, i: nat)
    requires Core(st) && i in st.accounts && i != p && i != m.index
    requires p in st.accounts && m.index in st.accounts && st.accounts[m.index] == m
    requires (m.kind.Master? || !operator) && 0 < s
    requires ExecBurn(st, st.accounts[p], m, operator, s, skip, env).Ok?
    ensures Framed(st, ExecBurn(st, st.accounts[p], m, operator, s, skip, env).value.state, i)
  {
    hide Core, Framed, Leaves, ExecBurn, BurnEffect;
    var entry, t, a, b := BurnWrites(st, p, m, operator, s, skip, env);
    BurnRows(st, p, m, operator, s, env, entry, t, a, b);
    OtherTables(st, ExecBurn(st, st.accounts[p], m, operator, s, skip, env).value.state, i, false);
  }

  lemma BurnRows(st: State, p: nat, m: Account, operator: bool, s: int, env: Env, entry: Option<Share>, t: BurnTerms,
        a: Account, b: Account)
    requires BurnEffect(st, p, m, operator, s, env, entry, t, a, b)
    ensures a.index == m.index && p in st.accounts && b.index == st.accounts[p].index
  {
    hide TermsOfBurn, Burnable, CheckMinOperatorShareRate, AvailableSharesToBurn, ReduceEntry;
  }

  lemma UpdatePoolLeaves(st: State, sender: string, p: nat, status: nat, fee: nat, rate: nat, env: Env, i: nat)
    requires Core(st) && i in st.accounts && i != p && ExecUpdatePublicPool(st, sender, p, status, fee, rate, env).Ok?
    ensures Framed(st, ExecUpdatePublicPool(st, sender, p, status, fee, rate, env).value.state, i)
  {
    hide Core, Framed, Leaves, ExecUpdatePublicPool;
    var a, params := UpdatePoolWrites(st, sender, p, status, fee, rate, env);
    OtherTables(st, ExecUpdatePublicPool(st, sender, p, status, fee, rate, env).value.state, i, false);
  }

  lemma PoolMessageLeaves(st: State, msg: Msg, env: Env, i: nat)
    requires Core(st) && i in st.accounts && PoolMessage(msg) && Exec(st, msg, env).Ok? && i !in Touched(st, msg)
    ensures Framed(st, Exec(st, msg, env).value.state, i)
  {
    hide Core, Framed, ExecBurn, ExecBurnShares, ExecForceBurnShares, ExecMintShares, ExecStrategyTransfer,
         ExecCreatePublicPool, ExecUpdatePublicPool;
    match msg {
      case CreatePublicPool(s, j, n, f, r) => CreatePoolLeaves(st, s, j, n, f, r, env, i);
      case MintShares(s, p, u) => MintLeaves(st, s, p, u, env, i);
      case BurnShares(s, p, n) =>
        var m, operator := BurnSharesIsBurn(st, s, p, n, env);
        BurnLeaves(st, p, m, operator, n, false, env, i);
      case ForceBurnShares(s, p, d, n) =>
        ForceBurnIsBurn(st, s, p, d, n, env);
        BurnLeaves(st, p, st.accounts[d], false, n, true, env, i);
      case StrategyTransfer(s, p, f, t, d) => StrategyTransferRefused(st, s, p, f, t, d);
      case UpdatePublicPool(s, p, c, f, r) => UpdatePoolLeaves(st, s, p, c, f, r, env, i);
    }
  }

  // ---------- any message ----------

  /** A message leaves everything of an account it does not touch exactly as it was. */
  lemma UntouchedIsFramed(st: State, msg: Msg, env: Env, i: nat)
    requires Core(st) && i in st.accounts && i !in Touched(st, msg)
    ensures Framed(st, Deliver(st, msg, env), i)
  {
    hide Core, Exec, Framed, Touched;
    if Exec(st, msg, env).Err? {
      OtherTables(st, st, i, false);
    } else if PoolMessage(msg) {
      PoolMessageLeaves(st, msg, env, i);
    } else if Settlement(msg) {
      SettlementLeaves(st, msg, env, i);
    } else {
      LedgerMessageLeaves(st, msg, env, i);
    }
  }

  /** Only pool messages write pool records and entries. */
  lemma RecordsAreKept(st: State, msg: Msg, env: Env, i: nat)
    requires Core(st) && i in st.accounts && !PoolMessage(msg)
    ensures var st' := Deliver(st, msg, env); i in st'.accounts && OnlyBalance(st.accounts[i], st'.accounts[i])
  {
    hide Core, Exec, Framed, Touched;
    if Exec(st, msg, env).Ok? {
      if Settlement(msg) { SettlementLeaves(st, msg, env, i); } else { LedgerMessageLeaves(st, msg, env, i); }
    }
  }
}

// The account keeper and its message server as an object that updates its
// stores in place.  Every method is proved against the transition of the same
// name; a message that fails half-way is rolled back when it is delivered.
module Keepers {
  import opened Types
  import opened Arith
  import opened Pools
  import opened Store
  import opened Assets
  import opened Funding
  import opened Messages
  import opened Invariants
  import opened Genesis

  /** A write primitive did what its transition says: the new stores, or the error. */
  predicate Did(r: Result<()>, after: State, spec: Result<State>) {
    match spec
    case Ok(st) => r == Ok(()) && after == st
    case Err(e) => r == Err(e)
  }

  /** A handler did what its transition says: response and stores, or the error. */
  predicate Replied(r: Result<int>, after: State, spec: Result<Reply>) {
    match spec
    case Ok(reply) => r == Ok(reply.value) && after == reply.state
    case Err(e) => r == Err(e)
  }

  /** Linear search for the entry of `pool`. */
  method FindEntry(shares: seq<Share>, pool: nat) returns (i: nat, found: bool)
    ensures i == FindShareEntry(shares, pool) && (found <==> i < |shares|)
  {
    i := 0;
    while i < |shares|
      invariant 0 <= i <= |shares|
      invariant FindShareEntry(shares, pool) == i + FindShareEntry(shares[i..], pool)
    {
      if shares[i].pool == pool { return i, true; }
      assert shares[i..][1..] == shares[i + 1..];
      i := i + 1;
    }
    found := false;
  }

  class Keeper {
    const authority: string
    const maxAsset: nat
    var accounts: map<nat, Account>
    var ownerToIndex: map<string, nat>
    var masterSubAccounts: set<(nat, nat)>
    var accountAssets: map<(nat, nat), AssetRow>
    var accountPositions: map<(nat, nat), Position>
    var accountMetas: map<nat, Meta>
    var params: Params
    var nextMasterIndex: nat
    var nextSubIndex: nat
    var moduleCoins: map<string, int>
    var assets: map<nat, Asset>
    var denomToIndex: map<string, nat>
    var nextAssetIndex: nat

    /** The stores as one value. */
    function Stores(): State
      reads this
    {
      State(authority, accounts, ownerToIndex, masterSubAccounts, accountAssets, accountPositions, accountMetas,
            params, nextMasterIndex, nextSubIndex, moduleCoins, assets, denomToIndex, nextAssetIndex, maxAsset)
    }

    ghost predicate Valid()
      reads this
    {
      Core(Stores())
    }

    // ---------- account.go ----------

    method GetAccount(i: nat) returns (r: Result<Account>)
      ensures r == Stores().GetAccount(i)
    {
      if i in accounts { return Ok(accounts[i]); }
      return Err(AccountNotFound);
    }

    method UpdateAccount(a: Account)
      modifies this
      ensures Stores() == old(Stores()).UpdateAccount(a)
    {
      accounts := accounts[a.index := a];
    }

    method CreateAccount(a: Account)
      modifies this
      ensures Stores() == old(Stores()).CreateAccount(a)
    {
      accounts := accounts[a.index := a];
      if a.owner != "" && a.kind.Master? {
        ownerToIndex := ownerToIndex[a.owner := a.index];
      }
      if !a.kind.Master? && a.master != NIL_MASTER {
        masterSubAccounts := masterSubAccounts + {(a.master, a.index)};
      }
    }

    method GetMasterAccountByOwner(owner: string) returns (r: Result<Account>)
      ensures r == Stores().MasterByOwner(owner)
    {
      if owner !in ownerToIndex { return Err(AccountNotFound); }
      r := GetAccount(ownerToIndex[owner]);
    }

    method EnsureMasterAccount(owner: string, now: int) returns (r: Result<Account>)
      modifies this
      ensures match old(Stores()).EnsureMasterAccount(owner, now)
              case Ok((st, a)) => r == Ok(a) && Stores() == st
              case Err(e) => r == Err(e)
    {
      r := GetMasterAccountByOwner(owner);
      if r.Ok? { return; }
      var i := nextMasterIndex;
      nextMasterIndex := nextMasterIndex + 1;
      if i < FIRST_USER_MASTER {
        i := FIRST_USER_MASTER;
        nextMasterIndex := i + 1;
      }
      if i > MAX_MASTER_INDEX { return Err(AccountIndexExceed); }
      var a := Account(i, NIL_MASTER, owner, Master, 0, 0, 0, now, [], None);
      CreateAccount(a);
      return Ok(a);
    }

    method AllocateSubIndex() returns (r: Result<nat>)
      modifies this
      ensures match old(Stores()).AllocateSubIndex()
              case Ok((st, i)) => r == Ok(i) && Stores() == st
              case Err(e) => r == Err(e)
    {
      var i := nextSubIndex;
      nextSubIndex := nextSubIndex + 1;
      if i < MIN_SUB_INDEX {
        i := MIN_SUB_INDEX;
        nextSubIndex := i + 1;
      }
      if i > MAX_ACCOUNT_INDEX { return Err(AccountIndexExceed); }
      return Ok(i);
    }

    method AddCollateral(i: nat, delta: int) returns (r: Result<()>)
      modifies this
      ensures Did(r, Stores(), old(Stores()).AddCollateral(i, delta))
      ensures r.Err? ==> Stores() == old(Stores())
    {
      var a :- GetAccount(i);
      UpdateAccount(a.(collateral := a.collateral + delta));
      return Ok(());
    }

    method IsAuthorized(signer: string, i: nat) returns (r: Result<bool>)
      ensures r == Stores().IsAuthorized(signer, i)
    {
      var a :- GetAccount(i);
      if a.owner == "" { return Ok(false); }
      return Ok(a.owner == signer);
    }

    method RejectPoolAccount(i: nat) returns (r: Outcome)
      ensures r == Stores().RejectPoolAccount(i)
    {
      if i !in accounts { return Fail(AccountNotFound); }
      if accounts[i].IsPoolType() { return Fail(PoolGenericMsg); }
      return Pass;
    }

    // ---------- public_pool.go ----------

    method UpdatePoolInfo(i: nat, info: PoolInfo) returns (r: Result<()>)
      modifies this
      ensures Did(r, Stores(), old(Stores()).UpdatePoolInfo(i, info))
    {
      var a :- GetAccount(i);
      if a.info.None? { return Err(InvalidPoolAccount); }
      UpdateAccount(a.(info := Some(info)));
      return Ok(());
    }

    method UpsertPublicPoolShare(m: nat, pool: nat, shareDelta: int, principalDelta: int, now: int)
        returns (r: Result<()>)
      modifies this
      ensures Did(r, Stores(), old(Stores()).UpsertPublicPoolShare(m, pool, shareDelta, principalDelta, now))
    {
      var a :- GetAccount(m);
      var shares := a.shares;
      var i, found := FindEntry(shares, pool);
      if found {
        var e := shares[i];
        e := e.(amount := e.amount + shareDelta);
        e := e.(principal := e.principal + principalDelta);
        e := e.(entryTime := now);
        shares := shares[i := e];
      } else {
        if |shares| >= SHARES_LIST_SIZE { return Err(SharesListFull); }
        shares := shares + [Share(pool, shareDelta, principalDelta, now)];
      }
      UpdateAccount(a.(shares := shares));
      return Ok(());
    }

    method ReducePublicPoolShare(m: nat, pool: nat, shareAmount: int) returns (r: Result<()>)
      modifies this
      ensures Did(r, Stores(), old(Stores()).ReducePublicPoolShare(m, pool, shareAmount))
    {
      var a :- GetAccount(m);
      var shares := a.shares;
      var i, found := FindEntry(shares, pool);
      if !found { return Err(InsufficientShares); }
      var e := shares[i];
      if e.amount < shareAmount { return Err(InsufficientShares); }
      if e.amount == 0 { return Err(DivisionByZero); }
      var principalDelta := Quo(e.principal * shareAmount, e.amount);
      e := e.(amount := e.amount - shareAmount);
      e := e.(principal := e.principal - principalDelta);
      if e.amount == 0 {
        shares := shares[..i] + shares[i + 1..];
      } else {
        shares := shares[i := e];
      }
      UpdateAccount(a.(shares := shares));
      return Ok(());
    }

    method IsPoolOperator(pool: Account, sender: string) returns (r: Result<bool>)
      ensures r == Stores().IsPoolOperator(pool, sender)
    {
      if pool.kind.InsuranceFund? && pool.index == INSURANCE_FUND { return Ok(sender == authority); }
      var m :- GetAccount(pool.master);
      if m.owner == "" { return Ok(false); }
      return Ok(m.owner == sender);
    }

    /** The freeze gate: health, resting orders, open positions. */
    method AssertPoolEmpty(pool: Account, env: Env) returns (r: Outcome)
      ensures r == Need(PoolEmpty(Stores(), pool, env), PoolMustBeEmpty)
    {
      if !env.healthy { return Fail(PoolMustBeEmpty); }
      if pool.totalOrderCount != 0 { return Fail(PoolMustBeEmpty); }
      var open := HasOpenPosition(pool.index);
      if open { return Fail(PoolMustBeEmpty); }
      return Pass;
    }

    /** Scans the pool's position rows for one that is open, stopping at the first. */
    method HasOpenPosition(pool: nat) returns (open: bool)
      ensures open <==> exists k :: k in accountPositions && k.0 == pool && accountPositions[k].baseSize != 0
    {
      var todo := accountPositions.Keys;
      while todo != {}
        invariant todo <= accountPositions.Keys
        invariant forall k :: k in accountPositions.Keys - todo && k.0 == pool ==> accountPositions[k].baseSize == 0
        decreases todo
      {
        var k :| k in todo;
        if k.0 == pool && accountPositions[k].baseSize != 0 { return true; }
        todo := todo - {k};
      }
      open := false;
    }

    // ---------- asset.go and position.go ----------

    method GetAccountAsset(i: nat, x: nat) returns (row: AssetRow)
      ensures row == Stores().GetRow(i, x)
    {
      if (i, x) in accountAssets { return accountAssets[(i, x)]; }
      return AssetRow(i, x, 0, 0, 0);
    }

    method SetAccountAsset(row: AssetRow)
      modifies this
      ensures Stores() == old(Stores()).SetRow(row)
    {
      accountAssets := accountAssets[(row.account, row.asset) := row];
    }

    method AddAccountAssetBalance(i: nat, x: nat, delta: int) returns (r: Result<()>)
      modifies this
      ensures Did(r, Stores(), old(Stores()).AddAccountAssetBalance(i, x, delta))
    {
      var row := GetAccountAsset(i, x);
      if delta < 0 {
        var available := row.balance - row.locked;
        if available < -delta { return Err(InsufficientFunds); }
      }
      row := row.(balance := row.balance + delta);
      if row.balance < 0 { return Err(InsufficientFunds); }
      SetAccountAsset(row);
      return Ok(());
    }

    method TransferAccountAssetBalance(from: nat, to: nat, x: nat, amount: int, drainLockedFirst: bool)
        returns (r: Result<()>)
      modifies this
      ensures Did(r, Stores(), old(Stores()).TransferAccountAssetBalance(from, to, x, amount, drainLockedFirst))
    {
      if amount == 0 { return Ok(()); }
      if amount < 0 { return Err(InsufficientFunds); }
      var src := GetAccountAsset(from, x);
      if drainLockedFirst {
        if src.balance < amount { return Err(InsufficientFunds); }
      } else {
        if src.balance - src.locked < amount { return Err(InsufficientFunds); }
      }
      var dst := GetAccountAsset(to, x);
      if drainLockedFirst {
        var drain := amount;
        if drain > src.locked { drain := src.locked; }
        src := src.(locked := src.locked - drain);
      }
      src := src.(balance := src.balance - amount);
      dst := dst.(balance := dst.balance + amount);
      SetAccountAsset(src);
      SetAccountAsset(dst);
      return Ok(());
    }

    method IncreaseLockedBalance(i: nat, x: nat, amount: int) returns (r: Result<()>)
      modifies this
      ensures Did(r, Stores(), old(Stores()).IncreaseLockedBalance(i, x, amount))
    {
      if amount == 0 { return Ok(()); }
      if amount < 0 { return Err(InsufficientFunds); }
      var row := GetAccountAsset(i, x);
      if row.balance - row.locked < amount { return Err(InsufficientFunds); }
      SetAccountAsset(row.(locked := row.locked + amount));
      return Ok(());
    }

    method DecreaseLockedBalance(i: nat, x: nat, amount: int) returns (r: Result<()>)
      modifies this
      ensures Did(r, Stores(), old(Stores()).DecreaseLockedBalance(i, x, amount))
    {
      if amount == 0 { return Ok(()); }
      if amount < 0 { return Err(InsufficientFunds); }
      var row := GetAccountAsset(i, x);
      var release := amount;
      if release > row.locked { release := row.locked; }
      SetAccountAsset(row.(locked := row.locked - release));
      return Ok(());
    }

    method GetPosition(i: nat, k: nat) returns (p: Position)
      ensures p == Stores().GetPosition(i, k)
    {
      if (i, k) in accountPositions { return accountPositions[(i, k)]; }
      return Position(i, k, 0, 0, 0, 0, CROSS_MARGIN, 0);
    }

    method SetPosition(p: Position)
      modifies this
      ensures Stores() == old(Stores()).SetPosition(p)
    {
      accountPositions := accountPositions[(p.account, p.market) := p];
    }

    // ---------- bank and x/asset ----------

    method MoveCoins(denom: string, delta: int)
      modifies this
      ensures Stores() == old(Stores()).MoveCoins(denom, delta)
    {
      var held := if denom in moduleCoins then moduleCoins[denom] else 0;
      moduleCoins := moduleCoins[denom := held + delta];
    }

    method GetAsset(x: nat) returns (r: Result<Asset>)
      ensures r == Stores().GetAsset(x)
    {
      if x in assets { return Ok(assets[x]); }
      return Err(AssetNotFound);
    }

    /** Scans the assets for one that answers to the name, stopping at the first. */
    method HasDisplayName(name: string) returns (taken: bool)
      ensures taken <==> NameTaken(assets, name)
    {
      hide Fold;
      var folded := Fold(name);
      if folded == "" { return false; }
      var todo := assets.Keys;
      while todo != {}
        invariant todo <= assets.Keys
        invariant forall x :: x in assets && x !in todo ==> Fold(assets[x].displayName) != folded
        decreases todo
      {
        var x :| x in todo;
        if Fold(assets[x].displayName) == folded { return true; }
        todo := todo - {x};
      }
      return false;
    }

    method RegisterAsset(sender: string, denom: string, name: string, decimals: nat, multiplier: nat,
          minTransfer: nat, minWithdraw: nat, marginMode: nat)
      returns (r: Result<int>)
      modifies this
      ensures Replied(r, Stores(), ExecRegisterAsset(old(Stores()), sender, denom, name, decimals, multiplier,
                                                     minTransfer, minWithdraw, marginMode))
    {
      hide Fold, ValidDenom, NameTaken;
      :- Need(sender != "", InvalidAddress);
      :- Need(ValidDenom(denom), InvalidAssetParams);
      :- Need(denom != USDC_DENOM, UsdcMarginConstraint);
      :- Need(0 < |name| <= MAX_DISPLAY_NAME_LENGTH, InvalidAssetParams);
      :- Need(Fold(name) != Fold(USDC_DISPLAY_NAME), UsdcMarginConstraint);
      :- Need(0 < decimals <= MAX_ASSET_DECIMALS, InvalidAssetParams);
      :- Need(0 < multiplier <= MAX_EXTENSION_MULTIPLIER && minTransfer != 0 && minWithdraw != 0, InvalidAssetParams);
      :- Need(marginMode == 0, UsdcMarginConstraint);
      :- Need(sender == authority, InvalidAuthority);
      var nameTaken := HasDisplayName(name);
      :- Need(!nameTaken, AssetExists);
      var i := nextAssetIndex;
      nextAssetIndex := nextAssetIndex + 1;
      :- Need(1 <= i, InvalidParams);
      :- Need(i <= maxAsset, AssetIndexExceedsMax);
      :- Need(i != USDC, UsdcMarginConstraint);
      :- Need(i !in assets && denom !in denomToIndex, AssetExists);
      assets := assets[i := Asset(i, denom, name, decimals, multiplier, minTransfer, minWithdraw, false, true)];
      denomToIndex := denomToIndex[denom := i];
      return Ok(i);
    }

    method UpdateAsset(sender: string, x: nat, minTransfer: nat, minWithdraw: nat, enabled: bool)
        returns (r: Result<int>)
      modifies this
      ensures Replied(r, Stores(), ExecUpdateAsset(old(Stores()), sender, x, minTransfer, minWithdraw, enabled))
    {
      if sender == "" { return Err(InvalidAddress); }
      :- Need(x != 0 && minTransfer != 0 && minWithdraw != 0, InvalidAssetParams);
      :- Need(sender == authority, InvalidAuthority);
      var a :- GetAsset(x);
      if x == USDC && !enabled { return Err(UsdcMarginConstraint); }
      a := a.(minTransfer := minTransfer);
      a := a.(minWithdraw := minWithdraw);
      a := a.(enabled := enabled);
      :- Need(a.index != 0, InvalidAssetParams);
      var prev :- GetAsset(a.index);
      :- Need(prev.denom == a.denom, InvalidAssetParams);
      assets := assets[a.index := a];
      return Ok(0);
    }

    // ---------- msg_server.go ----------

    method Deposit(sender: string, beneficiary: string, x: nat, route: Route, amount: nat, env: Env)
        returns (r: Result<int>)
      modifies this
      ensures Replied(r, Stores(), ExecDeposit(old(Stores()), sender, beneficiary, x, route, amount, env))
    {
      hide Max, State.AddCollateral, State.AddAccountAssetBalance, State.EnsureMasterAccount;
      :- Need(sender != "", InvalidAddress);
      :- Need(amount != 0, AmountTooSmall);
      var who := sender;
      if beneficiary != "" { who := beneficiary; }
      var asset :- GetAsset(x);
      :- Need(asset.enabled, AssetDisabled);
      if route.Perps? && !asset.margin { return Err(AssetNotMargin); }
      :- Need(amount >= Max(asset.minTransfer, params.minTransfer), AmountTooSmall);
      :- Need(env.bankOk, BankRefused);
      MoveCoins(asset.denom, amount);
      var acc :- EnsureMasterAccount(who, env.now);
      var delta := amount * asset.multiplier;
      if route.Perps? {
        var _ :- AddCollateral(acc.index, delta);
      } else {
        var _ :- AddAccountAssetBalance(acc.index, x, delta);
      }
      return Ok(acc.index);
    }

    method Withdraw(sender: string, i: nat, x: nat, route: Route, amount: nat, env: Env) returns (r: Result<int>)
      modifies this
      ensures Replied(r, Stores(), ExecWithdraw(old(Stores()), sender, i, x, route, amount, env))
    {
      hide Max, SettleAll, State.AddCollateral, State.AddAccountAssetBalance, State.IsAuthorized,
           State.RejectPoolAccount;
      :- Need(sender != "", InvalidAddress);
      :- Need(amount != 0, AmountTooSmall);
      var mine :- IsAuthorized(sender, i);
      :- Need(mine, Unauthorized);
      :- RejectPoolAccount(i);
      var asset :- GetAsset(x);
      :- Need(asset.enabled, AssetDisabled);
      :- Need(amount >= Max(asset.minWithdraw, params.minWithdraw), AmountTooSmall);
      var delta := amount * asset.multiplier;
      if route.Perps? {
        if !asset.margin { return Err(AssetNotMargin); }
        var _ :- SettleAllPositionFunding(i, env.prefixes);
        var _ :- AddCollateral(i, -delta);
        :- Need(env.riskOk, RiskRegression);
      } else {
        var _ :- AddAccountAssetBalance(i, x, -delta);
      }
      :- Need((if asset.denom in moduleCoins then moduleCoins[asset.denom] else 0) >= amount, BankRefused);
      MoveCoins(asset.denom, 0 - amount);
      return Ok(0);
    }

    method Transfer(sender: string, from: nat, to: nat, x: nat, amount: nat, env: Env) returns (r: Result<int>)
      modifies this
      ensures Replied(r, Stores(), ExecTransfer(old(Stores()), sender, from, to, x, amount, env))
    {
      hide Max, SettleAll, State.AddCollateral, State.AddAccountAssetBalance, State.IsAuthorized,
           State.RejectPoolAccount;
      :- Need(sender != "", InvalidAddress);
      :- Need(amount != 0, AmountTooSmall);
      :- Need(from != to, InvalidParams);
      var mine :- IsAuthorized(sender, from);
      :- Need(mine, Unauthorized);
      :- RejectPoolAccount(from);
      :- RejectPoolAccount(to);
      var asset :- GetAsset(x);
      :- Need(asset.enabled, AssetDisabled);
      :- Need(amount >= Max(asset.minTransfer, params.minTransfer), AmountTooSmall);
      var delta := amount * asset.multiplier;
      if asset.margin {
        var _ :- SettleAllPositionFunding(from, env.prefixes);
        var _ :- AddCollateral(from, -delta);
        var _ :- AddCollateral(to, delta);
        :- Need(env.riskOk, RiskRegression);
      } else {
        var _ :- AddAccountAssetBalance(from, x, -delta);
        var _ :- AddAccountAssetBalance(to, x, delta);
      }
      return Ok(0);
    }

    method CreateSubAccount(sender: string, i: nat, env: Env) returns (r: Result<int>)
      modifies this
      ensures Replied(r, Stores(), ExecCreateSubAccount(old(Stores()), sender, i, env))
    {
      hide State.AllocateSubIndex, State.CreateAccount;
      :- Need(sender != "", InvalidAddress);
      var m :- GetAccount(i);
      :- Need(m.owner == sender, Unauthorized);
      :- Need(m.kind.Master?, InvalidAccountType);
      var idx :- AllocateSubIndex();
      CreateAccount(Account(idx, m.index, m.owner, Sub, 0, 0, 0, env.now, [], None));
      return Ok(idx);
    }

    method UpdateAccountConfig(sender: string, i: nat, mode: nat) returns (r: Result<int>)
      modifies this
      ensures Replied(r, Stores(), ExecUpdateAccountConfig(old(Stores()), sender, i, mode))
    {
      if sender == "" { return Err(InvalidAddress); }
      :- Need(mode <= 1, InvalidTradingMode);
      var a :- GetAccount(i);
      :- Need(a.owner == sender, Unauthorized);
      :- Need(!a.IsPoolType(), PoolGenericMsg);
      UpdateAccount(a.(tradingMode := mode));
      return Ok(0);
    }

    method UpdateAccountAssetConfig(sender: string, i: nat, x: nat, mode: nat) returns (r: Result<int>)
      modifies this
      ensures Replied(r, Stores(), ExecUpdateAccountAssetConfig(old(Stores()), sender, i, x, mode))
    {
      if sender == "" { return Err(InvalidAddress); }
      :- Need(mode <= 1, InvalidMarginMode);
      var a :- GetAccount(i);
      :- Need(a.owner == sender, Unauthorized);
      :- Need(!a.IsPoolType(), PoolGenericMsg);
      var row := GetAccountAsset(i, x);
      SetAccountAsset(row.(marginMode := mode));
      return Ok(0);
    }

    method UpdateMargin(sender: string, i: nat, k: nat, action: MarginAction, amount: int, env: Env)
        returns (r: Result<int>)
      modifies this
      ensures Replied(r, Stores(), ExecUpdateMargin(old(Stores()), sender, i, k, action, amount, env))
    {
      hide SettlePosition, State.AddCollateral, State.IsAuthorized, State.RejectPoolAccount, State.GetPosition,
           State.SetPosition;
      :- Need(sender != "", InvalidAddress);
      :- Need(amount > 0, InvalidParams);
      var mine :- IsAuthorized(sender, i);
      :- Need(mine, Unauthorized);
      :- RejectPoolAccount(i);
      var _ :- SettlePositionFunding(i, k, env.prefixes);
      var p := GetPosition(i, k);
      :- Need(p.marginMode == ISOLATED_MARGIN, PositionNotIsolated);
      if action.AddMargin? {
        SetPosition(p.(allocatedMargin := p.allocatedMargin + amount));
        var _ :- AddCollateral(i, -amount);
      } else {
        if p.allocatedMargin < amount { return Err(InsufficientFunds); }
        SetPosition(p.(allocatedMargin := p.allocatedMargin - amount));
        var _ :- AddCollateral(i, amount);
      }
      :- Need(env.riskOk, RiskRegression);
      return Ok(0);
    }

    method UpdateLeverage(sender: string, i: nat, k: nat, mode: nat, imf: nat, env: Env) returns (r: Result<int>)
      modifies this
      ensures Replied(r, Stores(), ExecUpdateLeverage(old(Stores()), sender, i, k, mode, imf, env))
    {
      hide State.IsAuthorized, State.RejectPoolAccount, State.GetPosition, State.SetPosition;
      :- Need(sender != "", InvalidAddress);
      :- Need(mode <= 1, InvalidMarginMode);
      :- Need(imf <= MARGIN_TICK, InvalidParams);
      var mine :- IsAuthorized(sender, i);
      :- Need(mine, Unauthorized);
      :- RejectPoolAccount(i);
      :- Need(env.minImf.Some?, MarketNotFound);
      :- Need(imf >= env.minImf.value, InvalidParams);
      var p := GetPosition(i, k);
      :- Need(p.baseSize == 0, PositionNotEmpty);
      p := p.(marginMode := mode);
      p := p.(initialMarginFraction := imf);
      SetPosition(p);
      return Ok(0);
    }

    method UpdateParams(sender: string, newParams: Params) returns (r: Result<int>)
      modifies this
      ensures Replied(r, Stores(), ExecUpdateParams(old(Stores()), sender, newParams))
    {
      if sender == "" { return Err(InvalidAddress); }
      :- Need(newParams.minTransfer != 0 && newParams.minWithdraw != 0 && newParams.cooldownMs >= 0, InvalidParams);
      :- Need(sender == authority, InvalidAuthority);
      params := newParams;
      return Ok(0);
    }

    // ---------- funding ----------

    method SettlePositionFunding(i: nat, k: nat, prefixes: map<nat, int>) returns (r: Result<()>)
      modifies this
      ensures Did(r, Stores(), SettlePosition(old(Stores()), i, k, prefixes))
      ensures r.Err? ==> Stores() == old(Stores())
    {
      if k !in prefixes { return Err(MarketNotFound); }
      var prefix := prefixes[k];
      var p := GetPosition(i, k);
      p := p.(account := i, market := k);
      var delta := prefix - p.lastFundingPrefix;
      if p.baseSize != 0 && delta != 0 {
        p := p.(entryQuote := p.entryQuote + Quo(p.baseSize * delta, FUNDING_RATE_TICK));
      }
      SetPosition(p.(lastFundingPrefix := prefix));
      return Ok(());
    }

    /** Walks the account's rows and settles the open ones, stopping at an unknown market. */
    method SettleAllPositionFunding(i: nat, prefixes: map<nat, int>) returns (r: Result<()>)
      modifies this
      ensures Did(r, Stores(), SettleAll(old(Stores()), i, prefixes))
    {
      hide SweptBut, SettlePosition, SettleAll;
      ghost var st := Stores();
      var todo := accountPositions.Keys;
      SweepStarts(st, i, prefixes);
      while todo != {}
        invariant Stores() == st.(positions := accountPositions)
        invariant todo <= accountPositions.Keys && SweptBut(st, accountPositions, todo, i, prefixes)
        decreases todo
      {
        var key :| key in todo;
        if key.0 == i && accountPositions[key].baseSize != 0 {
          SweepSettles(st, accountPositions, todo, key, i, prefixes);
          var _ :- SettlePositionFunding(i, key.1, prefixes);
        } else {
          SweepSkips(st, accountPositions, todo, key, i, prefixes);
        }
        todo := todo - {key};
        SweepCovers(st, accountPositions, todo, i, prefixes);
      }
      SweepEnds(st, accountPositions, i, prefixes);
      return Ok(());
    }

    // ---------- msg_server_publicpool.go ----------

    method CreatePublicPool(sender: string, i: nat, initialShares: nat, fee: nat, rate: nat, env: Env)
        returns (r: Result<int>)
      modifies this
      ensures Replied(r, Stores(), ExecCreatePublicPool(old(Stores()), sender, i, initialShares, fee, rate, env))
    {
      hide SettleAll, State.AddCollateral, State.AllocateSubIndex, State.CreateAccount;
      :- Need(sender != "", InvalidAddress);
      :- Need(initialShares != 0 && fee < FEE_TICK && rate <= SHARE_TICK, InvalidParams);
      var m :- GetAccount(i);
      :- Need(m.owner != "" && m.owner == sender, Unauthorized);
      :- Need(m.kind.Master?, InvalidAccountType);
      var seed := initialShares * INITIAL_POOL_SHARE_VALUE * USDC_TO_COLLATERAL;
      :- Need(m.collateral >= seed, InsufficientFunds);
      var _ :- SettleAllPositionFunding(m.index, env.prefixes);
      var zeros := seq(NB_STRATEGIES, _ => 0);
      var idx :- AllocateSubIndex();
      CreateAccount(Account(idx, m.index, m.owner, PublicPool, 0, seed, 0, env.now, [],
                            Some(PoolInfo(ACTIVE, fee, rate, initialShares, initialShares, zeros))));
      var _ :- AddCollateral(m.index, -seed);
      :- Need(env.riskOk, RiskRegression);
      return Ok(idx);
    }

    method UpdatePublicPool(sender: string, pool: nat, status: nat, fee: nat, rate: nat, env: Env)
        returns (r: Result<int>)
      modifies this
      ensures Replied(r, Stores(), ExecUpdatePublicPool(old(Stores()), sender, pool, status, fee, rate, env))
    {
      hide CheckMinOperatorShareRate, State.IsPoolOperator;
      :- Need(sender != "", InvalidAddress);
      :- Need(status == ACTIVE || status == FROZEN, InvalidPoolUpdate);
      :- Need(rate <= SHARE_TICK, InvalidParams);
      var p :- GetAccount(pool);
      :- Need(p.IsPoolAccount(), InvalidPoolAccount);
      var info := p.info.value;
      :- Need(info.status == ACTIVE, PoolNotActive);
      var operator :- IsPoolOperator(p, sender);
      :- Need(operator, Unauthorized);
      :- Need(fee <= info.operatorFee, InvalidPoolUpdate);
      :- Need(CheckMinOperatorShareRate(info.(minOperatorShareRate := rate)), OperatorRateViolation);
      if status == FROZEN {
        :- AssertPoolEmpty(p, env);
      }
      info := info.(status := status);
      info := info.(operatorFee := fee);
      info := info.(minOperatorShareRate := rate);
      var _ :- UpdatePoolInfo(p.index, info);
      if status == FROZEN && params.liquidityPool == p.index {
        params := params.(liquidityPool := 0);
      }
      return Ok(0);
    }

    method MintShares(sender: string, pool: nat, principal: nat, env: Env) returns (r: Result<int>)
      modifies this
      ensures Replied(r, Stores(), ExecMintShares(old(Stores()), sender, pool, principal, env))
    {
      hide CheckMinOperatorShareRate, UsdcValueToShares, UpsertEntry, SettleAll, State.UpdatePoolInfo,
           State.AddCollateral, State.UpsertPublicPoolShare, State.IsPoolOperator, State.MasterByOwner;
      :- Need(sender != "", InvalidAddress);
      :- Need(principal != 0, AmountTooSmall);
      var p :- GetAccount(pool);
      :- Need(p.IsPoolAccount(), InvalidPoolAccount);
      :- Need(p.info.value.status == ACTIVE, PoolNotActive);
      var m :- GetMasterAccountByOwner(sender);
      var isOperator :- IsPoolOperator(p, sender);
      var cost := principal * USDC_TO_COLLATERAL;
      :- Need(m.collateral >= cost, InsufficientFunds);
      var sh :- UsdcValueToShares(p.info.value, p.collateral + env.pnl, principal);
      :- Need(sh > 0, InvalidParams);
      var _ :- SettleAllPositionFunding(m.index, env.prefixes);
      var _ :- AddCollateral(m.index, -cost);
      var _ :- AddCollateral(p.index, cost);
      var info := p.info.value;
      info := info.(totalShares := info.totalShares + sh);
      if isOperator {
        info := info.(operatorShares := info.operatorShares + sh);
      } else {
        :- Need(CheckMinOperatorShareRate(info), OperatorRateViolation);
      }
      var _ :- UpdatePoolInfo(p.index, info);
      if !isOperator {
        var _ :- UpsertPublicPoolShare(m.index, p.index, sh, principal, env.now);
      }
      :- Need(env.riskOk, RiskRegression);
      return Ok(sh);
    }

    method BurnShares(sender: string, pool: nat, s: int, env: Env) returns (r: Result<int>)
      modifies this
      ensures Replied(r, Stores(), ExecBurnShares(old(Stores()), sender, pool, s, env))
    {
      hide ExecBurn, State.IsPoolOperator, State.MasterByOwner;
      :- Need(sender != "", InvalidAddress);
      :- Need(s > 0, InvalidParams);
      var p :- GetAccount(pool);
      :- Need(p.IsPoolAccount(), InvalidPoolAccount);
      var depositor :- GetMasterAccountByOwner(sender);
      var isOperator :- IsPoolOperator(p, sender);
      r := BurnSharesCore(p, depositor, isOperator, s, false, env);
    }

    method ForceBurnShares(sender: string, pool: nat, depositor: nat, s: int, env: Env) returns (r: Result<int>)
      modifies this
      ensures Replied(r, Stores(), ExecForceBurnShares(old(Stores()), sender, pool, depositor, s, env))
    {
      hide ExecBurn;
      :- Need(sender != "", InvalidAddress);
      :- Need(s > 0, InvalidParams);
      :- Need(sender == authority, InvalidAuthority);
      var p :- GetAccount(pool);
      :- Need(p.IsPoolAccount(), InvalidPoolAccount);
      :- Need(p.kind.InsuranceFund?, NotInsuranceFund);
      :- Need(params.liquidityPool == pool, InvalidPoolUpdate);
      :- Need(depositor in accounts, InvalidDepositorIndex);
      r := BurnSharesCore(p, accounts[depositor], false, s, true, env);
    }

    /** The operator's fee on the profit of an LP burn, step by step. */
    method FeeOnProfit(info: PoolInfo, tav: int, e: Share, usdcValue: int, s: int) returns (fee: int)
      requires e.amount != 0
      ensures fee == OperatorFeeShares(info, tav, usdcValue - PrincipalOf(e, s), s)
    {
      fee := 0;
      var paid := Quo(e.principal * s, e.amount);
      if usdcValue > paid && info.operatorFee > 0 {
        if tav > 0 {
          var profit := usdcValue - paid;
          var num := profit * info.operatorFee * info.totalShares * USDC_TO_COLLATERAL;
          fee := Quo(num, FEE_TICK * tav);
          if fee > s { fee := s; }
        }
      }
    }

    /** The gates of a burn, in order; an LP burn yields the entry it draws on. */
    method AdmitBurn(p: Account, depositor: Account, isOperator: bool, s: int, skipCooldown: bool, env: Env)
        returns (r: Result<Option<Share>>)
      ensures r == Messages.AdmitBurn(Stores(), p, depositor, isOperator, s, skipCooldown, env)
    {
      hide AvailableSharesToBurn, SharesToUsdcValue;
      :- Need(p.IsPoolAccount(), InvalidPoolAccount);
      var info, tav := p.info.value, p.collateral + env.pnl;
      :- Need(BurnAllowed(info), PoolNotActive);
      var available := AvailableSharesToBurn(info, tav, env.avail);
      if s > available { return Err(InsufficientShares); }
      var i, hasEntry := FindEntry(depositor.shares, p.index);
      var entry := None;
      if !isOperator {
        if !hasEntry { return Err(InsufficientShares); }
        entry := Some(depositor.shares[i]);
        if depositor.shares[i].amount < s { return Err(InsufficientShares); }
      } else {
        if info.operatorShares < s { return Err(InsufficientShares); }
      }
      if !isOperator && !skipCooldown {
        if params.liquidityPool == p.index && params.cooldownMs > 0 {
          var earliest := depositor.shares[i].entryTime + params.cooldownMs;
          if env.now < earliest { return Err(CooldownNotElapsed); }
        }
      }
      if SharesToUsdcValue(info, tav, s) <= 0 { return Err(InvalidParams); }
      QuotedOnlyWhenPositive(info, tav, s);
      return Ok(entry);
    }

    /** The quote, the fee and the payout of an admitted burn. */
    method QuoteBurn(info: PoolInfo, tav: int, entry: Option<Share>, s: int) returns (t: BurnTerms)
      requires s > 0 && (entry.Some? ==> entry.value.amount != 0)
      ensures t == TermsOfBurn(info, tav, entry, s)
    {
      hide OperatorFeeShares, PrincipalOf, SharesToUsdcValue, Quo;
      var usdcValue := SharesToUsdcValue(info, tav, s);
      var burned, feeShares := s, 0;
      if entry.Some? {
        feeShares := FeeOnProfit(info, tav, entry.value, usdcValue, s);
        burned := s - feeShares;
      }
      t := BurnTerms(usdcValue, feeShares, burned, Quo(usdcValue * burned, s));
    }

    method BurnSharesCore(p: Account, depositor: Account, isOperator: bool, s: int, skipCooldown: bool, env: Env)
        returns (r: Result<int>)
      modifies this
      ensures Replied(r, Stores(), ExecBurn(old(Stores()), p, depositor, isOperator, s, skipCooldown, env))
    {
      hide TermsOfBurn, PayOut, CheckMinOperatorShareRate, AvailableSharesToBurn, SharesToUsdcValue,
           CoolingDown, BurnAllowed;
      var entry :- AdmitBurn(p, depositor, isOperator, s, skipCooldown, env);
      var info := p.info.value;
      var t := QuoteBurn(info, p.collateral + env.pnl, entry, s);
      var frozen := info.status == FROZEN;
      info := info.(totalShares := info.totalShares - t.burned);
      if isOperator {
        info := info.(operatorShares := info.operatorShares - s);
      } else {
        info := info.(operatorShares := info.operatorShares + t.feeShares);
      }
      if !frozen && !CheckMinOperatorShareRate(info) { return Err(OperatorRateViolation); }
      r := WritePayOut(p.index, depositor.index, isOperator, s, info, t.delivered * USDC_TO_COLLATERAL, t.delivered);
    }

    /** The burn's writes, in order. */
    method WritePayOut(pool: nat, depositor: nat, isOperator: bool, s: int, info: PoolInfo, paid: int, delivered: int)
        returns (r: Result<int>)
      modifies this
      ensures match PayOut(old(Stores()), pool, depositor, isOperator, s, info, paid)
              case Ok(st) => r == Ok(delivered) && Stores() == st
              case Err(e) => r == Err(e)
    {
      hide State.UpdatePoolInfo, State.AddCollateral, State.ReducePublicPoolShare;
      var _ :- UpdatePoolInfo(pool, info);
      var _ :- AddCollateral(pool, -paid);
      var _ :- AddCollateral(depositor, paid);
      if !isOperator {
        var _ :- ReducePublicPoolShare(depositor, pool, s);
      }
      return Ok(delivered);
    }

    method StrategyTransfer(sender: string, pool: nat, f: nat, t: nat, amount: int) returns (r: Result<int>)
      modifies this
      ensures Replied(r, Stores(), ExecStrategyTransfer(old(Stores()), sender, pool, f, t, amount))
    {
      hide State.UpdatePoolInfo, State.IsPoolOperator;
      :- Need(sender != "", InvalidAddress);
      :- Need(f != t, InvalidParams);
      :- Need(f < NB_STRATEGIES && t < NB_STRATEGIES, InvalidStrategyIdx);
      :- Need(amount > 0, InvalidParams);
      var p :- GetAccount(pool);
      :- Need(p.IsPoolAccount(), InvalidPoolAccount);
      :- Need(p.kind.InsuranceFund?, NotInsuranceFund);
      var operator :- IsPoolOperator(p, sender);
      :- Need(operator, Unauthorized);
      :- Need(p.info.value.status != FROZEN, PoolFrozen);
      var slots := FixedSlots(p.info.value.strategies);
      var source, target := slots[f], slots[t];
      if source < amount { return Err(InsufficientFunds); }
      slots := slots[f := source - amount];
      slots := slots[t := target + amount];
      var _ :- UpdatePoolInfo(p.index, p.info.value.(strategies := slots));
      return Ok(0);
    }

    // ---------- rollback ----------

    method Restore(st: State)
      requires st.authority == authority && st.maxAsset == maxAsset
      modifies this
      ensures Stores() == st
    {
      RestoreAccounts(st);
      RestoreRows(st);
      RestoreAssets(st);
    }

    method RestoreAccounts(st: State)
      modifies this
      ensures Stores() == old(Stores()).(accounts := st.accounts, owners := st.owners, subs := st.subs,
                                         nextMaster := st.nextMaster, nextSub := st.nextSub)
    {
      accounts, ownerToIndex, masterSubAccounts := st.accounts, st.owners, st.subs;
      nextMasterIndex, nextSubIndex := st.nextMaster, st.nextSub;
    }

    method RestoreRows(st: State)
      modifies this
      ensures Stores() == old(Stores()).(rows := st.rows, positions := st.positions, metas := st.metas,
                                         params := st.params)
    {
      accountAssets, accountPositions, accountMetas, params := st.rows, st.positions, st.metas, st.params;
    }

    method RestoreAssets(st: State)
      modifies this
      ensures Stores() == old(Stores()).(coins := st.coins, assets := st.assets, denoms := st.denoms,
                                         nextAsset := st.nextAsset)
    {
      moduleCoins, assets, denomToIndex, nextAssetIndex := st.coins, st.assets, st.denoms, st.nextAsset;
    }

    // ---------- genesis.go ----------

    /** Boots from the default genesis documents. */
    constructor (authority: string)
      ensures Stores() == Boot(authority) && Valid() && Solvent(Stores())
    {
      var seeded := Seeded(authority);
      this.authority, maxAsset := authority, seeded.maxAsset;
      accounts, ownerToIndex, masterSubAccounts := map[], map[], {};
      accountAssets, accountPositions, accountMetas := map[], map[], map[];
      params, nextMasterIndex, nextSubIndex := seeded.params, 0, 0;
      moduleCoins, assets, denomToIndex, nextAssetIndex := map[], seeded.assets, seeded.denoms, seeded.nextAsset;
      new;
      InitGenesis(DefaultGenesis());
      BootIsOk(authority);
    }

    method InitGenesis(gs: GenesisState)
      modifies this
      ensures Stores() == Genesis.InitGenesis(old(Stores()), gs)
    {
      hide Fill, ImportAccounts;
      ghost var st := Stores();
      params := gs.params;
      CreateAccounts(gs.accounts);
      FillTables(gs);
      SeedCounters(gs.nextMaster, gs.nextSub);
      ImportWrites(st, gs.accounts);
      ImportIgnoresParams(st, gs.accounts, gs.params);
    }

    /** A counter below its floor is seeded at the floor. */
    method SeedCounters(master: nat, sub: nat)
      modifies this
      ensures Stores() == old(Stores()).(nextMaster := Max(master, FIRST_USER_MASTER),
                                         nextSub := Max(sub, MIN_SUB_INDEX))
    {
      nextMasterIndex, nextSubIndex := master, sub;
      if nextMasterIndex < FIRST_USER_MASTER { nextMasterIndex := FIRST_USER_MASTER; }
      if nextSubIndex < MIN_SUB_INDEX { nextSubIndex := MIN_SUB_INDEX; }
    }

    method CreateAccounts(list: seq<Account>)
      modifies this
      ensures Stores() == ImportAccounts(old(Stores()), list)
    {
      for i := 0 to |list|
        invariant Stores() == ImportAccounts(old(Stores()), list[..i])
      {
        assert list[..i + 1][..i] == list[..i];
        CreateAccount(list[i]);
      }
      assert list[..|list|] == list;
    }

    method FillTables(gs: GenesisState)
      modifies this
      ensures Stores() == old(Stores()).(rows := Fill(old(accountAssets), gs.rows, RowKey),
                                         positions := Fill(old(accountPositions), gs.positions, PositionKey),
                                         metas := Fill(old(accountMetas), gs.metas, MetaKey))
    {
      for i := 0 to |gs.rows|
        invariant Stores() == old(Stores()).(rows := Fill(old(accountAssets), gs.rows[..i], RowKey))
      {
        assert gs.rows[..i + 1][..i] == gs.rows[..i];
        SetAccountAsset(gs.rows[i]);
      }
      assert gs.rows[..|gs.rows|] == gs.rows;
      ghost var st := Stores();
      for i := 0 to |gs.positions|
        invariant Stores() == st.(positions := Fill(old(accountPositions), gs.positions[..i], PositionKey))
      {
        assert gs.positions[..i + 1][..i] == gs.positions[..i];
        SetPosition(gs.positions[i]);
      }
      assert gs.positions[..|gs.positions|] == gs.positions;
      for i := 0 to |gs.metas|
        invariant Stores() == st.(positions := Fill(old(accountPositions), gs.positions, PositionKey),
                                  metas := Fill(old(accountMetas), gs.metas[..i], MetaKey))
      {
        assert gs.metas[..i + 1][..i] == gs.metas[..i];
        accountMetas := accountMetas[gs.metas[i].account := gs.metas[i]];
      }
      assert gs.metas[..|gs.metas|] == gs.metas;
    }

    method ExportGenesis() returns (gs: GenesisState)
      ensures Exports(Stores(), gs)
    {
      hide Lists;
      var accountList := ListTable(accounts);
      var rowList := ListTable(accountAssets);
      var positionList := ListTable(accountPositions);
      var metaList := ListTable(accountMetas);
      gs := GenesisState(params, nextMasterIndex, nextSubIndex, accountList, rowList, positionList, metaList);
    }
  }

  lemma QuotedOnlyWhenPositive(info: PoolInfo, tav: int, s: int)
    ensures 0 < SharesToUsdcValue(info, tav, s) ==> 0 < s
  {
  }

  lemma {:induction false} ImportIgnoresParams(st: State, accounts: seq<Account>, params: Params)
    ensures ImportAccounts(st.(params := params), accounts) == ImportAccounts(st, accounts).(params := params)
    decreases |accounts|
  {
    if accounts != [] { ImportIgnoresParams(st, accounts[..|accounts| - 1], params); }
  }

  /** Walks a table and lists every row once. */
  method ListTable<K(!new, ==), V(!new)>(m: map<K, V>) returns (values: seq<V>)
    ensures Lists(m, values)
  {
    values := [];
    ghost var ks: seq<K> := [];
    var todo := m.Keys;
    while todo != {}
      invariant todo <= m.Keys && |ks| == |values|
      invariant forall i, j :: 0 <= i < j < |ks| ==> ks[i] != ks[j]
      invariant forall k :: k in ks <==> k in m && k !in todo
      invariant forall i :: 0 <= i < |ks| ==> ks[i] in m && values[i] == m[ks[i]]
      decreases todo
    {
      var k :| k in todo;
      values, ks := values + [m[k]], ks + [k];
      todo := todo - {k};
    }
    assert ListsBy(m, values, ks);
  }
}

// Exactly when each message is accepted, in terms of the message, the stores
// and the environment's answers.
module Gates {
  import opened Types
  import opened Arith
  import opened Pools
  import opened Store
  import opened Assets
  import opened Funding
  import opened Trades
  import opened Messages
  import opened Invariants
  import opened Preservation
  import opened Delivery
  import opened Journals
  import opened PoolTerms

  // ---------- the ledger ----------

  /** Account `i` belongs to `sender`. */
  predicate Owns(st: State, sender: string, i: nat) {
    sender != "" && i in st.accounts && st.accounts[i].owner == sender
  }

  /** A trading account: not a pool and not the insurance fund. */
  predicate Plain(st: State, i: nat) {
    i in st.accounts && (st.accounts[i].kind.Master? || st.accounts[i].kind.Sub?)
  }

  /** The asset is enabled and the amount is not below either minimum. */
  predicate Takes(st: State, x: nat, n: nat) {
    && 0 < n && x in st.assets && st.assets[x].enabled
    && st.assets[x].minTransfer <= n && st.params.minTransfer <= n
  }

  predicate Releases(st: State, x: nat, n: nat) {
    && 0 < n && x in st.assets && st.assets[x].enabled
    && st.assets[x].minWithdraw <= n && st.params.minWithdraw <= n
  }

  /** Every market the account has a position in is known. */
  ghost predicate Priceable(st: State, i: nat, env: Env) {
    forall k :: st.GetPosition(i, k).baseSize != 0 ==> k in env.prefixes
  }

  predicate Covers(st: State, i: nat, x: nat, n: nat) {
    x in st.assets && n * st.assets[x].multiplier <= st.GetRow(i, x).balance - st.GetRow(i, x).locked
  }

  lemma SweepsIff(st: State, i: nat, env: Env)
    ensures SettleAll(st, i, env.prefixes).Ok? <==> Priceable(st, i, env)
    ensures SettleAll(st, i, env.prefixes).Ok? ==>
              SettleAll(st, i, env.prefixes).value == st.(positions := SettleAll(st, i, env.prefixes).value.positions)
  {
    hide Sweep;
    if MarketsKnown(st, i, env.prefixes) {
      forall k | st.GetPosition(i, k).baseSize != 0 ensures k in env.prefixes { assert Due((i, k), st.positions[(i, k)], i); }
    }
    if Priceable(st, i, env) {
      forall key | key in st.positions && Due(key, st.positions[key], i) ensures key.1 in env.prefixes {
        assert st.GetPosition(i, key.1).baseSize != 0;
      }
    }
  }

  lemma DebitsIff(st: State, i: nat, x: nat, n: nat)
    requires Core(st) && x in st.assets
    ensures st.AddAccountAssetBalance(i, x, -(n * st.assets[x].multiplier)).Ok? <==> Covers(st, i, x, n)
    ensures st.AddAccountAssetBalance(i, x, n * st.assets[x].multiplier).Ok?
  {
    hide Core;
    CoreTables(st);
    GetRowOk(st, i, x);
    assert 0 <= n * st.assets[x].multiplier;
  }

  lemma MasterIff(st: State, owner: string)
    requires Core(st) && owner != ""
    ensures st.MasterByOwner(owner).Ok? <==> owner in st.owners
    ensures FIRST_USER_MASTER <= st.nextMaster
  {
    CoreAccounts(st);
  }

  lemma DepositAcceptedIff(st: State, sender: string, beneficiary: string, x: nat, route: Route, n: nat, env: Env)
    requires Core(st)
    ensures var owner, r := if beneficiary == "" then sender else beneficiary,
                            ExecDeposit(st, sender, beneficiary, x, route, n, env);
            && (r.Ok? <==>
                  && sender != "" && Takes(st, x, n) && (route.Perps? ==> x == USDC) && env.bankOk
                  && (owner in st.owners || st.nextMaster <= MAX_MASTER_INDEX))
            && (r.Ok? ==> r.value.value == MasterFor(st, owner))
  {
    hide Core, AssetsOk, State.MoveCoins, State.EnsureMasterAccount, State.AddCollateral, State.AddAccountAssetBalance,
         MasterFor;
    if sender != "" && x in st.assets {
      AssetFacts(st, x);
      DepositCredits(st, x, n, if beneficiary == "" then sender else beneficiary, env.now);
    }
  }

  lemma DepositCredits(st: State, x: nat, n: nat, owner: string, now: int)
    requires Core(st) && x in st.assets && owner != ""
    ensures var r := st.MoveCoins(st.assets[x].denom, n).EnsureMasterAccount(owner, now);
            && (r.Ok? <==> owner in st.owners || st.nextMaster <= MAX_MASTER_INDEX)
            && (r.Ok? ==>
                  && r.value.1.index == MasterFor(st, owner)
                  && r.value.0.AddCollateral(r.value.1.index, n * st.assets[x].multiplier).Ok?
                  && r.value.0.AddAccountAssetBalance(r.value.1.index, x, n * st.assets[x].multiplier).Ok?)
  {
    hide Core, Moves, State.MoveCoins;
    var st1 := st.MoveCoins(st.assets[x].denom, n);
    MoveCoinsStep(st, x, n);
    SameOwners(st, st.assets[x].denom, n);
    MasterIff(st1, owner);
    CoinsOnly(st, st.assets[x].denom, n);
    if st1.EnsureMasterAccount(owner, now).Ok? {
      var st2 := EnsureMasterPosts(st1, owner, now);
      CoreTables(st2);
      GetRowOk(st2, MasterFor(st, owner), x);
      assert 0 <= n * st.assets[x].multiplier;
    }
  }

  lemma CoinsOnly(st: State, denom: string, n: int)
    ensures st.MoveCoins(denom, n) == st.(coins := st.MoveCoins(denom, n).coins)
  {
  }

  lemma WithdrawAcceptedIff(st: State, sender: string, i: nat, x: nat, route: Route, n: nat, env: Env)
    requires Core(st)
    ensures ExecWithdraw(st, sender, i, x, route, n, env).Ok? <==>
              && Owns(st, sender, i) && Plain(st, i) && Releases(st, x, n) && n <= st.Coins(st.assets[x].denom)
              && if route.Perps? then x == USDC && Priceable(st, i, env) && env.riskOk else Covers(st, i, x, n)
  {
    hide Core, AssetsOk, SettleAll, Priceable, Covers, State.AddAccountAssetBalance;
    SweepsIff(st, i, env);
    if x in st.assets {
      AssetFacts(st, x);
      DebitsIff(st, i, x, n);
      RowOnly(st, i, x, -(n * st.assets[x].multiplier));
    }
  }

  lemma RowOnly(st: State, i: nat, x: nat, d: int)
    ensures var r := st.AddAccountAssetBalance(i, x, d); r.Ok? ==> r.value == st.(rows := r.value.rows)
  {
  }

  lemma TransferAcceptedIff(st: State, sender: string, from: nat, to: nat, x: nat, n: nat, env: Env)
    requires Core(st)
    ensures ExecTransfer(st, sender, from, to, x, n, env).Ok? <==>
              && Owns(st, sender, from) && Plain(st, from) && Plain(st, to) && from != to && Takes(st, x, n)
              && if x == USDC then Priceable(st, from, env) && env.riskOk else Covers(st, from, x, n)
  {
    hide Core, AssetsOk, SettleAll, Priceable, Covers, State.AddAccountAssetBalance;
    SweepsIff(st, from, env);
    if x in st.assets {
      AssetFacts(st, x);
      DebitsIff(st, from, x, n);
      var r := st.AddAccountAssetBalance(from, x, -(n * st.assets[x].multiplier));
      if r.Ok? {
        var st1 := AddBalanceStep(st, from, x, -(n * st.assets[x].multiplier));
        DebitsIff(st1, to, x, n);
      }
      if from in st.accounts { KeyFacts(st, from); }
    }
  }

  lemma SettledMargin(st: State, i: nat, k: nat, env: Env)
    ensures SettlePosition(st, i, k, env.prefixes).Ok? <==> k in env.prefixes
    ensures var r := SettlePosition(st, i, k, env.prefixes);
            r.Ok? ==>
              && r.value.accounts == st.accounts
              && r.value.GetPosition(i, k).marginMode == st.GetPosition(i, k).marginMode
              && r.value.GetPosition(i, k).allocatedMargin == st.GetPosition(i, k).allocatedMargin
  {
    hide Payment;
  }

  lemma UpdateMarginAcceptedIff(st: State, sender: string, i: nat, k: nat, action: MarginAction, d: int, env: Env)
    requires Core(st)
    ensures ExecUpdateMargin(st, sender, i, k, action, d, env).Ok? <==>
              && Owns(st, sender, i) && Plain(st, i) && 0 < d && k in env.prefixes && env.riskOk
              && st.GetPosition(i, k).marginMode == ISOLATED_MARGIN
              && (action.RemoveMargin? ==> d <= st.GetPosition(i, k).allocatedMargin)
  {
    hide Core, SettlePosition, State.GetPosition;
    SettledMargin(st, i, k, env);
  }

  // ---------- settings ----------

  lemma CreateSubAccountAcceptedIff(st: State, sender: string, i: nat, env: Env)
    requires Core(st)
    ensures var r := ExecCreateSubAccount(st, sender, i, env);
            && (r.Ok? <==> Owns(st, sender, i) && st.accounts[i].kind.Master? && st.nextSub <= MAX_ACCOUNT_INDEX)
            && (r.Ok? ==>
                  && st.nextSub !in st.accounts && r.value.value == st.nextSub
                  && r.value.state.accounts
                     == st.accounts[st.nextSub := Account(st.nextSub, i, sender, Sub, 0, 0, 0, env.now, [], None)])
  {
    hide Core;
    SubIndexInRange(st);
    SubIndexUnused(st);
    if i in st.accounts { KeyFacts(st, i); }
  }

  lemma UpdateAccountConfigAcceptedIff(st: State, sender: string, i: nat, mode: nat)
    requires Core(st)
    ensures var r := ExecUpdateAccountConfig(st, sender, i, mode);
            && (r.Ok? <==> Owns(st, sender, i) && Plain(st, i) && mode <= 1)
            && (r.Ok? ==> r.value.state == st.(accounts := st.accounts[i := st.accounts[i].(tradingMode := mode)]))
  {
    hide Core;
    if i in st.accounts { KeyFacts(st, i); }
  }

  lemma UpdateAccountAssetConfigAcceptedIff(st: State, sender: string, i: nat, x: nat, mode: nat)
    requires Core(st)
    ensures var r := ExecUpdateAccountAssetConfig(st, sender, i, x, mode);
            && (r.Ok? <==> Owns(st, sender, i) && Plain(st, i) && mode <= 1)
            && (r.Ok? ==> r.value.state == st.(rows := st.rows[(i, x) := st.GetRow(i, x).(marginMode := mode)]))
  {
    hide Core;
    CoreTables(st);
    GetRowOk(st, i, x);
  }

  /** Margin mode and fraction can be chosen only while the position is empty. */
  lemma UpdateLeverageAcceptedIff(st: State, sender: string, i: nat, k: nat, mode: nat, imf: nat, env: Env)
    requires Core(st)
    ensures var r := ExecUpdateLeverage(st, sender, i, k, mode, imf, env);
            && (r.Ok? <==>
                  && Owns(st, sender, i) && Plain(st, i) && mode <= 1 && st.GetPosition(i, k).baseSize == 0
                  && env.minImf.Some? && env.minImf.value <= imf <= 10_000)
            && (r.Ok? ==>
                  r.value.state == st.(positions := st.positions[(i, k) :=
                    st.GetPosition(i, k).(marginMode := mode, initialMarginFraction := imf)]))
  {
    hide Core;
    GetPositionOk(st, i, k);
  }

  lemma UpdateParamsAcceptedIff(st: State, sender: string, params: Params)
    ensures var r := ExecUpdateParams(st, sender, params);
            && (r.Ok? <==>
                  && sender == st.authority != "" && 0 < params.minTransfer && 0 < params.minWithdraw
                  && 0 <= params.cooldownMs)
            && (r.Ok? ==> r.value.state == st.(params := params))
  {
  }

  // ---------- spot ----------

  lemma LockAcceptedIff(st: State, i: nat, x: nat, d: int)
    ensures st.IncreaseLockedBalance(i, x, d).Ok?
       <==> d == 0 || 0 < d <= st.GetRow(i, x).balance - st.GetRow(i, x).locked
    ensures st.DecreaseLockedBalance(i, x, d).Ok? <==> 0 <= d
  {
  }

  /** A move is covered by the whole balance when it drains, by the unlocked part otherwise. */
  lemma MoveSpotAcceptedIff(st: State, from: nat, to: nat, x: nat, d: int, drain: bool)
    ensures st.TransferAccountAssetBalance(from, to, x, d, drain).Ok?
       <==> d == 0 || 0 < d <= st.GetRow(from, x).balance - if drain then 0 else st.GetRow(from, x).locked
  {
  }

  // ---------- pools ----------

  lemma OperatorIff(st: State, pool: nat, sender: string)
    requires Core(st) && pool in st.accounts && sender != ""
    ensures st.IsPoolOperator(st.accounts[pool], sender).Ok? <==> Governed(st, pool)
    ensures st.IsPoolOperator(st.accounts[pool], sender).Ok? ==>
              (st.IsPoolOperator(st.accounts[pool], sender).value <==> Operates(st, st.accounts[pool], sender))
    ensures Operates(st, st.accounts[pool], sender) ==> Governed(st, pool)
  {
    hide Core;
    KeyFacts(st, pool);
  }

  /** Someone can be the pool's operator: it is the insurance fund, or its master exists. */
  predicate Governed(st: State, pool: nat) {
    && pool in st.accounts
    && ((pool == INSURANCE_FUND && st.accounts[pool].kind.InsuranceFund?) || st.accounts[pool].master in st.accounts)
  }

  lemma CreatePublicPoolAcceptedIff(st: State, sender: string, i: nat, n: nat, fee: nat, rate: nat, env: Env)
    requires Core(st)
    ensures ExecCreatePublicPool(st, sender, i, n, fee, rate, env).Ok? <==>
              && Owns(st, sender, i) && st.accounts[i].kind.Master? && 0 < n && fee < 1_000_000 && rate <= 10_000
              && n * 1_000_000_000 <= st.accounts[i].collateral && Priceable(st, i, env)
              && st.nextSub <= MAX_ACCOUNT_INDEX && env.riskOk
  {
    hide Core, SettleAll, Priceable;
    if i in st.accounts { KeyFacts(st, i); }
    SubIndexInRange(st);
    SubIndexUnused(st);
    SweepsIff(st, i, env);
  }

  /** No order rests, no position is open and the pool is healthy. */
  ghost predicate Emptied(st: State, pool: nat, env: Env) {
    && env.healthy && pool in st.accounts && st.accounts[pool].totalOrderCount == 0
    && forall k :: st.GetPosition(pool, k).baseSize == 0
  }

  /** An active pool can be updated by its operator: to a fee no higher, a floor it meets, and frozen only when empty. */
  lemma UpdatePublicPoolAcceptedIff(st: State, sender: string, p: nat, status: nat, fee: nat, rate: nat, env: Env)
    requires Core(st)
    ensures ExecUpdatePublicPool(st, sender, p, status, fee, rate, env).Ok? <==>
              && sender != "" && IsPool(st.accounts, p) && Operates(st, st.accounts[p], sender)
              && (status == ACTIVE || status == FROZEN) && rate <= 10_000
              && var info := st.accounts[p].info.value;
                 && info.status == ACTIVE && fee <= info.operatorFee
                 && info.totalShares * rate <= info.operatorShares * 10_000
                 && (status == FROZEN ==> Emptied(st, p, env))
  {
    hide Core, State.IsPoolOperator, Operates;
    if sender != "" && p in st.accounts {
      RowFacts(st, p);
      OperatorIff(st, p, sender);
      EmptyIff(st, p, env);
    }
  }

  lemma EmptyIff(st: State, p: nat, env: Env)
    requires Core(st) && p in st.accounts
    ensures PoolEmpty(st, st.accounts[p], env) <==> Emptied(st, p, env)
  {
    hide Core;
    KeyFacts(st, p);
    if PoolEmpty(st, st.accounts[p], env) {
      forall k: nat ensures st.GetPosition(p, k).baseSize == 0 { assert (p, k) in st.positions ==> (p, k).0 == p; }
    }
    if Emptied(st, p, env) {
      forall key | key in st.positions && key.0 == p ensures st.positions[key].baseSize == 0 {
        assert st.GetPosition(p, key.1).baseSize == 0;
      }
    }
  }

  /** The shares a deposit of `u` buys; none from an insolvent pool. */
  function Buys(info: PoolInfo, tav: int, u: nat): int {
    if info.totalShares <= 0 then u / 1_000
    else if tav <= 0 then 0
    else u * (info.totalShares * 1_000_000) / tav
  }

  lemma BuysIff(info: PoolInfo, tav: int, u: nat)
    requires 0 < u && 0 <= info.totalShares
    ensures var r := UsdcValueToShares(info, tav, u);
            && (r.Ok? ==> r.value == Buys(info, tav, u))
            && (r.Err? ==> Buys(info, tav, u) == 0)
  {
    assert u * info.totalShares * USDC_TO_COLLATERAL == u * (info.totalShares * 1_000_000);
    assert 0 <= u * (info.totalShares * 1_000_000);
  }

  /**
   * A mint is accepted exactly when the sender's master can pay it, it buys at
   * least one share of an active pool, and, unless the operator mints, the floor
   * holds afterwards and the master's list has room.
   */
  lemma MintAcceptedIff(st: State, sender: string, pool: nat, u: nat, env: Env)
    requires Core(st)
    ensures ExecMintShares(st, sender, pool, u, env).Ok? <==>
              && sender != "" && 0 < u && IsPool(st.accounts, pool) && Governed(st, pool) && sender in st.owners
              && var i, info := st.owners[sender], st.accounts[pool].info.value;
                 var sh := Buys(info, st.accounts[pool].collateral + env.pnl, u);
                 && info.status == ACTIVE && 0 < sh && Priceable(st, i, env) && env.riskOk
                 && i in st.accounts && u * 1_000_000 <= st.accounts[i].collateral
                 && (Operates(st, st.accounts[pool], sender)
                     || (&& (info.totalShares + sh) * info.minOperatorShareRate <= info.operatorShares * 10_000
                         && (EntryOf(st.accounts[i].shares, pool).Some? || |st.accounts[i].shares| < 16)))
  {
    hide Core, SettleAll, Priceable, UsdcValueToShares, PayIn, State.IsPoolOperator, Operates, Governed, Buys;
    if sender != "" && 0 < u && pool in st.accounts && sender in st.owners {
      RowFacts(st, pool);
      MasterIff(st, sender);
      OwnerIndex(st, sender);
      OperatorIff(st, pool, sender);
      var i := st.owners[sender];
      SweepsIff(st, i, env);
      if IsPool(st.accounts, pool) {
        var info := st.accounts[pool].info.value;
        BuysIff(info, st.accounts[pool].collateral + env.pnl, u);
        if SettleAll(st, i, env.prefixes).Ok? && st.IsPoolOperator(st.accounts[pool], sender).Ok? {
          var operator, sh := st.IsPoolOperator(st.accounts[pool], sender).value,
                              Buys(info, st.accounts[pool].collateral + env.pnl, u);
          MasterRow(st, sender);
          if 0 < sh && i != pool {
            PayInIff(SettleAll(st, i, env.prefixes).value, pool, i, operator, sh, u, Minted(info, operator, sh), env.now);
          }
        }
      }
    }
    MastersOwn(st, sender);
  }

  lemma MastersOwn(st: State, sender: string)
    requires Core(st)
    ensures st.MasterByOwner(sender).Ok? ==> sender in st.owners
  {
  }

  lemma MasterRow(st: State, sender: string)
    requires Core(st) && sender in st.owners
    ensures st.owners[sender] in st.accounts && st.accounts[st.owners[sender]].index == st.owners[sender]
    ensures st.accounts[st.owners[sender]].kind.Master?
  {
    CoreAccounts(st);
  }

  lemma UpsertIff(shares: seq<Share>, pool: nat, amount: int, principal: int, time: int)
    ensures UpsertEntry(shares, pool, amount, principal, time).Ok? <==> EntryOf(shares, pool).Some? || |shares| < 16
  {
  }

  lemma PayInIff(st: State, pool: nat, m: nat, operator: bool, sh: int, u: nat, info: PoolInfo, now: int)
    requires pool in st.accounts && m in st.accounts && st.accounts[pool].index == pool && st.accounts[m].index == m
    requires st.accounts[pool].info.Some? && 0 < info.totalShares && m != pool
    ensures PayIn(st, pool, m, operator, sh, u, info, now).Ok? <==>
              || operator
              || (&& info.totalShares * info.minOperatorShareRate <= info.operatorShares * 10_000
                  && (EntryOf(st.accounts[m].shares, pool).Some? || |st.accounts[m].shares| < 16))
  {
    hide UpsertEntry, EntryOf, State.AddCollateral, State.UpdatePoolInfo;
    UpsertIff(st.accounts[m].shares, pool, sh, u, now);
    var st2, st3, st4 := RowsPaid(st, pool, m, u * USDC_TO_COLLATERAL, info);
  }

  lemma RowsPaid(st: State, pool: nat, m: nat, cost: int, info: PoolInfo) returns (st2: State, st3: State, st4: State)
    requires pool in st.accounts && m in st.accounts && st.accounts[pool].index == pool && st.accounts[m].index == m
    requires st.accounts[pool].info.Some? && m != pool
    ensures st.AddCollateral(m, -cost) == Ok(st2) && st2.AddCollateral(pool, cost) == Ok(st3)
    ensures st3.UpdatePoolInfo(pool, info) == Ok(st4)
    ensures m in st4.accounts && st4.accounts[m].shares == st.accounts[m].shares && st4.accounts[m].index == m
  {
    st2 := st.AddCollateral(m, -cost).value;
    st3 := st2.AddCollateral(pool, cost).value;
    st4 := st3.UpdatePoolInfo(pool, info).value;
  }

  // ---------- burning ----------

  /** The lock-up of the liquidity pool's LPs, counted from their last mint. */
  predicate Waiting(st: State, pool: nat, e: Share, env: Env) {
    && pool == st.params.liquidityPool && 0 < st.params.cooldownMs
    && env.now - e.entryTime < st.params.cooldownMs
  }

  /** The pool has a value, `s` shares of it are worth at least one unit, and the available collateral covers them. */
  predicate Redeems(info: PoolInfo, tav: int, avail: int, s: int) {
    0 < tav && 0 < avail && s * tav <= avail * info.totalShares && info.totalShares * 1_000_000 <= s * tav
  }

  /** The burner holds the shares: as operator above its floor, or in an entry that need not wait. */
  predicate MayBurn(st: State, pool: nat, m: Account, operator: bool, s: int, skip: bool, env: Env)
    requires IsPool(st.accounts, pool)
  {
    var info := st.accounts[pool].info.value;
    if operator then
      && s <= info.operatorShares
      && (info.status == FROZEN
          || (info.totalShares - s) * info.minOperatorShareRate <= (info.operatorShares - s) * 10_000)
    else
      && EntryOf(m.shares, pool).Some? && s <= EntryOf(m.shares, pool).value.amount
      && (skip || !Waiting(st, pool, EntryOf(m.shares, pool).value, env))
  }

  lemma QuoteIff(info: PoolInfo, tav: int, avail: int, s: int)
    requires InfoOk(info) && 0 < s
    ensures s <= AvailableSharesToBurn(info, tav, avail) && 0 < SharesToUsdcValue(info, tav, s)
       <==> Redeems(info, tav, avail, s)
    ensures Redeems(info, tav, avail, s) ==> Priced(info, tav)
  {
    if Priced(info, tav) {
      CapIsExact(info, tav, avail, s);
      var v := QuoteBounds(info, tav, s);
      var d := info.totalShares * USDC_TO_COLLATERAL;
      if 0 < v { Scale(1, v, d); }
    } else if info.totalShares == 0 && 0 < tav {
      ScaleLt(0, tav, s);
    }
  }

  lemma AdmitIff(st: State, pool: nat, m: Account, operator: bool, s: int, skip: bool, env: Env)
    requires Core(st) && IsPool(st.accounts, pool) && 0 < s
    ensures var p := st.accounts[pool];
            var r := AdmitBurn(st, p, m, operator, s, skip, env);
            && (r.Ok? <==>
                  && Redeems(p.info.value, p.collateral + env.pnl, env.avail, s)
                  && if operator then s <= p.info.value.operatorShares
                     else && EntryOf(m.shares, pool).Some? && s <= EntryOf(m.shares, pool).value.amount
                          && (skip || !Waiting(st, pool, EntryOf(m.shares, pool).value, env)))
            && (r.Ok? ==> r.value == if operator then None else EntryOf(m.shares, pool))
  {
    hide Core, AvailableSharesToBurn, SharesToUsdcValue, Redeems, CheckMinOperatorShareRate;
    RowFacts(st, pool);
    QuoteIff(st.accounts[pool].info.value, st.accounts[pool].collateral + env.pnl, env.avail, s);
  }

  lemma PayOutIff(st: State, pool: nat, m: nat, operator: bool, s: int, info: PoolInfo, paid: int)
    requires pool in st.accounts && m in st.accounts && st.accounts[pool].index == pool && st.accounts[m].index == m
    requires st.accounts[pool].info.Some? && m != pool && 0 < s
    requires !operator ==> EntryOf(st.accounts[m].shares, pool).Some? && s <= EntryOf(st.accounts[m].shares, pool).value.amount
    ensures PayOut(st, pool, m, operator, s, info, paid).Ok?
  {
    hide PrincipalOf;
    var st2 := st.UpdatePoolInfo(pool, info).value;
    var st3 := st2.AddCollateral(pool, -paid).value;
    var st4 := st3.AddCollateral(m, paid).value;
    assert st4.accounts[m].shares == st.accounts[m].shares;
  }

  /** An LP's burn never breaks the floor, and the operator's floor is the one inequality. */
  lemma FloorIff(info: PoolInfo, tav: int, entry: Option<Share>, s: int)
    requires Burnable(info, tav, entry, s)
    ensures var t := TermsOfBurn(info, tav, entry, s);
            info.status == FROZEN || CheckMinOperatorShareRate(Burned(info, entry.None?, s, t))
            <==> (entry.Some? || info.status == FROZEN
                  || (info.totalShares - s) * info.minOperatorShareRate <= (info.operatorShares - s) * 10_000)
  {
    hide TermsOfBurn;
    var t := TermsBounds(info, tav, entry, s);
    if entry.Some? && info.status != FROZEN { LpBurnKeepsFloor(info, t.burned, t.feeShares); }
    if info.totalShares == s { assert (info.totalShares - s) * info.minOperatorShareRate == 0; }
  }

  lemma ExecBurnIff(st: State, pool: nat, m: Account, operator: bool, s: int, skip: bool, env: Env)
    requires Core(st) && IsPool(st.accounts, pool) && m.index in st.accounts && st.accounts[m.index] == m && 0 < s
    requires operator ==> m.kind.Master?
    ensures var p := st.accounts[pool];
            ExecBurn(st, p, m, operator, s, skip, env).Ok? <==>
              && Redeems(p.info.value, p.collateral + env.pnl, env.avail, s)
              && MayBurn(st, pool, m, operator, s, skip, env)
  {
    hide Core, AdmitBurn, Redeems, PayOut, TermsOfBurn, Burned, CheckMinOperatorShareRate, EntryOf, Burnable;
    AdmitIff(st, pool, m, operator, s, skip, env);
    var p := st.accounts[pool];
    if AdmitBurn(st, p, m, operator, s, skip, env).Ok? {
      RowFacts(st, pool);
      KeyFacts(st, m.index);
      AdmittedIsBurnable(st, pool, m, operator, s, env);
      var info, tav, entry := p.info.value, p.collateral + env.pnl, if operator then None else EntryOf(m.shares, pool);
      FloorIff(info, tav, entry, s);
      LpIsMaster(st, pool, m, operator);
      BurnableEntry(info, tav, entry, s);
      var t := TermsOfBurn(info, tav, entry, s);
      PayOutIff(st, pool, m.index, operator, s, Burned(info, operator, s, t), t.delivered * USDC_TO_COLLATERAL);
    }
  }

  lemma BurnableEntry(info: PoolInfo, tav: int, entry: Option<Share>, s: int)
    requires Burnable(info, tav, entry, s)
    ensures 0 < s && (entry.Some? ==> entry.value.amount != 0)
  {
  }

  lemma AdmittedIsBurnable(st: State, pool: nat, m: Account, operator: bool, s: int, env: Env)
    requires Core(st) && IsPool(st.accounts, pool) && m.index in st.accounts && st.accounts[m.index] == m && 0 < s
    requires Redeems(st.accounts[pool].info.value, st.accounts[pool].collateral + env.pnl, env.avail, s)
    requires if operator then s <= st.accounts[pool].info.value.operatorShares
             else EntryOf(m.shares, pool).Some? && s <= EntryOf(m.shares, pool).value.amount
    ensures Burnable(st.accounts[pool].info.value, st.accounts[pool].collateral + env.pnl,
                     if operator then None else EntryOf(m.shares, pool), s)
  {
    hide Core, AvailableSharesToBurn, SharesToUsdcValue, Burnable, Redeems;
    var p := st.accounts[pool];
    RowFacts(st, pool);
    QuoteIff(p.info.value, p.collateral + env.pnl, env.avail, s);
    BurnAccepted(st, p, m, operator, s, env);
  }

  lemma LpIsMaster(st: State, pool: nat, m: Account, operator: bool)
    requires Core(st) && IsPool(st.accounts, pool) && m.index in st.accounts && st.accounts[m.index] == m
    requires if operator then m.kind.Master? else EntryOf(m.shares, pool).Some?
    ensures m.index != pool
  {
    hide Core, EntriesOk, InfoOk, Idle, EntriesPoint;
    RowFacts(st, pool);
    RowFacts(st, m.index);
  }

  /**
   * A burn is accepted exactly when the sender holds the shares, as operator
   * above the floor or in an entry past its lock-up, they are worth at least one
   * unit, and the available collateral covers them.
   */
  lemma BurnAcceptedIff(st: State, sender: string, pool: nat, s: int, env: Env)
    requires Core(st)
    ensures ExecBurnShares(st, sender, pool, s, env).Ok? <==>
              && sender != "" && 0 < s && IsPool(st.accounts, pool) && Governed(st, pool) && sender in st.owners
              && var p, i := st.accounts[pool], st.owners[sender];
                 && i in st.accounts && Redeems(p.info.value, p.collateral + env.pnl, env.avail, s)
                 && MayBurn(st, pool, st.accounts[i], Operates(st, p, sender), s, false, env)
  {
    hide Core, ExecBurn, Redeems, MayBurn, State.IsPoolOperator, Operates, Governed;
    if sender != "" && 0 < s && pool in st.accounts {
      RowFacts(st, pool);
      OperatorIff(st, pool, sender);
      MasterIff(st, sender);
      if sender in st.owners && IsPool(st.accounts, pool) && Governed(st, pool) {
        MasterRow(st, sender);
        OwnerIndex(st, sender);
        ExecBurnIff(st, pool, st.accounts[st.owners[sender]], Operates(st, st.accounts[pool], sender), s, false, env);
      }
    }
  }

  /** Governance can burn an LP's shares of the liquidity pool, which must be the insurance fund, without the lock-up. */
  lemma ForceBurnAcceptedIff(st: State, sender: string, pool: nat, d: nat, s: int, env: Env)
    requires Core(st)
    ensures ExecForceBurnShares(st, sender, pool, d, s, env).Ok? <==>
              && sender == st.authority != "" && 0 < s && IsPool(st.accounts, pool) && d in st.accounts
              && st.accounts[pool].kind.InsuranceFund? && pool == st.params.liquidityPool
              && var p := st.accounts[pool];
                 && Redeems(p.info.value, p.collateral + env.pnl, env.avail, s)
                 && MayBurn(st, pool, st.accounts[d], false, s, true, env)
  {
    hide Core, ExecBurn, Redeems, MayBurn;
    if 0 < s && pool in st.accounts && d in st.accounts {
      RowFacts(st, pool);
      KeyFacts(st, d);
      if IsPool(st.accounts, pool) { ExecBurnIff(st, pool, st.accounts[d], false, s, true, env); }
    }
  }

  // ---------- fills ----------

  /** Size and entry quote have at most 56 bits. */
  predicate Fits(p: Position) {
    -0x100_0000_0000_0000 < p.baseSize < 0x100_0000_0000_0000
    && -0x100_0000_0000_0000 < p.entryQuote < 0x100_0000_0000_0000
  }

  /** The verdicts a match asks for: both snapshots' availability and each side's own check, unless exempt. */
  predicate Cleared(m: Match, env: TradeEnv) {
    || m.noRiskCheck
    || (&& (env.snapshotOk || (m.skipMaker && m.skipTaker))
        && (m.skipTaker || env.takerOk) && (m.skipMaker || env.makerOk))
  }

  lemma ClearedIff(m: Match, env: TradeEnv)
    requires m.maker != m.taker
    ensures !SnapshotFails(m, env) && RiskCheck(m, env).Pass? <==> Cleared(m, env)
  {
  }

  lemma CreditMade(st: State, i: nat, d: int)
    requires Core(st) && i in st.accounts
    ensures var r := Credit(st, i, d); r.Ok? && Core(r.value) && r.value.accounts.Keys == st.accounts.Keys
  {
    hide Core, Moves;
    if d != 0 { var _ := AddCollateralStep(st, i, d); }
  }

  lemma CrossMade(st: State, s: Side, fee: int, isMaker: bool, liqFee: int, m: Match, env: TradeEnv)
    requires Core(st) && s.account in st.accounts && s.before.marginMode != ISOLATED_MARGIN
    ensures var r := ApplyAccount(st, s, fee, isMaker, liqFee, m, env);
            r.Made? && Core(r.value) && r.value.accounts.Keys == st.accounts.Keys
  {
    hide Core, Credit, Charge;
    CreditMade(st, s.account, s.realized - fee);
    CreditMade(Credit(st, s.account, s.realized - fee).value, s.account, Charge(isMaker, liqFee));
  }

  lemma RouteMade(st: State, m: Match, maker: Side, taker: Side, env: TradeEnv)
    requires Core(st) && {maker.account, taker.account, TREASURY, m.Recipient()} <= st.accounts.Keys
    requires maker.before.marginMode != ISOLATED_MARGIN && taker.before.marginMode != ISOLATED_MARGIN
    ensures RouteBoth(st, m, maker, taker, env).Made?
  {
    hide Core, Credit, ApplyAccount, TakerFee, MakerFee, LiquidationFee;
    CrossMade(st, taker, TakerFee(m), false, 0, m, env);
    var st1 := ApplyAccount(st, taker, TakerFee(m), false, 0, m, env).value;
    CrossMade(st1, maker, MakerFee(m), true, LiquidationFee(m), m, env);
    var st2 := ApplyAccount(st1, maker, MakerFee(m), true, LiquidationFee(m), m, env).value;
    CreditMade(st2, TREASURY, TakerFee(m) + MakerFee(m));
    CreditMade(Credit(st2, TREASURY, TakerFee(m) + MakerFee(m)).value, m.Recipient(), Positive(LiquidationFee(m)));
  }

  lemma OneChangeIff(st: State, i: nat, k: nat, d: int, price: nat, e: Error)
    ensures var r := ChangePosition(st, i, k, d, price, e);
            && (r.Ok? <==> Fits(P.ApplyFill(st.GetPosition(i, k), d, price).position))
            && (r.Ok? ==>
                  && r.value.0.accounts == st.accounts
                  && r.value.1.account == i && r.value.1.before == st.GetPosition(i, k)
                  && forall j :: j != i ==> r.value.0.GetPosition(j, k) == st.GetPosition(j, k))
  {
    hide P.ApplyFill;
  }

  lemma SettledPositions(st: State, m: Match, x: int)
    requires Core(st) && m.maker != m.taker
    ensures var st1 := SettledBoth(st, m, x);
            && st1.accounts == st.accounts
            && st1.GetPosition(m.maker, m.market) == Settled(st.GetPosition(m.maker, m.market), x)
            && st1.GetPosition(m.taker, m.market) == Settled(st.GetPosition(m.taker, m.market), x)
  {
    hide Core, Payment;
    GetPositionOk(st, m.maker, m.market);
    GetPositionOk(st, m.taker, m.market);
  }

  /** What the two position changes of a match between distinct accounts need. */
  lemma ChangeIff(st: State, m: Match, x: int)
    requires Core(st) && m.maker != m.taker
    requires st.GetPosition(m.maker, m.market).marginMode != ISOLATED_MARGIN
    requires st.GetPosition(m.taker, m.market).marginMode != ISOLATED_MARGIN
    ensures var r := ChangeBoth(SettledBoth(st, m, x), m);
            && (r.Made? <==>
                  && Fits(P.ApplyFill(Settled(st.GetPosition(m.maker, m.market), x), m.MakerDelta(), m.price).position)
                  && Fits(P.ApplyFill(Settled(st.GetPosition(m.taker, m.market), x), -m.MakerDelta(), m.price).position))
            && (r.Made? ==>
                  && r.value.0.accounts == st.accounts
                  && r.value.1.account == m.maker && r.value.1.before.marginMode != ISOLATED_MARGIN
                  && r.value.2.account == m.taker && r.value.2.before.marginMode != ISOLATED_MARGIN)
  {
    hide Core, P.ApplyFill, Payment, ChangePosition, Fits, SettledBoth, State.GetPosition;
    var st1, d := SettledBoth(st, m, x), m.MakerDelta();
    SettledPositions(st, m, x);
    OneChangeIff(st1, m.maker, m.market, d, m.price, MakerInvalidPosition);
    if ChangeMaker(st1, m).Ok? {
      OneChangeIff(ChangeMaker(st1, m).value.0, m.taker, m.market, -d, m.price, TakerInvalidPosition);
    }
  }

  function SettledBoth(st: State, m: Match, x: int): State {
    st.SetPosition(Settled(st.GetPosition(m.maker, m.market), x))
      .SetPosition(Settled(st.GetPosition(m.taker, m.market), x))
  }

  lemma SettleBothIs(st: State, m: Match, prefixes: map<nat, int>)
    requires Core(st) && m.maker != m.taker
    ensures SettleBoth(st, m, prefixes).Made? <==> m.market in prefixes
    ensures m.market in prefixes ==> SettleBoth(st, m, prefixes).value == SettledBoth(st, m, prefixes[m.market])
  {
    hide Core, Payment;
    GetPositionOk(st, m.maker, m.market);
    GetPositionOk(st, m.taker, m.market);
  }

  /**
   * A match between cross positions of two existing accounts is accepted exactly
   * when its market is known, both new positions fit, the market takes the open
   * interest and the risk verdicts it asks for are good.
   */
  lemma CrossFillAcceptedIff(st: State, m: Match, env: Env)
    requires Core(st) && m.maker != m.taker && {m.maker, m.taker, TREASURY, m.Recipient()} <= st.accounts.Keys
    requires st.GetPosition(m.maker, m.market).marginMode != ISOLATED_MARGIN
    requires st.GetPosition(m.taker, m.market).marginMode != ISOLATED_MARGIN
    ensures ApplyMatch(st, m, env).Made? <==>
              && m.market in env.prefixes && env.trade.openInterestOk && Cleared(m, env.trade)
              && var x := env.prefixes[m.market];
                 && Fits(P.ApplyFill(Settled(st.GetPosition(m.maker, m.market), x), m.MakerDelta(), m.price).position)
                 && Fits(P.ApplyFill(Settled(st.GetPosition(m.taker, m.market), x), -m.MakerDelta(), m.price).position)
  {
    hide Core, Moves, Shifts, SettleBoth, ChangeBoth, RouteBoth, SnapshotFails, RiskCheck, Fits, P.ApplyFill, SettledBoth,
         ChangeMaker, ChangeTaker, P.PartialDecrease, Settled, Cleared, State.GetPosition;
    SettleBothIs(st, m, env.prefixes);
    ClearedIff(m, env.trade);
    if m.market in env.prefixes {
      var st1 := SettleBothStep(st, m, env.prefixes);
      ChangeIff(st, m, env.prefixes[m.market]);
      if ChangeBoth(st1, m).Made? {
        var st2, _ := ChangeBothStep(st1, m);
        var (_, maker, taker) := ChangeBoth(st1, m).value;
        ChangedState(st1, m, st2);
        RouteMade(st2, m, maker, taker, env.trade);
      }
    }
  }

  lemma ChangedState(st: State, m: Match, st': State)
    requires ChangeBoth(st, m).Made?
    requires match ChangeMaker(st, m)
             case Err(_) => false
             case Ok((st1, _)) => match ChangeTaker(st1, m) case Err(_) => false case Ok((st2, _)) => st' == st2
    ensures ChangeBoth(st, m).value.0 == st'
  {
    hide ChangePosition;
  }

  /** A refused match names what failed: the market, the snapshots, a side's bounds, the open interest, a side's risk. */
  lemma CrossFillRefusal(st: State, m: Match, env: Env)
    requires Core(st) && m.maker != m.taker && {m.maker, m.taker, TREASURY, m.Recipient()} <= st.accounts.Keys
    requires st.GetPosition(m.maker, m.market).marginMode != ISOLATED_MARGIN
    requires st.GetPosition(m.taker, m.market).marginMode != ISOLATED_MARGIN
    requires ApplyMatch(st, m, env).Stuck?
    ensures var e := ApplyMatch(st, m, env).error;
            if m.market !in env.prefixes then e == MarketNotFound
            else
              var x := env.prefixes[m.market];
              var p, q := st.GetPosition(m.maker, m.market), st.GetPosition(m.taker, m.market);
              if !m.noRiskCheck && !env.trade.snapshotOk && !(m.skipMaker && m.skipTaker) then e == RiskUnavailable
              else if !Fits(P.ApplyFill(Settled(p, x), m.MakerDelta(), m.price).position) then e == MakerInvalidPosition
              else if !Fits(P.ApplyFill(Settled(q, x), -m.MakerDelta(), m.price).position) then e == TakerInvalidPosition
              else if !env.trade.openInterestOk then e == OpenInterestLimit
              else if !m.skipTaker && !env.trade.takerOk then e == TakerRiskRegression
              else e == MakerRiskRegression
  {
    hide Core, Moves, Shifts, SettleBoth, ChangeBoth, RouteBoth, Fits, P.ApplyFill, SettledBoth,
         ChangeMaker, ChangeTaker, P.PartialDecrease, Settled, State.GetPosition;
    SettleBothIs(st, m, env.prefixes);
    UnknownMarket(st, m, env.prefixes);
    if m.market in env.prefixes {
      var st1 := SettleBothStep(st, m, env.prefixes);
      ChangeIff(st, m, env.prefixes[m.market]);
      WhoDoesNotFit(st, m, env.prefixes[m.market]);
      if ChangeBoth(st1, m).Made? {
        var st2, _ := ChangeBothStep(st1, m);
        var (_, maker, taker) := ChangeBoth(st1, m).value;
        ChangedState(st1, m, st2);
        RouteMade(st2, m, maker, taker, env.trade);
      }
    }
  }

  lemma UnknownMarket(st: State, m: Match, prefixes: map<nat, int>)
    ensures m.market !in prefixes ==> SettleBoth(st, m, prefixes).Stuck? && SettleBoth(st, m, prefixes).error == MarketNotFound
  {
  }

  lemma WhoDoesNotFit(st: State, m: Match, x: int)
    requires Core(st) && m.maker != m.taker
    ensures var r, p := ChangeBoth(SettledBoth(st, m, x), m), st.GetPosition(m.maker, m.market);
            r.Stuck? ==>
              r.error == if Fits(P.ApplyFill(Settled(p, x), m.MakerDelta(), m.price).position) then TakerInvalidPosition
                         else MakerInvalidPosition
  {
    hide Core, P.ApplyFill, Payment, Fits, SettledBoth, State.GetPosition, State.SetPosition, WithinBounds;
    SettledPositions(st, m, x);
    OneChangeIff(SettledBoth(st, m, x), m.maker, m.market, m.MakerDelta(), m.price, MakerInvalidPosition);
  }

  /** Re-margining goes through exactly when a mark is there if it is needed and free collateral covers a checked top-up. */
  lemma RebalanceAcceptedIff(st: State, s: Side, fee: int, isMaker: bool, m: Match, env: TradeEnv)
    requires s.account in st.accounts
    ensures Rebalance(st, s, fee, isMaker, m, env).Made? <==>
              && (s.after.baseSize != 0 ==> env.mark.Some?)
              && var d := MarginDelta(s, fee, env);
                 d.Ok? && (0 < d.value && !m.noRiskCheck && !(isMaker && m.skipMaker) ==>
                             d.value <= if isMaker then env.makerAvail else env.takerAvail)
  {
    hide Release, InitialMargin, P.MarketValue, P.UnrealizedPnL;
  }

  // ---------- assets ----------

  /** Governance registers an asset under a denom and a name nobody uses; it is enabled and never a margin asset. */
  lemma RegisterAssetAcceptedIff(st: State, sender: string, denom: string, name: string, decimals: nat, multiplier: nat,
        minTransfer: nat, minWithdraw: nat, marginMode: nat)
    requires Core(st)
    ensures var r := ExecRegisterAsset(st, sender, denom, name, decimals, multiplier, minTransfer, minWithdraw, marginMode);
            && (r.Ok? <==>
                  && sender == st.authority != "" && ValidDenom(denom) && denom !in st.denoms && denom != "uusdc"
                  && 0 < |name| <= 32 && !NameTaken(st.assets, name) && Fold(name) != Fold("USDC")
                  && 0 < decimals <= 18 && 0 < multiplier <= 1_000_000_000_000_000_000
                  && 0 < minTransfer && 0 < minWithdraw && marginMode == 0 && st.nextAsset <= st.maxAsset)
            && (r.Ok? ==>
                  && r.value.value == st.nextAsset && st.nextAsset !in st.assets
                  && r.value.state == st.(
                       nextAsset := st.nextAsset + 1, denoms := st.denoms[denom := st.nextAsset],
                       assets := st.assets[st.nextAsset := Asset(st.nextAsset, denom, name, decimals, multiplier,
                                                                 minTransfer, minWithdraw, false, true)]))
  {
    hide AccountsOk, SharesAddUp, IndexOk, RowsOk, PositionsOk, MetasOk, NamesOk, CoinsOk, ValidDenom, NameTaken, Fold;
  }

  /** Governance changes an asset's minimums and whether it is enabled, and nothing else; USDC stays enabled. */
  lemma UpdateAssetAcceptedIff(st: State, sender: string, x: nat, minTransfer: nat, minWithdraw: nat, enabled: bool)
    requires Core(st)
    ensures var r := ExecUpdateAsset(st, sender, x, minTransfer, minWithdraw, enabled);
            && (r.Ok? <==>
                  && sender == st.authority != "" && x in st.assets && x != 0 && 0 < minTransfer && 0 < minWithdraw
                  && (x == USDC ==> enabled))
            && (r.Ok? ==>
                  r.value.state == st.(assets := st.assets[x :=
                    st.assets[x].(minTransfer := minTransfer, minWithdraw := minWithdraw, enabled := enabled)]))
  {
    hide AccountsOk, SharesAddUp, IndexOk, RowsOk, PositionsOk, MetasOk, NamesOk, CoinsOk;
  }
}

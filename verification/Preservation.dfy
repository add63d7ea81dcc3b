// Every message keeps the invariant and moves the ledger's totals by known
// amounts: first the primitive writes, then the messages built from them.
module Preservation {
  import opened Types
  import opened Arith
  import opened Pools
  import opened Store
  import opened Assets
  import opened Funding
  import opened Messages
  import opened Sums
  import opened Invariants
  import opened Flows

  /** How the totals moved: the gap of asset `x` by `gap` and no other, all entry quotes together by `entry`. */
  ghost predicate Moves(st: State, st': State, x: nat, gap: int, entry: int) {
    && (forall y :: Gap(st', y) == Gap(st, y) + if y == x then gap else 0)
    && TotalEntry(st'.positions) == TotalEntry(st.positions) + entry
    && Resizes(st, st', 0, 0)
  }

  /** The signed sizes of market `k` moved by `d` together, and of no other market. */
  ghost predicate Resizes(st: State, st': State, k: nat, d: int) {
    forall y :: MarketSize(st'.positions, y) == MarketSize(st.positions, y) + if y == k then d else 0
  }

  /** The invariant holds again, no gap moved, and the positions paid `paid` in funding. */
  ghost predicate Keeps(st: State, st': State, paid: int) {
    Core(st') && Moves(st, st', USDC, 0, paid)
  }

  /** What the invariant says of one account row. */
  lemma RowFacts(st: State, i: nat)
    requires Core(st) && i in st.accounts
    ensures var a := st.accounts[i];
            && a.index == i && RowOk(a) && EntriesOk(a.shares) && EntriesPoint(st.accounts, a)
            && (a.info.Some? ==> a.IsPoolType() && InfoOk(a.info.value) && Idle(a.info.value))
            && (a.shares != [] ==> a.kind.Master?) && (a.kind.Master? ==> a.info.None?)
  {
  }

  lemma KeyFacts(st: State, i: nat)
    requires Core(st) && i in st.accounts
    ensures st.accounts[i].index == i
  {
  }

  /** What the invariant says of one asset. */
  lemma AssetFacts(st: State, x: nat)
    requires Core(st) && x in st.assets
    ensures st.assets[x].index == x && (st.assets[x].margin <==> x == USDC)
  {
  }

  lemma MovesOn(st: State, st1: State, st2: State, x: nat, g1: int, e1: int, g2: int, e2: int)
    requires Moves(st, st1, x, g1, e1) && Moves(st1, st2, x, g2, e2)
    ensures Moves(st, st2, x, g1 + g2, e1 + e2)
  {
    hide Gap, TotalEntry, MarketSize;
  }

  /** A gap that did not move did not move in any asset. */
  lemma NoGapMoved(st: State, st': State, x: nat, y: nat, entry: int)
    requires Moves(st, st', x, 0, entry)
    ensures Moves(st, st', y, 0, entry)
  {
    hide Gap, TotalEntry, MarketSize;
  }

  lemma MovesNothing(st: State)
    ensures Moves(st, st, USDC, 0, 0)
  {
    hide Gap, TotalEntry, MarketSize;
  }

  // ---------- primitive writes ----------

  lemma AccountWrite(st: State, m': Accounts, d: int)
    requires Core(st) && AccountsOk(m') && SharesAddUp(m') && SameIdentity(st.accounts, m')
    requires TotalCollateral(m') == TotalCollateral(st.accounts) + d
    ensures Core(st.(accounts := m')) && Moves(st, st.(accounts := m'), USDC, d, 0)
  {
    hide AccountsOk, SharesAddUp, IndexOk, RowsOk, PositionsOk, MetasOk, AssetsOk, NamesOk, SpotTotal, TotalCollateral,
         TotalMargin, TotalEntry, MarketSize, SameIdentity;
    var st' := st.(accounts := m');
    IndexFrame(st, st');
    AssetsFrame(st, st');
  }

  lemma AddCollateralStep(st: State, i: nat, d: int) returns (st': State)
    requires Core(st) && i in st.accounts
    ensures st.AddCollateral(i, d) == Ok(st')
    ensures Core(st') && Moves(st, st', USDC, d, 0)
    ensures st'.accounts == st.accounts[i := st.accounts[i].(collateral := st.accounts[i].collateral + d)]
    ensures st' == st.(accounts := st'.accounts)
  {
    hide Core, AccountsOk, SharesAddUp, Moves, TotalCollateral, SameIdentity;
    CoreAccounts(st);
    KeyFacts(st, i);
    var a := st.accounts[i].(collateral := st.accounts[i].collateral + d);
    RewriteKeepsShares(st.accounts, a);
    WriteCollateral(st.accounts, a);
    AccountWrite(st, st.accounts[i := a], d);
    st' := st.UpdateAccount(a);
  }

  lemma CoreAccounts(st: State)
    requires Core(st)
    ensures AccountsOk(st.accounts) && SharesAddUp(st.accounts) && IndexOk(st)
  {
  }

  lemma SetRowStep(st: State, r: AssetRow)
    requires Core(st) && 0 <= r.locked <= r.balance
    ensures var st' := st.SetRow(r);
            Core(st') && Moves(st, st', r.asset, r.balance - st.GetRow(r.account, r.asset).balance, 0)
  {
    hide AccountsOk, SharesAddUp, IndexOk, PositionsOk, MetasOk, AssetsOk, NamesOk, SpotTotal, TotalCollateral,
         TotalMargin, TotalEntry, MarketSize;
    var st' := st.SetRow(r);
    forall y: nat ensures SpotTotal(st'.rows, y) == SpotTotal(st.rows, y)
                     + if y == r.asset then r.balance - st.GetRow(r.account, r.asset).balance else 0
    {
      WriteBalance(st.rows, r, y);
    }
    IndexFrameFields(st, st');
    AssetsFrame(st, st');
  }

  /** The index part reads accounts, counters and indices only. */
  lemma IndexFrameFields(st: State, st': State)
    requires IndexOk(st) && st'.accounts == st.accounts && st'.owners == st.owners && st'.subs == st.subs
    requires st'.nextMaster == st.nextMaster && st'.nextSub == st.nextSub
    ensures IndexOk(st')
  {
  }

  lemma AddBalanceStep(st: State, i: nat, x: nat, d: int) returns (st': State)
    requires Core(st) && st.AddAccountAssetBalance(i, x, d).Ok?
    ensures st.AddAccountAssetBalance(i, x, d) == Ok(st')
    ensures Core(st') && Moves(st, st', x, d, 0) && st' == st.(rows := st'.rows)
  {
    hide Core, Moves;
    var r := st.GetRow(i, x);
    st' := st.AddAccountAssetBalance(i, x, d).value;
    CoreTables(st);
    GetRowOk(st, i, x);
    SetRowStep(st, r.(balance := r.balance + d));
  }

  lemma GetRowOk(st: State, i: nat, x: nat)
    requires RowsOk(st.rows)
    ensures var r := st.GetRow(i, x);
            r.account == i && r.asset == x && 0 <= r.locked <= r.balance
  {
  }

  lemma CoreTables(st: State)
    requires Core(st)
    ensures RowsOk(st.rows) && PositionsOk(st.positions)
  {
  }

  lemma GetPositionOk(st: State, i: nat, k: nat)
    requires Core(st)
    ensures var p := st.GetPosition(i, k); p.account == i && p.market == k && P.Flat(p)
  {
  }

  /** Writing a position: its margin moves the gap, its entry quote and its size their totals. */
  lemma SetPositionMoves(st: State, p: Position)
    requires Core(st) && P.Flat(p)
    ensures var st', o := st.SetPosition(p), st.GetPosition(p.account, p.market);
            && Core(st') && st'.accounts == st.accounts
            && (forall y :: Gap(st', y) == Gap(st, y) + if y == USDC then p.allocatedMargin - o.allocatedMargin else 0)
            && TotalEntry(st'.positions) == TotalEntry(st.positions) + p.entryQuote - o.entryQuote
            && Resizes(st, st', p.market, p.baseSize - o.baseSize)
  {
    hide AccountsOk, SharesAddUp, IndexOk, RowsOk, MetasOk, AssetsOk, NamesOk, SpotTotal, TotalCollateral, TotalMargin,
         TotalEntry, MarketSize;
    var st' := st.SetPosition(p);
    WriteMargin(st.positions, p);
    WriteEntry(st.positions, p);
    forall y: nat ensures MarketSize(st'.positions, y) == MarketSize(st.positions, y)
                     + if y == p.market then p.baseSize - st.GetPosition(p.account, p.market).baseSize else 0
    {
      WriteSize(st.positions, p, y);
    }
    IndexFrameFields(st, st');
    AssetsFrame(st, st');
  }

  /** Rewriting a position without changing its size. */
  lemma SetPositionStep(st: State, p: Position)
    requires Core(st) && P.Flat(p) && p.baseSize == st.GetPosition(p.account, p.market).baseSize
    ensures var st', o := st.SetPosition(p), st.GetPosition(p.account, p.market);
            && Core(st') && st'.accounts == st.accounts
            && Moves(st, st', USDC, p.allocatedMargin - o.allocatedMargin, p.entryQuote - o.entryQuote)
  {
    hide Core, Gap, TotalEntry, MarketSize;
    SetPositionMoves(st, p);
  }

  lemma AssetsFrame(st: State, st': State)
    requires st'.assets == st.assets && st'.coins == st.coins && st'.denoms == st.denoms && st'.nextAsset == st.nextAsset
    ensures AssetsOk(st) ==> AssetsOk(st')
    ensures forall y :: Backing(st', y) == Backing(st, y)
  {
  }

  lemma EnsureMasterStep(st: State, owner: string, now: int) returns (st': State, a: Account)
    requires Core(st) && owner != "" && st.EnsureMasterAccount(owner, now).Ok?
    ensures st.EnsureMasterAccount(owner, now) == Ok((st', a))
    ensures Core(st') && Moves(st, st', USDC, 0, 0)
    ensures a.index in st'.accounts && st'.accounts[a.index] == a && a.kind.Master?
  {
    hide Moves, Core, AccountsOk, SharesAddUp, TotalCollateral;
    st', a := st.EnsureMasterAccount(owner, now).value.0, st.EnsureMasterAccount(owner, now).value.1;
    CoreAccounts(st);
    if st.MasterByOwner(owner).Ok? {
      var _ := OwnerIsMaster(st, owner);
      MovesNothing(st);
    } else {
      NextIndexUnused(st);
      CreateKeepsShares(st.accounts, a);
      CreateMasterKeepsIndex(st, a);
      WriteCollateral(st.accounts, a);
      CreatedCore(st, st', a);
    }
  }

  /** A new row brings its own collateral and nothing else. */
  lemma CreatedCore(st: State, st': State, a: Account)
    requires Core(st) && AccountsOk(st'.accounts) && SharesAddUp(st'.accounts) && IndexOk(st')
    requires st'.rows == st.rows && st'.positions == st.positions && st'.metas == st.metas && st'.coins == st.coins
    requires st'.assets == st.assets && st'.denoms == st.denoms && st'.nextAsset == st.nextAsset
    requires TotalCollateral(st'.accounts) == TotalCollateral(st.accounts) + a.collateral
    ensures Core(st') && Moves(st, st', USDC, a.collateral, 0)
  {
    hide AccountsOk, SharesAddUp, IndexOk, RowsOk, PositionsOk, MetasOk, AssetsOk, NamesOk, SpotTotal, TotalCollateral,
         TotalMargin, TotalEntry, MarketSize;
    AssetsFrame(st, st');
  }

  /** Coins that come in narrow the gap, coins that leave widen it. */
  lemma MoveCoinsStep(st: State, x: nat, n: int)
    requires Core(st) && x in st.assets
    ensures var st' := st.MoveCoins(st.assets[x].denom, n);
            Core(st') && Moves(st, st', x, -(n * st.assets[x].multiplier), 0)
  {
    hide AccountsOk, SharesAddUp, IndexOk, RowsOk, PositionsOk, MetasOk, NamesOk, SpotTotal, TotalCollateral,
         TotalMargin, TotalEntry, MarketSize, Backing;
    var d := st.assets[x].denom;
    var st' := st.MoveCoins(d, n);
    IndexFrameFields(st, st');
    BackingMoves(st, x, n);
    assert forall e :: e !in st.denoms ==> e != d;
  }

  lemma BackingMoves(st: State, x: nat, n: int)
    requires AssetsOk(st) && x in st.assets
    ensures var st' := st.MoveCoins(st.assets[x].denom, n);
            forall y :: Backing(st', y) == Backing(st, y) + if y == x then n * st.assets[x].multiplier else 0
  {
    var d := st.assets[x].denom;
    var st' := st.MoveCoins(d, n);
    forall y: nat ensures Backing(st', y) == Backing(st, y) + if y == x then n * st.assets[x].multiplier else 0 {
      if y == x {
        Distributes(st.Coins(d), n, st.assets[x].multiplier);
      } else if y in st.assets {
        DenomsDiffer(st, x, y);
      }
    }
  }

  lemma OwnerIsMaster(st: State, owner: string) returns (m: Account)
    requires Core(st) && st.MasterByOwner(owner).Ok?
    ensures st.MasterByOwner(owner) == Ok(m)
    ensures m.index in st.accounts && st.accounts[m.index] == m && m.kind.Master? && owner != ""
  {
    m := st.MasterByOwner(owner).value;
  }

  // ---------- funding ----------

  /** An empty position pays nothing, so settlement leaves it without an entry quote. */
  lemma SettledFlat(p: Position, prefix: int)
    requires P.Flat(p)
    ensures P.Flat(Settled(p, prefix))
  {
    if p.baseSize == 0 { assert p.baseSize * (prefix - p.lastFundingPrefix) == 0; }
  }

  lemma SettlePositionStep(st: State, i: nat, k: nat, prefixes: map<nat, int>) returns (st': State)
    requires Core(st) && SettlePosition(st, i, k, prefixes).Ok?
    ensures SettlePosition(st, i, k, prefixes) == Ok(st') && st' == st.(positions := st'.positions)
    ensures Keeps(st, st', PaymentAt(st, i, k, prefixes))
  {
    hide Core, Moves, Payment;
    var p := st.GetPosition(i, k);
    GetPositionOk(st, i, k);
    SettledFlat(p, prefixes[k]);
    SetPositionStep(st, Settled(p, prefixes[k]).(account := i, market := k));
    st' := SettlePosition(st, i, k, prefixes).value;
  }

  lemma SettleAllStep(st: State, i: nat, prefixes: map<nat, int>) returns (st': State)
    requires Core(st) && SettleAll(st, i, prefixes).Ok?
    ensures SettleAll(st, i, prefixes) == Ok(st') && st' == st.(positions := st'.positions)
    ensures Keeps(st, st', SweepPaid(st, i, prefixes))
  {
    hide Core, Moves, TotalEntry, TotalMargin, MarketSize, PositionsOk;
    st' := SettleAll(st, i, prefixes).value;
    CoreTables(st);
    SweepTotals(st, i, prefixes);
    PositionsFrame(st, st', SweepPaid(st, i, prefixes));
  }

  lemma SweepTotals(st: State, i: nat, prefixes: map<nat, int>)
    requires PositionsOk(st.positions) && MarketsKnown(st, i, prefixes)
    ensures var swept := Sweep(st, i, prefixes);
            && PositionsOk(swept) && TotalMargin(swept) == TotalMargin(st.positions)
            && TotalEntry(swept) == TotalEntry(st.positions) + SweepPaid(st, i, prefixes)
            && forall y :: MarketSize(swept, y) == MarketSize(st.positions, y)
  {
    hide Payment, Settled, MarketSize, TotalMargin, TotalEntry, SweepPaid, Sweep;
    SweepKeepsPositions(st, i, prefixes);
    SweepKeepsMargin(st, i, prefixes);
    SweepMovesEntry(st, i, prefixes);
    forall y: nat ensures MarketSize(Sweep(st, i, prefixes), y) == MarketSize(st.positions, y) {
      SweepKeepsSize(st, i, prefixes, y);
    }
  }

  /** What the positions of a market would pay up to a prefix. */
  function MarketPayments(positions: PositionTable, market: nat, prefix: int): map<(nat, nat), int> {
    map k | k in positions :: if k.1 == market then Payment(positions[k], prefix) else 0
  }

  /**
   * Funding is a zero-sum game: in a market whose longs match its shorts, all
   * last settled at one prefix, what everyone pays up to another cancels, to
   * within one unit for each row of the table.
   */
  lemma FundingIsZeroSum(positions: PositionTable, market: nat, last: int, prefix: int)
    requires forall k :: k in positions && k.1 == market ==> positions[k].lastFundingPrefix == last
    requires MarketSize(positions, market) == 0
    ensures Abs(Sum(MarketPayments(positions, market, prefix))) <= |positions|
  {
    var pays, sizes := MarketPayments(positions, market, prefix), SizeTable(positions, market);
    forall k | k in pays ensures Near(pays[k], FUNDING_RATE_TICK, sizes[k], prefix - last, FUNDING_RATE_TICK) {
      if k.1 == market { PaymentIsTruncated(positions[k], prefix); }
    }
    SumNear(pays, sizes, FUNDING_RATE_TICK, prefix - last, FUNDING_RATE_TICK);
    assert Sum(sizes) * (prefix - last) == 0;
    assert |pays| == |positions| by { assert pays.Keys == positions.Keys; }
    CancelLe(Abs(Sum(pays)), |positions|, FUNDING_RATE_TICK);
  }

  lemma SweepKeepsPositions(st: State, i: nat, prefixes: map<nat, int>)
    requires PositionsOk(st.positions) && MarketsKnown(st, i, prefixes)
    ensures PositionsOk(Sweep(st, i, prefixes))
  {
    hide Settled, Payment;
    var swept := Sweep(st, i, prefixes);
    forall k | k in st.positions && Due(k, st.positions[k], i) ensures P.Flat(swept[k]) {
      SettledFlat(st.positions[k], prefixes[k.1]);
    }
  }

  lemma SweepKeepsMargin(st: State, i: nat, prefixes: map<nat, int>)
    requires MarketsKnown(st, i, prefixes)
    ensures TotalMargin(Sweep(st, i, prefixes)) == TotalMargin(st.positions)
  {
    hide Payment;
    assert MarginTable(Sweep(st, i, prefixes)) == MarginTable(st.positions);
  }

  lemma SweepKeepsSize(st: State, i: nat, prefixes: map<nat, int>, y: nat)
    requires MarketsKnown(st, i, prefixes)
    ensures MarketSize(Sweep(st, i, prefixes), y) == MarketSize(st.positions, y)
  {
    hide Payment;
    assert SizeTable(Sweep(st, i, prefixes), y) == SizeTable(st.positions, y);
  }

  lemma SweepMovesEntry(st: State, i: nat, prefixes: map<nat, int>)
    requires MarketsKnown(st, i, prefixes)
    ensures TotalEntry(Sweep(st, i, prefixes)) == TotalEntry(st.positions) + SweepPaid(st, i, prefixes)
  {
    hide Payment;
    SumAdd(EntryTable(st.positions), PaymentTable(st, i, prefixes), EntryTable(Sweep(st, i, prefixes)));
  }

  lemma PositionsFrame(st: State, st': State, entry: int)
    requires Core(st) && st' == st.(positions := st'.positions) && PositionsOk(st'.positions)
    requires TotalMargin(st'.positions) == TotalMargin(st.positions)
    requires TotalEntry(st'.positions) == TotalEntry(st.positions) + entry
    requires forall y :: MarketSize(st'.positions, y) == MarketSize(st.positions, y)
    ensures Keeps(st, st', entry)
  {
    hide AccountsOk, SharesAddUp, IndexOk, RowsOk, MetasOk, AssetsOk, NamesOk, SpotTotal, TotalCollateral, TotalMargin,
         TotalEntry, MarketSize, PositionsOk;
    IndexFrameFields(st, st');
    AssetsFrame(st, st');
  }

  // ---------- ledger messages ----------

  lemma DepositKeeps(st: State, sender: string, beneficiary: string, x: nat, route: Route, n: nat, env: Env)
    requires Core(st) && ExecDeposit(st, sender, beneficiary, x, route, n, env).Ok?
    ensures Keeps(st, ExecDeposit(st, sender, beneficiary, x, route, n, env).value.state, 0)
  {
    hide Core, Moves, AssetsOk, Max;
    var a := st.assets[x];
    AssetFacts(st, x);
    var delta := n * a.multiplier;
    var st1 := st.MoveCoins(a.denom, n);
    MoveCoinsStep(st, x, n);
    var st2, acc := EnsureMasterStep(st1, if beneficiary == "" then sender else beneficiary, env.now);
    NoGapMoved(st1, st2, USDC, x, 0);
    MovesOn(st, st1, st2, x, -delta, 0, 0, 0);
    var st3: State;
    if route.Perps? {
      st3 := AddCollateralStep(st2, acc.index, delta);
    } else {
      st3 := AddBalanceStep(st2, acc.index, x, delta);
    }
    MovesOn(st, st2, st3, x, -delta, 0, delta, 0);
    NoGapMoved(st, st3, x, USDC, 0);
  }

  lemma WithdrawKeeps(st: State, sender: string, i: nat, x: nat, route: Route, n: nat, env: Env)
    requires Core(st) && ExecWithdraw(st, sender, i, x, route, n, env).Ok?
    ensures Keeps(st, ExecWithdraw(st, sender, i, x, route, n, env).value.state,
                  if route.Perps? then SweepPaid(st, i, env.prefixes) else 0)
  {
    hide Core, Moves, AssetsOk, Max, SettleAll, SweepPaid, State.AddCollateral, State.AddAccountAssetBalance;
    var a := st.assets[x];
    AssetFacts(st, x);
    var delta := n * a.multiplier;
    var paid := if route.Perps? then SweepPaid(st, i, env.prefixes) else 0;
    var st2: State;
    if route.Perps? {
      var st1 := SettleAllStep(st, i, env.prefixes);
      st2 := AddCollateralStep(st1, i, -delta);
      MovesOn(st, st1, st2, x, 0, paid, -delta, 0);
    } else {
      st2 := AddBalanceStep(st, i, x, -delta);
    }
    assert st2.assets == st.assets;
    var st3 := st2.MoveCoins(a.denom, 0 - n);
    MoveCoinsStep(st2, x, 0 - n);
    assert -((0 - n) * a.multiplier) == delta;
    MovesOn(st, st2, st3, x, -delta, paid, delta, 0);
    NoGapMoved(st, st3, x, USDC, paid);
  }

  lemma TransferKeeps(st: State, sender: string, from: nat, to: nat, x: nat, n: nat, env: Env)
    requires Core(st) && ExecTransfer(st, sender, from, to, x, n, env).Ok?
    ensures Keeps(st, ExecTransfer(st, sender, from, to, x, n, env).value.state,
                  if Margin(st, x) then SweepPaid(st, from, env.prefixes) else 0)
  {
    hide Core, Moves, AssetsOk, Max, SettleAll, SweepPaid, State.AddCollateral, State.AddAccountAssetBalance;
    var a := st.assets[x];
    AssetFacts(st, x);
    var delta := n * a.multiplier;
    var paid := if a.margin then SweepPaid(st, from, env.prefixes) else 0;
    var st2, st3: State;
    if a.margin {
      var st1 := SettleAllStep(st, from, env.prefixes);
      st2 := AddCollateralStep(st1, from, -delta);
      MovesOn(st, st1, st2, x, 0, paid, -delta, 0);
      st3 := AddCollateralStep(st2, to, delta);
    } else {
      st2 := AddBalanceStep(st, from, x, -delta);
      st3 := AddBalanceStep(st2, to, x, delta);
    }
    MovesOn(st, st2, st3, x, -delta, paid, delta, 0);
    NoGapMoved(st, st3, x, USDC, paid);
  }

  lemma UpdateMarginKeeps(st: State, sender: string, i: nat, k: nat, action: MarginAction, d: int, env: Env)
    requires Core(st) && ExecUpdateMargin(st, sender, i, k, action, d, env).Ok?
    ensures Keeps(st, ExecUpdateMargin(st, sender, i, k, action, d, env).value.state, PaymentAt(st, i, k, env.prefixes))
  {
    hide Core, Moves, SettlePosition, PaymentAt;
    var st1 := SettlePositionStep(st, i, k, env.prefixes);
    GetPositionOk(st1, i, k);
    var moved, paid := if action.AddMargin? then d else -d, PaymentAt(st, i, k, env.prefixes);
    var p := st1.GetPosition(i, k);
    var st2 := st1.SetPosition(p.(allocatedMargin := p.allocatedMargin + moved));
    SetPositionStep(st1, p.(allocatedMargin := p.allocatedMargin + moved));
    MovesOn(st, st1, st2, USDC, 0, paid, moved, 0);
    var st3 := AddCollateralStep(st2, i, -moved);
    MovesOn(st, st2, st3, USDC, moved, paid, -moved, 0);
  }

  /** Rewriting the settings of a position. */
  lemma PositionSettingKeeps(st: State, i: nat, k: nat, p: Position)
    requires Core(st) && p.account == i && p.market == k && P.Flat(p)
    requires var o := st.GetPosition(i, k);
             p.allocatedMargin == o.allocatedMargin && p.entryQuote == o.entryQuote && p.baseSize == o.baseSize
    ensures Keeps(st, st.SetPosition(p), 0)
  {
    hide Core, Moves;
    SetPositionStep(st, p);
  }

  /** Rewriting a spot row without touching its balance. */
  lemma RowSettingKeeps(st: State, r: AssetRow)
    requires Core(st) && 0 <= r.locked <= r.balance == st.GetRow(r.account, r.asset).balance
    ensures Keeps(st, st.SetRow(r), 0)
  {
    hide Core, Moves;
    SetRowStep(st, r);
    NoGapMoved(st, st.SetRow(r), r.asset, USDC, 0);
  }

  /** A spot move is neutral between distinct accounts; from an account to itself it adds what it moves. */
  lemma MoveSpotMoves(st: State, from: nat, to: nat, x: nat, d: int, drain: bool)
    requires Core(st) && st.TransferAccountAssetBalance(from, to, x, d, drain).Ok?
    ensures var st' := st.TransferAccountAssetBalance(from, to, x, d, drain).value;
            Core(st') && Moves(st, st', x, if from == to then d else 0, 0)
  {
    hide Core, Moves;
    if d == 0 {
      MovesNothing(st);
      NoGapMoved(st, st, USDC, x, 0);
    } else {
      var src', dst' := MovedRows(st, from, to, x, d, drain);
      var st1 := st.SetRow(src');
      SetRowStep(st, src');
      var e := st1.GetRow(to, x).balance;
      SecondRow(st, src', to, x);
      SetRowStep(st1, dst');
      MovesOn(st, st1, st1.SetRow(dst'), x, -d, 0, dst'.balance - e, 0);
    }
  }

  /** The two rows a spot move writes, both read beforehand. */
  lemma MovedRows(st: State, from: nat, to: nat, x: nat, d: int, drain: bool) returns (src': AssetRow, dst': AssetRow)
    requires Core(st) && d != 0 && st.TransferAccountAssetBalance(from, to, x, d, drain).Ok?
    ensures st.TransferAccountAssetBalance(from, to, x, d, drain) == Ok(st.SetRow(src').SetRow(dst'))
    ensures src'.account == from && src'.asset == x && 0 <= src'.locked <= src'.balance
    ensures dst'.account == to && dst'.asset == x && 0 <= dst'.locked <= dst'.balance
    ensures src'.balance == st.GetRow(from, x).balance - d && dst'.balance == st.GetRow(to, x).balance + d
    ensures 0 < d && dst'.locked == st.GetRow(to, x).locked
  {
    hide Core;
    CoreTables(st);
    GetRowOk(st, from, x);
    GetRowOk(st, to, x);
    var src, dst := st.GetRow(from, x), st.GetRow(to, x);
    var released := if !drain then 0 else if d > src.locked then src.locked else d;
    src' := src.(balance := src.balance - d, locked := src.locked - released);
    dst' := dst.(balance := dst.balance + d);
  }

  lemma SecondRow(st: State, r: AssetRow, to: nat, x: nat)
    requires r.asset == x
    ensures st.SetRow(r).GetRow(to, x) == if r.account == to then r else st.GetRow(to, x)
  {
  }

  lemma LockKeeps(st: State, i: nat, x: nat, d: int)
    requires Core(st)
    ensures var r := st.IncreaseLockedBalance(i, x, d); r.Ok? ==> Keeps(st, r.value, 0)
    ensures var r := st.DecreaseLockedBalance(i, x, d); r.Ok? ==> Keeps(st, r.value, 0)
  {
    hide Core, Moves;
    CoreTables(st);
    GetRowOk(st, i, x);
    MovesNothing(st);
    var r := st.GetRow(i, x);
    if 0 < d <= r.balance - r.locked { RowSettingKeeps(st, r.(locked := r.locked + d)); }
    if 0 < d { RowSettingKeeps(st, r.(locked := r.locked - if d > r.locked then r.locked else d)); }
  }

  // ---------- account creation and settings ----------

  lemma CreateSubAccountKeeps(st: State, sender: string, i: nat, env: Env)
    requires Core(st) && ExecCreateSubAccount(st, sender, i, env).Ok?
    ensures Keeps(st, ExecCreateSubAccount(st, sender, i, env).value.state, 0)
  {
    hide Core, Moves;
    SubIndexInRange(st);
    var m := st.accounts[i];
    var a := Account(st.nextSub, m.index, m.owner, Sub, 0, 0, 0, env.now, [], None);
    var st2 := CreateSubStep(st, a);
  }

  lemma SubIndexInRange(st: State)
    requires Core(st)
    ensures MIN_SUB_INDEX <= st.nextSub
  {
  }

  /** A new sub-account or pool, at the next index. */
  lemma CreateSubStep(st: State, a: Account) returns (st': State)
    requires Core(st) && a.index == st.nextSub <= MAX_ACCOUNT_INDEX && (a.kind.Sub? || a.kind.PublicPool?)
    requires RowOk(a) && a.shares == []
    requires a.info.Some? ==> a.info.value.totalShares == a.info.value.operatorShares
    ensures st' == st.(nextSub := st.nextSub + 1).CreateAccount(a)
    ensures Core(st') && Moves(st, st', USDC, a.collateral, 0) && a.index !in st.accounts
  {
    hide Core, AccountsOk, SharesAddUp, IndexOk, Moves, TotalCollateral;
    CoreAccounts(st);
    st' := st.(nextSub := st.nextSub + 1).CreateAccount(a);
    NextIndexUnused(st);
    CreateKeepsShares(st.accounts, a);
    CreateSubKeepsIndex(st, a);
    WriteCollateral(st.accounts, a);
    CreatedCore(st, st', a);
  }

  lemma TradingModeKeeps(st: State, i: nat, mode: nat)
    requires Core(st) && i in st.accounts
    ensures Keeps(st, st.UpdateAccount(st.accounts[i].(tradingMode := mode)), 0)
  {
    hide Core, Moves, AccountsOk, SharesAddUp, SameIdentity, TotalCollateral;
    CoreAccounts(st);
    RowFacts(st, i);
    var a := st.accounts[i].(tradingMode := mode);
    RewriteKeepsShares(st.accounts, a);
    WriteCollateral(st.accounts, a);
    AccountWrite(st, st.accounts[i := a], 0);
  }

  lemma ParamsKeep(st: State, params: Params)
    requires Core(st)
    ensures Keeps(st, st.(params := params), 0)
  {
    hide AccountsOk, SharesAddUp, IndexOk, RowsOk, PositionsOk, MetasOk;
    var st' := st.(params := params);
    IndexFrameFields(st, st');
    assert forall y :: Gap(st', y) == Gap(st, y);
  }

  // ---------- pool messages ----------

  lemma CreatePublicPoolKeeps(st: State, sender: string, i: nat, n: nat, fee: nat, rate: nat, env: Env)
    requires Core(st) && ExecCreatePublicPool(st, sender, i, n, fee, rate, env).Ok?
    ensures Keeps(st, ExecCreatePublicPool(st, sender, i, n, fee, rate, env).value.state, SweepPaid(st, i, env.prefixes))
  {
    hide Core, Moves, SettleAll, SweepPaid;
    RowFacts(st, i);
    var st1 := SettleAllStep(st, i, env.prefixes);
    SubIndexInRange(st1);
    var m, paid := st.accounts[i], SweepPaid(st, i, env.prefixes);
    var seed := n * INITIAL_POOL_SHARE_VALUE * USDC_TO_COLLATERAL;
    var info := PoolInfo(ACTIVE, fee, rate, n, n, seq(NB_STRATEGIES, _ => 0));
    assert InfoOk(info) by { Scale(rate, SHARE_TICK, n); }
    var pool := Account(st.nextSub, m.index, m.owner, PublicPool, 0, seed, 0, env.now, [], Some(info));
    var st2 := CreateSubStep(st1, pool);
    MovesOn(st, st1, st2, USDC, 0, paid, seed, 0);
    var st3 := AddCollateralStep(st2, i, -seed);
    MovesOn(st, st2, st3, USDC, seed, paid, -seed, 0);
  }

  /** Rewriting a pool's record without moving shares. */
  lemma PoolRecordKeeps(st: State, p: nat, info: PoolInfo)
    requires Core(st) && IsPool(st.accounts, p) && InfoOk(info) && Idle(info)
    requires info.totalShares == st.accounts[p].info.value.totalShares
    requires info.operatorShares == st.accounts[p].info.value.operatorShares
    ensures st.UpdatePoolInfo(p, info).Ok? && Keeps(st, st.UpdatePoolInfo(p, info).value, 0)
  {
    hide Core, Moves, AccountsOk, SameIdentity, TotalCollateral, RowOk, EntriesOk, InfoOk, Idle;
    CoreAccounts(st);
    RowFacts(st, p);
    var a := st.accounts[p].(info := Some(info));
    var m' := st.accounts[p := a];
    PoolRowOk(st.accounts[p], info);
    RewriteKeepsRows(st.accounts, a);
    WriteCollateral(st.accounts, a);
    RecordKeepsShares(st.accounts, p, a);
    AccountWrite(st, m', 0);
  }

  lemma PoolRowOk(a: Account, info: PoolInfo)
    requires RowOk(a) && a.info.Some? && InfoOk(info) && Idle(info)
    ensures RowOk(a.(info := Some(info)))
  {
  }

  lemma RecordKeepsShares(accounts: Accounts, p: nat, a: Account)
    requires SharesAddUp(accounts) && IsPool(accounts, p) && a.index == p && a.info.Some?
    requires a == accounts[p].(info := a.info)
    requires a.info.value.totalShares == accounts[p].info.value.totalShares
    requires a.info.value.operatorShares == accounts[p].info.value.operatorShares
    ensures SharesAddUp(accounts[p := a])
  {
    hide LpShares, SharesIn;
    var m' := accounts[p := a];
    forall q: nat | IsPool(m', q)
      ensures m'[q].info.value.totalShares == m'[q].info.value.operatorShares + LpShares(m', q)
    {
      WriteHolding(accounts, a, q);
      assert IsPool(accounts, q);
    }
  }

  lemma SameFloor(a: PoolInfo, b: PoolInfo)
    requires a.totalShares == b.totalShares && a.operatorShares == b.operatorShares
    requires a.minOperatorShareRate == b.minOperatorShareRate
    ensures CheckMinOperatorShareRate(a) <==> CheckMinOperatorShareRate(b)
  {
  }

  /** An accepted update rewrites the pool's record, and perhaps the parameters. */
  lemma UpdatePoolWrites(st: State, sender: string, p: nat, status: nat, fee: nat, rate: nat, env: Env)
    returns (a: Account, params: Params)
    requires Core(st) && ExecUpdatePublicPool(st, sender, p, status, fee, rate, env).Ok?
    ensures p in st.accounts && a == st.accounts[p].(info := a.info)
    ensures ExecUpdatePublicPool(st, sender, p, status, fee, rate, env)
         == Ok(Reply(st.(accounts := st.accounts[p := a], params := params), 0))
  {
    hide Core, PoolEmpty, CheckMinOperatorShareRate, State.IsPoolOperator;
    KeyFacts(st, p);
    var st' := ExecUpdatePublicPool(st, sender, p, status, fee, rate, env).value.state;
    a, params := st'.accounts[p], st'.params;
  }

  lemma UpdatePublicPoolKeeps(st: State, sender: string, p: nat, status: nat, fee: nat, rate: nat, env: Env)
    requires Core(st) && ExecUpdatePublicPool(st, sender, p, status, fee, rate, env).Ok?
    ensures Keeps(st, ExecUpdatePublicPool(st, sender, p, status, fee, rate, env).value.state, 0)
  {
    hide Core, Moves, PoolEmpty, CheckMinOperatorShareRate;
    RowFacts(st, p);
    var info := st.accounts[p].info.value;
    var info' := info.(status := status, operatorFee := fee, minOperatorShareRate := rate);
    SameFloor(info.(minOperatorShareRate := rate), info');
    PoolRecordKeeps(st, p, info');
    var st2 := st.UpdatePoolInfo(p, info').value;
    var st3 := st2.(params := st.params.(liquidityPool := 0));
    ParamsKeep(st2, st.params.(liquidityPool := 0));
    MovesOn(st, st2, st3, USDC, 0, 0, 0, 0);
  }

  /** The two rows a mint or burn rewrites, and that nothing else moves. */
  lemma PoolMoveKeeps(st: State, st': State, a: Account, b: Account, d: int)
    requires Core(st) && st' == st.(accounts := st.accounts[a.index := a][b.index := b])
    requires Rewrites(st.accounts, a) && Rewrites(st.accounts, b) && a.index != b.index
    requires a.info == st.accounts[a.index].info && b.shares == st.accounts[b.index].shares && b.info.Some?
    requires RowOk(a) && RowOk(b) && EntriesPoint(st.accounts, a) && HoldingMoves(st.accounts, a, b.index, d)
    requires var was := st.accounts[b.index].info.value;
             b.info.value.totalShares - b.info.value.operatorShares == was.totalShares - was.operatorShares + d
    requires a.collateral + b.collateral == st.accounts[a.index].collateral + st.accounts[b.index].collateral
    ensures Keeps(st, st', 0)
  {
    hide Core, Moves, AccountsOk, SharesAddUp, SameIdentity, TotalCollateral, RowOk, EntriesPoint, HoldingMoves;
    CoreAccounts(st);
    PoolMoveKeepsShares(st.accounts, a, b, d);
    AccountWrite(st, st'.accounts, 0);
  }

  lemma MintedInfoOk(info: PoolInfo, operator: bool, sh: int)
    requires InfoOk(info) && Idle(info) && info.status == ACTIVE && 0 < sh
    requires operator || CheckMinOperatorShareRate(Minted(info, operator, sh))
    ensures InfoOk(Minted(info, operator, sh)) && Idle(Minted(info, operator, sh))
  {
    if operator { OperatorMintKeepsFloor(info, sh); }
  }

  lemma PayInWrites(st: State, pool: nat, m: nat, operator: bool, sh: int, u: nat, info: PoolInfo, now: int)
    returns (a: Account, b: Account)
    requires pool in st.accounts && m in st.accounts && m != pool
    requires st.accounts[pool].index == pool && st.accounts[m].index == m
    requires PayIn(st, pool, m, operator, sh, u, info, now).Ok?
    ensures operator || CheckMinOperatorShareRate(info)
    ensures operator ==> a.shares == st.accounts[m].shares
    ensures !operator ==> UpsertEntry(st.accounts[m].shares, pool, sh, u, now) == Ok(a.shares)
    ensures a == st.accounts[m].(collateral := st.accounts[m].collateral - u * USDC_TO_COLLATERAL, shares := a.shares)
    ensures b == st.accounts[pool].(collateral := st.accounts[pool].collateral + u * USDC_TO_COLLATERAL,
                                    info := Some(info))
    ensures PayIn(st, pool, m, operator, sh, u, info, now) == Ok(st.(accounts := st.accounts[m := a][pool := b]))
  {
    hide UpsertEntry, CheckMinOperatorShareRate;
    a := st.accounts[m].(collateral := st.accounts[m].collateral - u * USDC_TO_COLLATERAL,
                         shares := if operator then st.accounts[m].shares
                                   else UpsertEntry(st.accounts[m].shares, pool, sh, u, now).value);
    b := st.accounts[pool].(collateral := st.accounts[pool].collateral + u * USDC_TO_COLLATERAL, info := Some(info));
    var st' := PayIn(st, pool, m, operator, sh, u, info, now).value;
    assert st'.accounts == st.accounts[m := a][pool := b];
  }

  /** Everything a successful mint fixes: who pays, the shares quoted, and the two rows written. */
  ghost predicate MintEffect(st: State, sender: string, pool: nat, u: nat, env: Env, m: Account, a: Account,
        b: Account, operator: bool, sh: int) {
    && IsPool(st.accounts, pool) && st.MasterByOwner(sender) == Ok(m)
    && m.index in st.accounts && m == st.accounts[m.index] && m.index != pool && m.kind.Master?
    && st.IsPoolOperator(st.accounts[pool], sender) == Ok(operator)
    && var p := st.accounts[pool];
       var info' := Minted(p.info.value, operator, sh);
       && p.info.value.status == ACTIVE && 0 < u && 0 < sh
       && UsdcValueToShares(p.info.value, p.collateral + env.pnl, u) == Ok(sh)
       && (operator || CheckMinOperatorShareRate(info'))
       && (operator ==> a.shares == m.shares)
       && (!operator ==> UpsertEntry(m.shares, pool, sh, u, env.now) == Ok(a.shares))
       && a == m.(collateral := m.collateral - u * USDC_TO_COLLATERAL, shares := a.shares)
       && b == p.(collateral := p.collateral + u * USDC_TO_COLLATERAL, info := Some(info'))
  }

  /** The mint settles the payer's funding, replies with the shares it issued and writes exactly two rows. */
  predicate MintResult(st: State, sender: string, pool: nat, u: nat, env: Env, m: Account, a: Account,
        b: Account, sh: int) {
    && SettleAll(st, m.index, env.prefixes).Ok?
    && ExecMintShares(st, sender, pool, u, env)
       == Ok(Reply(SettleAll(st, m.index, env.prefixes).value.(accounts := st.accounts[m.index := a][pool := b]), sh))
  }

  /** What a successful mint writes: the sender's master row and the pool's row. */
  lemma MintWrites(st: State, sender: string, pool: nat, u: nat, env: Env)
    returns (m: Account, a: Account, b: Account, operator: bool, sh: int)
    requires Core(st) && ExecMintShares(st, sender, pool, u, env).Ok?
    ensures MintEffect(st, sender, pool, u, env, m, a, b, operator, sh)
    ensures MintResult(st, sender, pool, u, env, m, a, b, sh)
  {
    hide Core, UsdcValueToShares, CheckMinOperatorShareRate, UpsertEntry, PayIn, RowOk, EntriesOk, InfoOk,
         Idle, EntriesPoint;
    m := OwnerIsMaster(st, sender);
    RowFacts(st, pool);
    RowFacts(st, m.index);
    var p := st.accounts[pool];
    operator := st.IsPoolOperator(p, sender).value;
    sh := UsdcValueToShares(p.info.value, p.collateral + env.pnl, u).value;
    var st1 := SettleAll(st, m.index, env.prefixes).value;
    a, b := PayInWrites(st1, pool, m.index, operator, sh, u, Minted(p.info.value, operator, sh), env.now);
  }

  lemma MintKeeps(st: State, sender: string, pool: nat, u: nat, env: Env)
    requires Core(st) && ExecMintShares(st, sender, pool, u, env).Ok?
    ensures Keeps(st, ExecMintShares(st, sender, pool, u, env).value.state,
                  SweepPaid(st, MasterIndex(st, sender), env.prefixes))
  {
    hide Core, Moves, EntriesOk, ExecMintShares, InfoOk, Idle, HoldingMoves, EntriesPoint, UpsertEntry,
         CheckMinOperatorShareRate, UsdcValueToShares, SettleAll, SweepPaid;
    var m, a, b, operator, sh := MintWrites(st, sender, pool, u, env);
    OwnerIndex(st, sender);
    var st1 := SettleAllStep(st, m.index, env.prefixes);
    var info := st.accounts[pool].info.value;
    RowFacts(st, m.index);
    RowFacts(st, pool);
    MintedInfoOk(info, operator, sh);
    EntriesAfterMint(st.accounts, m, a, pool, operator, sh, u, env.now);
    var st2 := st1.(accounts := st.accounts[m.index := a][pool := b]);
    PoolMoveKeeps(st1, st2, a, b, if operator then 0 else sh);
    MovesOn(st, st1, st2, USDC, 0, SweepPaid(st, m.index, env.prefixes), 0, 0);
  }

  lemma OwnerIndex(st: State, owner: string)
    requires Core(st) && st.MasterByOwner(owner).Ok?
    ensures st.MasterByOwner(owner).value.index == MasterIndex(st, owner)
    ensures st.MasterByOwner(owner).value.owner == owner
  {
    CoreAccounts(st);
  }

  lemma EntriesAfterMint(accounts: Accounts, m: Account, a: Account, pool: nat, operator: bool, sh: int,
        u: int, now: int)
    requires m.index in accounts && accounts[m.index] == m && a.index == m.index && IsPool(accounts, pool)
    requires EntriesOk(m.shares) && EntriesPoint(accounts, m) && 0 < sh && 0 <= u
    requires operator ==> a.shares == m.shares
    requires !operator ==> UpsertEntry(m.shares, pool, sh, u, now) == Ok(a.shares)
    ensures EntriesOk(a.shares) && EntriesPoint(accounts, a)
    ensures HoldingMoves(accounts, a, pool, if operator then 0 else sh)
  {
    if !operator {
      forall q: nat ensures SharesIn(a.shares, q) == SharesIn(m.shares, q) + if q == pool then sh else 0 {
        UpsertMoves(m.shares, pool, sh, u, now, q);
      }
      UpsertMoves(m.shares, pool, sh, u, now, pool);
    }
  }

  lemma PayOutWrites(st: State, pool: nat, m: nat, operator: bool, s: int, info: PoolInfo, paid: int)
    returns (a: Account, b: Account)
    requires pool in st.accounts && m in st.accounts && m != pool && 0 < s
    requires st.accounts[pool].index == pool && st.accounts[m].index == m
    requires PayOut(st, pool, m, operator, s, info, paid).Ok?
    ensures operator ==> a.shares == st.accounts[m].shares
    ensures !operator ==> ReduceEntry(st.accounts[m].shares, pool, s) == Ok(a.shares)
    ensures a == st.accounts[m].(collateral := st.accounts[m].collateral + paid, shares := a.shares)
    ensures b == st.accounts[pool].(collateral := st.accounts[pool].collateral - paid, info := Some(info))
    ensures PayOut(st, pool, m, operator, s, info, paid) == Ok(st.(accounts := st.accounts[m := a][pool := b]))
  {
    hide ReduceEntry;
    a := st.accounts[m].(collateral := st.accounts[m].collateral + paid,
                         shares := if operator then st.accounts[m].shares
                                   else ReduceEntry(st.accounts[m].shares, pool, s).value);
    b := st.accounts[pool].(collateral := st.accounts[pool].collateral - paid, info := Some(info));
    var st' := PayOut(st, pool, m, operator, s, info, paid).value;
    assert st'.accounts == st.accounts[m := a][pool := b];
  }

  /** Everything a successful burn fixes: the entry used, the terms quoted, and the two rows written. */
  ghost predicate BurnEffect(st: State, pool: nat, m: Account, operator: bool, s: int, env: Env,
        entry: Option<Share>, t: BurnTerms, a: Account, b: Account) {
    && IsPool(st.accounts, pool) && m.index != pool && 0 < s
    && (operator <==> entry.None?)
    && var p := st.accounts[pool];
       var tav := p.collateral + env.pnl;
       && Burnable(p.info.value, tav, entry, s)
       && s <= AvailableSharesToBurn(p.info.value, tav, env.avail)
       && t == TermsOfBurn(p.info.value, tav, entry, s)
       && (p.info.value.status == FROZEN || CheckMinOperatorShareRate(Burned(p.info.value, operator, s, t)))
       && (operator ==> a.shares == m.shares)
       && (!operator ==>
             && ReduceEntry(m.shares, pool, s) == Ok(a.shares)
             && FindShareEntry(m.shares, pool) < |m.shares|
             && entry.value == m.shares[FindShareEntry(m.shares, pool)])
       && a == m.(collateral := m.collateral + t.delivered * USDC_TO_COLLATERAL, shares := a.shares)
       && b == p.(collateral := p.collateral - t.delivered * USDC_TO_COLLATERAL,
                  info := Some(Burned(p.info.value, operator, s, t)))
  }

  /** The burn replies with what it delivered and writes exactly two rows. */
  predicate BurnResult(st: State, pool: nat, m: Account, operator: bool, s: int, skip: bool, env: Env,
        t: BurnTerms, a: Account, b: Account) {
    && pool in st.accounts
    && ExecBurn(st, st.accounts[pool], m, operator, s, skip, env)
       == Ok(Reply(st.(accounts := st.accounts[m.index := a][pool := b]), t.delivered))
  }

  /** The entry an accepted burn draws on. */
  function EntryUsed(p: Account, m: Account, operator: bool): Option<Share> {
    var i := FindShareEntry(m.shares, p.index);
    if operator || i == |m.shares| then None else Some(m.shares[i])
  }

  /** The guards an accepted burn passed, and the writes it came down to. */
  lemma BurnGuards(st: State, p: Account, m: Account, operator: bool, s: int, skip: bool, env: Env)
    requires ExecBurn(st, p, m, operator, s, skip, env).Ok? && 0 < s
    ensures p.IsPoolAccount()
    ensures var info, tav, entry := p.info.value, p.collateral + env.pnl, EntryUsed(p, m, operator);
            && s <= AvailableSharesToBurn(info, tav, env.avail)
            && (operator <==> entry.None?)
            && (if operator then info.operatorShares else entry.value.amount) >= s
            && 0 < SharesToUsdcValue(info, tav, s)
            && var t := TermsOfBurn(info, tav, entry, s);
               && (info.status == FROZEN || CheckMinOperatorShareRate(Burned(info, operator, s, t)))
               && var r := PayOut(st, p.index, m.index, operator, s, Burned(info, operator, s, t),
                                  t.delivered * USDC_TO_COLLATERAL);
                  r.Ok? && ExecBurn(st, p, m, operator, s, skip, env) == Ok(Reply(r.value, t.delivered))
  {
    hide CheckMinOperatorShareRate, AvailableSharesToBurn, TermsOfBurn, SharesToUsdcValue, CoolingDown,
         PayOut, BurnAllowed;
  }

  /** What a successful burn writes: the depositor's row and the pool's row, under the quoted terms. */
  lemma BurnWrites(st: State, pool: nat, m: Account, operator: bool, s: int, skip: bool, env: Env)
    returns (entry: Option<Share>, t: BurnTerms, a: Account, b: Account)
    requires Core(st) && pool in st.accounts && m.index in st.accounts && st.accounts[m.index] == m
    requires (m.kind.Master? || !operator) && 0 < s
    requires ExecBurn(st, st.accounts[pool], m, operator, s, skip, env).Ok?
    ensures BurnEffect(st, pool, m, operator, s, env, entry, t, a, b)
    ensures BurnResult(st, pool, m, operator, s, skip, env, t, a, b)
  {
    hide Core, ExecBurn, InfoOk, CheckMinOperatorShareRate, AvailableSharesToBurn, TermsOfBurn, ReduceEntry,
         SharesToUsdcValue, Burnable, Burned, PayOut;
    var p := st.accounts[pool];
    KeyFacts(st, pool);
    BurnGuards(st, p, m, operator, s, skip, env);
    entry := EntryUsed(p, m, operator);
    BurnAccepted(st, p, m, operator, s, env);
    var info, tav := p.info.value, p.collateral + env.pnl;
    t := TermsOfBurn(info, tav, entry, s);
    a, b := PayOutWrites(st, pool, m.index, operator, s, Burned(info, operator, s, t), t.delivered * USDC_TO_COLLATERAL);
  }

  /** A burn the engine accepts is one its quotations are sound for. */
  lemma BurnAccepted(st: State, p: Account, m: Account, operator: bool, s: int, env: Env)
    requires Core(st) && p.index in st.accounts && st.accounts[p.index] == p && p.IsPoolAccount()
    requires m.index in st.accounts && st.accounts[m.index] == m && 0 < s
    requires var info, tav, entry := p.info.value, p.collateral + env.pnl, EntryUsed(p, m, operator);
             && s <= AvailableSharesToBurn(info, tav, env.avail)
             && (operator <==> entry.None?)
             && (if operator then info.operatorShares else entry.value.amount) >= s
    ensures !operator ==> m.kind.Master?
    ensures Burnable(p.info.value, p.collateral + env.pnl, EntryUsed(p, m, operator), s)
  {
    hide Core, Quo, Idle, EntriesPoint;
    RowFacts(st, p.index);
    RowFacts(st, m.index);
    if !operator { LpHoldingCovered(st, m.index, p.index); }
  }

  /** An LP's entry is part of the shares outstanding beyond the operator's. */
  lemma LpHoldingCovered(st: State, m: nat, pool: nat)
    requires Core(st) && m in st.accounts && IsPool(st.accounts, pool)
    ensures var info, shares := st.accounts[pool].info.value, st.accounts[m].shares;
            var i := FindShareEntry(shares, pool);
            i < |shares| ==> shares[i].amount <= info.totalShares - info.operatorShares
  {
    hide Core, AccountsOk, SharesAddUp, SharesIn;
    CoreAccounts(st);
    RowFacts(st, m);
    EntryWithinTotal(st.accounts, m, pool);
    HoldingIsEntry(st.accounts[m].shares, pool);
  }

  lemma BurnedInfoOk(info: PoolInfo, tav: int, operator: bool, entry: Option<Share>, s: int)
    requires Idle(info) && Burnable(info, tav, entry, s) && (operator <==> entry.None?)
    requires !operator ==> s <= info.totalShares - info.operatorShares
    requires info.status == FROZEN
             || CheckMinOperatorShareRate(Burned(info, operator, s, TermsOfBurn(info, tav, entry, s)))
    ensures var info' := Burned(info, operator, s, TermsOfBurn(info, tav, entry, s));
            && InfoOk(info') && Idle(info')
            && info'.totalShares - info'.operatorShares
               == info.totalShares - info.operatorShares - if operator then 0 else s
  {
    hide TermsOfBurn, CheckMinOperatorShareRate;
    var t := TermsBounds(info, tav, entry, s);
  }

  lemma BurnEffectKeeps(st: State, pool: nat, m: Account, operator: bool, s: int, env: Env,
        entry: Option<Share>, t: BurnTerms, a: Account, b: Account)
    requires Core(st) && BurnEffect(st, pool, m, operator, s, env, entry, t, a, b)
    requires m.index in st.accounts && st.accounts[m.index] == m
    ensures Keeps(st, st.(accounts := st.accounts[m.index := a][pool := b]), 0)
  {
    hide Core, Moves, EntriesOk, TermsOfBurn, InfoOk, Idle, HoldingMoves, EntriesPoint, ReduceEntry,
         CheckMinOperatorShareRate, SharesIn, AvailableSharesToBurn;
    RowFacts(st, m.index);
    RowFacts(st, pool);
    if !operator { LpHoldingCovered(st, m.index, pool); }
    BurnedInfoOk(st.accounts[pool].info.value, st.accounts[pool].collateral + env.pnl, operator, entry, s);
    EntriesAfterBurn(st.accounts, m, a, pool, operator, s);
    PoolMoveKeeps(st, st.(accounts := st.accounts[m.index := a][pool := b]), a, b, if operator then 0 else -s);
  }

  lemma BurnKeeps(st: State, pool: nat, m: Account, operator: bool, s: int, skip: bool, env: Env)
    requires Core(st) && pool in st.accounts && m.index in st.accounts && st.accounts[m.index] == m
    requires (m.kind.Master? || !operator) && 0 < s
    requires ExecBurn(st, st.accounts[pool], m, operator, s, skip, env).Ok?
    ensures Keeps(st, ExecBurn(st, st.accounts[pool], m, operator, s, skip, env).value.state, 0)
  {
    hide Core, Keeps, ExecBurn, BurnEffect;
    var entry, t, a, b := BurnWrites(st, pool, m, operator, s, skip, env);
    BurnEffectKeeps(st, pool, m, operator, s, env, entry, t, a, b);
  }

  /** A burn message is the shared burn on behalf of the sender's master. */
  lemma BurnSharesIsBurn(st: State, sender: string, p: nat, s: int, env: Env) returns (m: Account, operator: bool)
    requires Core(st) && ExecBurnShares(st, sender, p, s, env).Ok?
    ensures p in st.accounts && m.index in st.accounts && st.accounts[m.index] == m && m.kind.Master? && 0 < s
    ensures sender in st.owners && m.index == st.owners[sender] && m.owner == sender
    ensures st.IsPoolOperator(st.accounts[p], sender) == Ok(operator)
    ensures ExecBurn(st, st.accounts[p], m, operator, s, false, env).Ok?
    ensures ExecBurnShares(st, sender, p, s, env) == ExecBurn(st, st.accounts[p], m, operator, s, false, env)
  {
    hide Core, ExecBurn, State.IsPoolOperator;
    m := OwnerIsMaster(st, sender);
    OwnerIndex(st, sender);
    operator := st.IsPoolOperator(st.accounts[p], sender).value;
  }

  /** A forced burn is the shared burn on behalf of the named depositor. */
  lemma ForceBurnIsBurn(st: State, sender: string, p: nat, d: nat, s: int, env: Env)
    requires Core(st) && ExecForceBurnShares(st, sender, p, d, s, env).Ok?
    ensures p in st.accounts && d in st.accounts && st.accounts[d].index == d && 0 < s
    ensures ExecBurn(st, st.accounts[p], st.accounts[d], false, s, true, env).Ok?
    ensures ExecForceBurnShares(st, sender, p, d, s, env) == ExecBurn(st, st.accounts[p], st.accounts[d], false, s, true, env)
  {
    hide Core, ExecBurn;
    KeyFacts(st, d);
  }

  lemma EntriesAfterBurn(accounts: Accounts, m: Account, a: Account, pool: nat, operator: bool, s: int)
    requires m.index in accounts && accounts[m.index] == m && a.index == m.index && IsPool(accounts, pool)
    requires EntriesOk(m.shares) && EntriesPoint(accounts, m) && 0 < s
    requires operator ==> a.shares == m.shares
    requires !operator ==> ReduceEntry(m.shares, pool, s) == Ok(a.shares)
    ensures EntriesOk(a.shares) && EntriesPoint(accounts, a) && (a.shares != [] ==> m.shares != [])
    ensures HoldingMoves(accounts, a, pool, if operator then 0 else -s)
  {
    if !operator {
      forall q: nat ensures SharesIn(a.shares, q) == SharesIn(m.shares, q) + if q == pool then -s else 0 {
        ReduceMoves(m.shares, pool, s, q);
      }
      ReduceMoves(m.shares, pool, s, pool);
    }
  }

  /** No strategy bucket ever holds anything, so no transfer between buckets is ever accepted. */
  lemma StrategyTransferRefused(st: State, sender: string, pool: nat, f: nat, t: nat, d: int)
    requires Core(st)
    ensures ExecStrategyTransfer(st, sender, pool, f, t, d).Err?
  {
    hide Core, InfoOk;
    if pool in st.accounts { RowFacts(st, pool); }
  }

  // ---------- asset messages ----------

  lemma NewAssetOk(st: State, a: Asset)
    requires Core(st) && a.index == st.nextAsset && a.denom !in st.denoms && !a.margin
    requires !NameTaken(st.assets, a.displayName)
    ensures AssetsOk(st.(assets := st.assets[a.index := a], denoms := st.denoms[a.denom := a.index],
                         nextAsset := st.nextAsset + 1))
    ensures NamesOk(st.assets[a.index := a])
    ensures a.index !in st.assets && a.index != USDC
  {
    hide AccountsOk, SharesAddUp, IndexOk, RowsOk, PositionsOk, MetasOk, Fold;
  }

  lemma SameAssetOk(st: State, x: nat, a: Asset)
    requires Core(st) && x in st.assets && a.index == x == st.assets[x].index
    requires a.denom == st.assets[x].denom && a.margin == st.assets[x].margin
    requires a.displayName == st.assets[x].displayName
    ensures AssetsOk(st.(assets := st.assets[x := a])) && NamesOk(st.assets[x := a])
  {
    hide AccountsOk, SharesAddUp, IndexOk, RowsOk, PositionsOk, MetasOk, Fold;
  }

  lemma RegisterAssetKeeps(st: State, sender: string, denom: string, name: string, c: nat, m: nat, t: nat, w: nat, g: nat)
    requires Core(st) && ExecRegisterAsset(st, sender, denom, name, c, m, t, w, g).Ok?
    ensures Keeps(st, ExecRegisterAsset(st, sender, denom, name, c, m, t, w, g).value.state, 0)
  {
    hide Core, Keeps, AssetsOk, NamesOk, NameTaken, Fold, ValidDenom;
    var st' := ExecRegisterAsset(st, sender, denom, name, c, m, t, w, g).value.state;
    NewAssetOk(st, st'.assets[st.nextAsset]);
    AssetWriteKeeps(st, st');
  }

  lemma UpdateAssetKeeps(st: State, sender: string, x: nat, t: nat, w: nat, enabled: bool)
    requires Core(st) && ExecUpdateAsset(st, sender, x, t, w, enabled).Ok?
    ensures Keeps(st, ExecUpdateAsset(st, sender, x, t, w, enabled).value.state, 0)
  {
    hide Core, Keeps, AssetsOk, NamesOk;
    var st' := ExecUpdateAsset(st, sender, x, t, w, enabled).value.state;
    AssetFacts(st, x);
    SameAssetOk(st, x, st'.assets[x]);
    AssetWriteKeeps(st, st');
  }

  /** Assets keep their denom and multiplier for life; a new one starts without coins. */
  lemma AssetWriteKeeps(st: State, st': State)
    requires Core(st) && AssetsOk(st') && NamesOk(st'.assets)
    requires st' == st.(assets := st'.assets, denoms := st'.denoms, nextAsset := st'.nextAsset)
    requires forall x :: x in st.assets ==>
               && x in st'.assets && st'.assets[x].denom == st.assets[x].denom
               && st'.assets[x].multiplier == st.assets[x].multiplier
    requires forall x :: x in st'.assets && x !in st.assets ==> st'.assets[x].denom !in st.denoms
    requires forall d :: d in st.denoms ==> d in st'.denoms
    ensures Keeps(st, st', 0)
  {
    hide AccountsOk, SharesAddUp, IndexOk, RowsOk, PositionsOk, MetasOk, SpotTotal, TotalCollateral, TotalMargin,
         TotalEntry, MarketSize, NamesOk;
    IndexFrameFields(st, st');
    assert forall y :: Owed(st', y) == Owed(st, y);
    assert forall y :: Backing(st', y) == Backing(st, y);
  }

}

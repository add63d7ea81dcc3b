// Runs from boot that show two properties failing: a fill that changes what the
// module owes without moving a coin, and a close-out that leaves a market's
// longs and shorts unequal.
module Instances {
  import opened Types
  import opened Arith
  import opened Store
  import opened Funding
  import opened Trades
  import opened Messages
  import opened Invariants
  import opened Flows
  import opened Delivery
  import opened Genesis
  import opened Reachability
  import opened PoolTerms
  import opened Gates
  import opened FillLaws
  import opened Exits

  const MARKET := 1

  /** Everything is granted, and no funding is due. */
  const ENV := Env(0, 0, 0, true, true, true, None, map[MARKET := 0], TradeEnv(None, 0, 0, 0, true, true, true, true))

  // ---------- three traders ----------

  function Paying(owner: string): Tx {
    Tx(Deposit(owner, "", USDC, Perps, MIN_PARTIAL_AMOUNT), ENV)
  }

  const TRADERS := [Paying("a"), Paying("b"), Paying("c")]

  /** Nothing is traded, deposits are open, and `n` is the next master index. */
  ghost predicate Untraded(st: State, n: nat) {
    && st.positions == map[] && st.nextMaster == n && FIRST_USER_MASTER <= n
    && st.assets == Seeded("").assets && st.params.minTransfer == MIN_PARTIAL_AMOUNT
    && (forall i :: 0 <= i < n ==> i in st.accounts)
  }

  lemma DepositOpens(st: State, owner: string, n: nat)
    requires Untraded(st, n) && n < MAX_MASTER_INDEX && owner != "" && owner !in st.owners
    ensures var st' := Deliver(st, Paying(owner).msg, ENV); Untraded(st', n + 1) && st'.owners == st.owners[owner := n]
  {
    hide Deliver, Untraded;
    DepositRuns(st, owner);
    DepositWrites(st, owner, n);
  }

  lemma DepositRuns(st: State, owner: string)
    ensures var r := ExecDeposit(st, owner, "", USDC, Perps, MIN_PARTIAL_AMOUNT, ENV);
            r.Ok? ==> Deliver(st, Paying(owner).msg, ENV) == r.value.state
  {
    hide ExecDeposit;
  }

  lemma DepositWrites(st: State, owner: string, n: nat)
    requires Untraded(st, n) && n < MAX_MASTER_INDEX && owner != "" && owner !in st.owners
    ensures var r := ExecDeposit(st, owner, "", USDC, Perps, MIN_PARTIAL_AMOUNT, ENV);
            r.Ok? && Untraded(r.value.state, n + 1) && r.value.state.owners == st.owners[owner := n]
  {
  }

  lemma TradersArrive(authority: string)
    ensures var st := Run(Boot(authority), TRADERS); Core(st) && Untraded(st, 5) && Gap(st, USDC) == 0
  {
    hide Core, Boot, Deliver, Gap, Untraded, Leaked;
    var st := Boot(authority);
    BootIdles(authority);
    DepositOpens(st, "a", 2);
    RunOn(st, [], Paying("a"));
    var st1 := Run(st, [] + [Paying("a")]);
    DepositOpens(st1, "b", 3);
    RunOn(st, [Paying("a")], Paying("b"));
    var st2 := Run(st, [Paying("a")] + [Paying("b")]);
    DepositOpens(st2, "c", 4);
    RunOn(st, [Paying("a"), Paying("b")], Paying("c"));
    assert [] + [Paying("a")] == [Paying("a")];
    assert [Paying("a")] + [Paying("b")] == [Paying("a"), Paying("b")];
    assert [Paying("a"), Paying("b")] + [Paying("c")] == TRADERS;
    BootIsOk(authority);
    RunKeeps(st, TRADERS);
    OnlyFillsLeak(st, TRADERS, USDC);
    GapIsLeaked(authority, TRADERS, USDC);
  }

  lemma BootIdles(authority: string)
    ensures Untraded(Boot(authority), 2) && Boot(authority).owners == map[]
  {
    hide Boot;
    BootRows(authority);
  }

  // ---------- opening fills ----------

  /** A fill free of fees and checks. */
  function Plain(maker: nat, taker: nat, price: nat, base: nat, takerAsk: bool): Match {
    Match(maker, taker, MARKET, price, base, takerAsk, 0, 0, true, true, false, false, 0, 0, 0)
  }

  function Holding(i: nat, size: int, entry: int): Position {
    Position(i, MARKET, size, entry, 0, 0, CROSS_MARGIN, 0)
  }

  function With(st: State, p: Position, q: Position): State {
    st.SetPosition(p).SetPosition(q)
  }

  lemma NothingDue(st: State, i: nat)
    requires st.GetPosition(i, MARKET).lastFundingPrefix == 0
    ensures SettlePosition(st, i, MARKET, ENV.prefixes)
         == Ok(st.SetPosition(st.GetPosition(i, MARKET).(account := i, market := MARKET)))
  {
    assert st.GetPosition(i, MARKET).baseSize * 0 == 0;
  }

  /** Settling writes both positions back as they were. */
  lemma SettlesNothing(st: State, m: Match, p: Position, q: Position)
    requires m.market == MARKET && m.maker != m.taker
    requires p == st.GetPosition(m.maker, MARKET) && q == st.GetPosition(m.taker, MARKET)
    requires p == Holding(m.maker, p.baseSize, p.entryQuote) && q == Holding(m.taker, q.baseSize, q.entryQuote)
    ensures SettleBoth(st, m, ENV.prefixes) == Made(With(st, p, q))
    ensures With(st, p, q).GetPosition(m.maker, MARKET) == p && With(st, p, q).GetPosition(m.taker, MARKET) == q
  {
    hide SettlePosition;
    NothingDue(st, m.maker);
    NothingDue(st.SetPosition(p), m.taker);
  }

  lemma NothingOpens(i: nat, d: int, price: nat)
    ensures P.ApplyFill(Holding(i, 0, 0), d, price) == P.FillResult(Holding(i, d, d * price), 0, false)
  {
    hide Quo;
  }

  lemma Mirrored(base: nat, price: nat, d: int)
    requires d == base || d == 0 - base
    ensures Abs(d * price) == Abs(-d * price) == base * price && Abs(d) == Abs(-d) == base
  {
    assert d * price == (if d == base then base * price else -(base * price));
  }

  lemma OneOpens(st: State, i: nat, d: int, price: nat, e: Error)
    requires st.GetPosition(i, MARKET) == Holding(i, 0, 0)
    requires Abs(d) <= MAX_POSITION_SIZE && Abs(d * price) <= MAX_ENTRY_QUOTE
    ensures var p := Holding(i, d, d * price);
            ChangePosition(st, i, MARKET, d, price, e)
            == Ok((st.SetPosition(p), Side(i, MARKET, Holding(i, 0, 0), p, Abs(d), false, 0)))
  {
    hide P.ApplyFill;
    NothingOpens(i, d, price);
  }

  ghost predicate Free(st: State, maker: nat, taker: nat, price: nat, base: nat) {
    && maker != taker && base <= MAX_POSITION_SIZE && base * price <= MAX_ENTRY_QUOTE
    && st.GetPosition(maker, MARKET) == Holding(maker, 0, 0) && st.GetPosition(taker, MARKET) == Holding(taker, 0, 0)
  }

  lemma OpensBoth(st: State, maker: nat, taker: nat, price: nat, base: nat, takerAsk: bool)
    returns (st1: State, mine: Side, theirs: Side)
    requires Free(st, maker, taker, price, base)
    ensures var m := Plain(maker, taker, price, base, takerAsk);
            var d := m.MakerDelta();
            var p', q' := Holding(maker, d, d * price), Holding(taker, -d, -d * price);
            && SettleBoth(st, m, ENV.prefixes) == Made(st1)
            && ChangeMaker(st1, m) == Ok((st1.SetPosition(p'), mine))
            && ChangeTaker(st1.SetPosition(p'), m) == Ok((With(st, p', q'), theirs))
            && mine == Side(maker, MARKET, Holding(maker, 0, 0), p', base, false, 0)
            && theirs == Side(taker, MARKET, Holding(taker, 0, 0), q', base, false, 0)
  {
    hide SettleBoth, ChangePosition, WithinBounds;
    var m := Plain(maker, taker, price, base, takerAsk);
    var d := m.MakerDelta();
    var p, q := Holding(maker, 0, 0), Holding(taker, 0, 0);
    var p', q' := Holding(maker, d, d * price), Holding(taker, -d, -d * price);
    Mirrored(base, price, d);
    SettlesNothing(st, m, p, q);
    st1 := With(st, p, q);
    OneOpens(st1, maker, d, price, MakerInvalidPosition);
    OneOpens(st1.SetPosition(p'), taker, -d, price, TakerInvalidPosition);
    mine, theirs := Side(maker, MARKET, p, p', base, false, 0), Side(taker, MARKET, q, q', base, false, 0);
    assert With(st1, p', q').positions == With(st, p', q').positions;
  }

  /** Two accounts without positions trade: both are opened, nothing is realised, no debt moves. */
  lemma Opens(st: State, maker: nat, taker: nat, price: nat, base: nat, takerAsk: bool)
    requires Core(st) && Free(st, maker, taker, price, base)
    ensures var m := Plain(maker, taker, price, base, takerAsk);
            var d := m.MakerDelta();
            var st' := Deliver(st, PerpFill(m), ENV);
            && st' == With(st, Holding(maker, d, d * price), Holding(taker, -d, -d * price))
            && Core(st') && Gap(st', USDC) == Gap(st, USDC)
  {
    hide Core, Gap, TotalEntry, MarketSize, SettleBoth, ChangeMaker, ChangeTaker, MatchPaid, With, Free,
         State.SetPosition;
    var m := Plain(maker, taker, price, base, takerAsk);
    var st1, mine, theirs := OpensBoth(st, maker, taker, price, base, takerAsk);
    var st', r := FillMoves(st, m, ENV);
  }

  // ---------- a first mint ----------

  const FIRST_MINT := [Paying("a"), Tx(MintShares("a", INSURANCE_FUND, 10_000_000), ENV)]

  /** The first deposit of 10 USDC into the insurance fund buys 10 000 shares, at 1000 uusdc a share. */
  lemma FirstMintFromBoot(authority: string)
    ensures var st := Run(Boot(authority), FIRST_MINT[..1]);
            && Exec(st, FIRST_MINT[1].msg, ENV).Ok? && Exec(st, FIRST_MINT[1].msg, ENV).value.value == 10_000
            && IsPool(Run(Boot(authority), FIRST_MINT).accounts, INSURANCE_FUND)
            && Run(Boot(authority), FIRST_MINT).accounts[INSURANCE_FUND].info.value.totalShares == 10_000
  {
    hide Core, Boot, Deliver, Run, Exec, ExecMintShares, Operates;
    var boot := Boot(authority);
    FirstDeposit(authority);
    RunOn(boot, [], Paying("a"));
    RunOn(boot, [Paying("a")], FIRST_MINT[1]);
    assert [] + [Paying("a")] == [Paying("a")] == FIRST_MINT[..1];
    assert [Paying("a")] + [FIRST_MINT[1]] == FIRST_MINT;
    var st := Run(boot, FIRST_MINT[..1]);
    MintAcceptedIff(st, "a", INSURANCE_FUND, 10_000_000, ENV);
    MintSettles(st, "a", INSURANCE_FUND, 10_000_000, ENV);
    MintRuns(st);
  }

  lemma MintRuns(st: State)
    ensures Exec(st, FIRST_MINT[1].msg, ENV) == ExecMintShares(st, "a", INSURANCE_FUND, 10_000_000, ENV)
    ensures var r := ExecMintShares(st, "a", INSURANCE_FUND, 10_000_000, ENV);
            r.Ok? ==> Deliver(st, FIRST_MINT[1].msg, ENV) == r.value.state
  {
    hide ExecMintShares;
  }

  lemma FirstDeposit(authority: string)
    ensures var st := Run(Boot(authority), [Paying("a")]);
            && Core(st) && st.positions == map[] && st.owners == map["a" := 2] && 2 in st.accounts
            && st.accounts[2].collateral == 10_000_000_000_000 && st.accounts[2].shares == []
            && IsPool(st.accounts, INSURANCE_FUND) && st.accounts[INSURANCE_FUND].collateral == 0
            && st.accounts[INSURANCE_FUND].kind.InsuranceFund?
            && st.accounts[INSURANCE_FUND].info.value == PoolInfo(ACTIVE, 0, 0, 0, 0, NO_STRATEGIES)
  {
    hide Core, Boot, Deliver;
    var boot := Boot(authority);
    BootIsOk(authority);
    BootRows(authority);
    RunKeeps(boot, [Paying("a")]);
    RunOn(boot, [], Paying("a"));
    assert [] + [Paying("a")] == [Paying("a")];
    DepositRuns(boot, "a");
    BootDeposit(boot);
  }

  lemma BootDeposit(st: State)
    requires st.accounts == map[TREASURY := DefaultGenesis().accounts[0], INSURANCE_FUND := DefaultGenesis().accounts[1]]
    requires st.owners == map[] && st.nextMaster == 2 && st.params.minTransfer == MIN_PARTIAL_AMOUNT
    requires st.assets == Seeded("").assets
    ensures var r := ExecDeposit(st, "a", "", USDC, Perps, MIN_PARTIAL_AMOUNT, ENV);
            && r.Ok? && r.value.state.positions == st.positions && r.value.state.owners == map["a" := 2]
            && r.value.state.accounts
               == st.accounts[2 := Account(2, NIL_MASTER, "a", Master, 0, 10_000_000_000_000, 0, 0, [], None)]
  {
  }

  // ---------- a fill that leaks ----------

  /** A long of 10 bought at 100 gives 4 away at 150: its books shrink by 200 instead of growing. */
  lemma LongShrinks()
    ensures P.ApplyFill(Holding(2, 10, 1000), -4, 150) == P.FillResult(Holding(2, 6, 600), -200, false)
  {
    assert Quo(1000 * 6, 10) == 600 && Quo(1000 * -4, -10) == 400;
  }

  const LEAKING := TRADERS + [Tx(PerpFill(Plain(2, 3, 100, 10, true)), ENV),
                              Tx(PerpFill(Plain(2, 4, 150, 4, false)), ENV)]

  /** The long side of the first fill sells to a newcomer: accepted, and the books are 200 units off. */
  lemma LeakFromBoot(authority: string)
    ensures Gap(Run(Boot(authority), LEAKING), USDC) == -200
    ensures !Solvent(Run(Boot(authority), LEAKING))
  {
    hide Core, Boot, Deliver, Gap, Untraded, ApplyMatch;
    var boot, m1, m2 := Boot(authority), Plain(2, 3, 100, 10, true), Plain(2, 4, 150, 4, false);
    TradersArrive(authority);
    var st := Run(boot, TRADERS);
    NothingHeld(st, 5, 2);
    NothingHeld(st, 5, 3);
    Opens(st, 2, 3, 100, 10, true);
    RunOn(boot, TRADERS, Tx(PerpFill(m1), ENV));
    var txs := TRADERS + [Tx(PerpFill(m1), ENV)];
    RunOn(boot, txs, Tx(PerpFill(m2), ENV));
    assert txs + [Tx(PerpFill(m2), ENV)] == LEAKING;
    var st1 := With(st, Holding(2, 10, 1000), Holding(3, -10, -1000));
    NothingHeld(st, 5, 4);
    SellsToNewcomer(st1);
  }

  lemma NothingHeld(st: State, n: nat, i: nat)
    requires Untraded(st, n) && i < n
    ensures i in st.accounts && st.GetPosition(i, MARKET) == Holding(i, 0, 0)
    ensures forall p: Position, q: Position :: i != p.account && i != q.account ==>
              With(st, p, q).GetPosition(i, MARKET) == Holding(i, 0, 0)
  {
  }

  lemma SellsBoth(st: State) returns (st1: State, st2: State, mine: Side, theirs: Side)
    requires st.GetPosition(2, MARKET) == Holding(2, 10, 1000) && st.GetPosition(4, MARKET) == Holding(4, 0, 0)
    ensures var m := Plain(2, 4, 150, 4, false);
            && SettleBoth(st, m, ENV.prefixes) == Made(st1) && st2.accounts == st.accounts
            && ChangeMaker(st1, m).Ok? && ChangeMaker(st1, m).value.1 == mine
            && ChangeTaker(ChangeMaker(st1, m).value.0, m) == Ok((st2, theirs))
    ensures mine == Side(2, MARKET, Holding(2, 10, 1000), Holding(2, 6, 600), -4, false, -200)
    ensures theirs == Side(4, MARKET, Holding(4, 0, 0), Holding(4, 4, 600), 4, false, 0)
  {
    hide SettleBoth, P.ApplyFill;
    var m, p, q := Plain(2, 4, 150, 4, false), Holding(2, 10, 1000), Holding(4, 0, 0);
    SettlesNothing(st, m, p, q);
    LongShrinks();
    st1 := With(st, p, q);
    mine := Side(2, MARKET, p, Holding(2, 6, 600), -4, false, -200);
    assert ChangeMaker(st1, m) == Ok((st1.SetPosition(mine.after), mine));
    OneOpens(st1.SetPosition(mine.after), 4, 4, 150, TakerInvalidPosition);
    st2 := st1.SetPosition(mine.after).SetPosition(Holding(4, 4, 600));
    theirs := Side(4, MARKET, q, Holding(4, 4, 600), 4, false, 0);
  }

  lemma SellsToNewcomer(st: State)
    requires Core(st) && 2 in st.accounts
    requires st.GetPosition(2, MARKET) == Holding(2, 10, 1000) && st.GetPosition(4, MARKET) == Holding(4, 0, 0)
    ensures Gap(Deliver(st, PerpFill(Plain(2, 4, 150, 4, false)), ENV), USDC) == Gap(st, USDC) - 200
  {
    hide Core, Gap, TotalEntry, MarketSize, SettleBoth, ChangeMaker, ChangeTaker, MatchPaid, Exec;
    var m := Plain(2, 4, 150, 4, false);
    var st1, st2, mine, theirs := SellsBoth(st);
    assert ApplyMatch(st, m, ENV).Made?;
    FillRuns(st, m);
    var st', r := FillMoves(st, m, ENV);
  }

  lemma FillRuns(st: State, m: Match)
    ensures ApplyMatch(st, m, ENV).Made? ==> Deliver(st, PerpFill(m), ENV) == ApplyMatch(st, m, ENV).value
  {
    hide ApplyMatch;
  }

  // ---------- a close-out that orphans ----------

  const SIZE := 50_000_000
  const PRICE := 1_000_000_000
  const ENTRY := 50_000_000_000_000_000

  const HELD := TRADERS + [Tx(PerpFill(Plain(2, 3, PRICE, SIZE, true)), ENV),
                           Tx(PerpFill(Plain(4, INSURANCE_FUND, PRICE, SIZE, false)), ENV)]

  /** The close-out that expiry makes of account 2's position. */
  const ORPHANING := Tx(CloseOut(ExitFill(Holding(2, SIZE, ENTRY), 2, MARKET, PRICE)), ENV)

  /**
   * Two longs of 50 million at a price of 10^9, one of them the insurance
   * fund's: closing the other against the fund empties it and then fails,
   * because the fund's entry quote would pass its bound.  The shorts stay.
   */
  lemma OrphanFromBoot(authority: string)
    ensures MarketSize(Run(Boot(authority), HELD).positions, MARKET) == 0
    ensures ORPHANING.msg.fill == ExitFill(Run(Boot(authority), HELD).GetPosition(2, MARKET), 2, MARKET, PRICE)
    ensures var st := Run(Boot(authority), HELD + [ORPHANING]);
            && MarketSize(st.positions, MARKET) == -SIZE
            && st.GetPosition(2, MARKET).baseSize == 0 && st.GetPosition(INSURANCE_FUND, MARKET).baseSize == SIZE
  {
    hide Core, Boot, Deliver, Run, MarketSize, Orphaned, Orphans, AlwaysMatched;
    var boot := Boot(authority);
    BothHold(authority);
    RunOn(boot, HELD, ORPHANING);
    FundIsFull(Run(boot, HELD));
    HeldMatches(authority);
  }

  lemma HeldMatches(authority: string)
    ensures MarketSize(Run(Boot(authority), HELD).positions, MARKET) == 0
  {
    hide Boot, Run, MarketSize, Orphaned, TakerOutOfBounds;
    LongsMatchShorts(authority, HELD);
    assert NoneOrphans(Boot(authority), HELD);
    assert HELD[..|HELD|] == HELD;
  }

  lemma BothHold(authority: string)
    ensures var st := Run(Boot(authority), HELD);
            && Core(st) && st.GetPosition(2, MARKET) == Holding(2, SIZE, ENTRY)
            && st.GetPosition(INSURANCE_FUND, MARKET) == Holding(INSURANCE_FUND, SIZE, ENTRY)
  {
    hide Core, Boot, Deliver, Run, Gap, Untraded;
    var boot := Boot(authority);
    var tx1 := Tx(PerpFill(Plain(2, 3, PRICE, SIZE, true)), ENV);
    var tx2 := Tx(PerpFill(Plain(4, INSURANCE_FUND, PRICE, SIZE, false)), ENV);
    TradersArrive(authority);
    var st := Run(boot, TRADERS);
    NothingHeld(st, 5, 1);
    NothingHeld(st, 5, 2);
    NothingHeld(st, 5, 3);
    NothingHeld(st, 5, 4);
    Opens(st, 2, 3, PRICE, SIZE, true);
    RunOn(boot, TRADERS, tx1);
    var st1 := With(st, Holding(2, SIZE, ENTRY), Holding(3, -SIZE, -ENTRY));
    Opens(st1, 4, 1, PRICE, SIZE, false);
    RunOn(boot, TRADERS + [tx1], tx2);
    assert TRADERS + [tx1] + [tx2] == HELD;
  }

  /** The fund cannot take a second long of that size. */
  lemma FundIsFull(st: State)
    requires Core(st)
    requires st.GetPosition(2, MARKET) == Holding(2, SIZE, ENTRY)
    requires st.GetPosition(INSURANCE_FUND, MARKET) == Holding(INSURANCE_FUND, SIZE, ENTRY)
    ensures var st' := Deliver(st, ORPHANING.msg, ENV);
            && MarketSize(st'.positions, MARKET) == MarketSize(st.positions, MARKET) - SIZE
            && st'.GetPosition(2, MARKET).baseSize == 0 && st'.GetPosition(INSURANCE_FUND, MARKET).baseSize == SIZE
  {
    hide Core, Deliver, MarketSize, SettleBoth, TraceOf, ApplyMatch, P.ApplyFill;
    var m := ORPHANING.msg.fill;
    var p, q := Holding(2, SIZE, ENTRY), Holding(1, SIZE, ENTRY);
    SettlesNothing(st, m, p, q);
    FullTaker();
    assert TakerOutOfBounds(st, m, ENV);
    CloseOutOrphansIff(st, m, ENV);
    CloseOutState(st, m, ENV);
    TornTrace(st, m, ENV);
    FillSizes(st, m, ENV);
  }

  lemma FullTaker()
    ensures P.ApplyFill(Holding(2, SIZE, ENTRY), -SIZE, PRICE).position == Holding(2, 0, 0)
    ensures P.ApplyFill(Holding(1, SIZE, ENTRY), SIZE, PRICE).position == Holding(1, 2 * SIZE, 2 * ENTRY)
  {
    hide Quo;
  }
}

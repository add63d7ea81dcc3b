// What holds in every state reachable from the default genesis, by any run of
// messages, perp fills and close-outs and under any answers of the environment.
module Reachability {
  import opened Types
  import opened Arith
  import opened Store
  import opened Trades
  import opened Flows
  import opened Assets
  import opened Sums
  import opened Messages
  import opened Invariants
  import opened Preservation
  import opened Delivery
  import opened PoolRuns
  import opened Genesis

  ghost predicate Reachable(st: State) {
    exists authority: string, txs: seq<Tx> :: st == Run(Boot(authority), txs)
  }

  lemma ReachableIsOk(st: State)
    requires Reachable(st)
    ensures Core(st)
  {
    hide Core;
    var authority: string, txs: seq<Tx> :| st == Run(Boot(authority), txs);
    BootIsOk(authority);
    RunKeeps(Boot(authority), txs);
  }

  /** Messages lead from reachable states to reachable states. */
  lemma ReachableSteps(st: State, msg: Msg, env: Env)
    requires Reachable(st)
    ensures Reachable(Deliver(st, msg, env))
  {
    hide Deliver, Boot;
    var authority: string, txs: seq<Tx> :| st == Run(Boot(authority), txs);
    var txs' := txs + [Tx(msg, env)];
    assert txs'[..|txs|] == txs;
    assert Deliver(st, msg, env) == Run(Boot(authority), txs');
  }

  lemma {:induction false} ReachableRuns(st: State, txs: seq<Tx>)
    requires Reachable(st)
    ensures Reachable(Run(st, txs))
    decreases |txs|
  {
    hide Reachable, Deliver;
    if txs != [] {
      ReachableRuns(st, txs[..|txs| - 1]);
      ReachableSteps(Run(st, txs[..|txs| - 1]), txs[|txs| - 1].msg, txs[|txs| - 1].env);
    }
  }

  // ---------- shares ----------

  /**
   * In every reachable state a pool's outstanding shares are the operator's
   * plus the sum over all accounts, none negative; each account has at most 16
   * entries, all positive and for distinct pools.
   */
  lemma SharesAlwaysAddUp(st: State, p: nat)
    requires Reachable(st) && IsPool(st.accounts, p)
    ensures var info := st.accounts[p].info.value;
            && info.totalShares == info.operatorShares + LpShares(st.accounts, p)
            && 0 <= info.operatorShares && 0 <= LpShares(st.accounts, p)
    ensures forall i :: i in st.accounts ==> EntriesOk(st.accounts[i].shares)
  {
    hide Reachable, Core, LpShares, EntriesOk, EntriesPoint, Idle, AccountsOk, IndexOk;
    ReachableIsOk(st);
    CoreAccounts(st);
    RowFacts(st, p);
    forall i | i in st.accounts ensures EntriesOk(st.accounts[i].shares) { RowFacts(st, i); }
  }

  /** In every reachable state the operator of a pool that is not frozen holds the pool's minimum share rate. */
  lemma FloorAlwaysHolds(st: State, p: nat)
    requires Reachable(st) && IsPool(st.accounts, p) && InfoOf(st, p).status != FROZEN
    ensures InfoOf(st, p).totalShares * InfoOf(st, p).minOperatorShareRate <= InfoOf(st, p).operatorShares * SHARE_TICK
  {
    hide Reachable, Core;
    ReachableIsOk(st);
    TotalNonNegative(st, p);
  }

  // ---------- the books ----------

  lemma GapIsLeaked(authority: string, txs: seq<Tx>, x: nat)
    ensures Gap(Run(Boot(authority), txs), x) == Leaked(Boot(authority), txs, x)
  {
    hide Core, Run, Boot, Leaked, Gap;
    BootIsOk(authority);
    RunIsBooked(Boot(authority), txs);
    assert Gap(Boot(authority), x) == 0;
  }

  /**
   * The books of every reachable state: for each registered asset the coins at
   * internal precision, plus what fills routed in USDC and what spot moves
   * from an account to itself added, are exactly what the module owes.
   */
  lemma BooksAlwaysBalance(authority: string, txs: seq<Tx>, x: nat)
    ensures var st := Run(Boot(authority), txs);
            x in st.assets ==>
              st.Coins(st.assets[x].denom) * st.assets[x].multiplier + Leaked(Boot(authority), txs, x) == Owed(st, x)
  {
    hide Run, Boot, Leaked, SpotTotal, TotalCollateral, TotalMargin;
    GapIsLeaked(authority, txs, x);
  }

  ghost predicate NothingLeaked(st: State, txs: seq<Tx>) {
    forall x :: Leaked(st, txs, x) == 0
  }

  /** Exactly when a reachable state is solvent: nothing leaked in any asset. */
  lemma SolventIffNothingLeaked(authority: string, txs: seq<Tx>)
    ensures Solvent(Run(Boot(authority), txs)) <==> NothingLeaked(Boot(authority), txs)
  {
    hide Run, Boot, Leaked, Gap;
    forall x: nat ensures Gap(Run(Boot(authority), txs), x) == Leaked(Boot(authority), txs, x) {
      GapIsLeaked(authority, txs, x);
    }
  }

  /** No spot move goes from an account to itself, as matching makes sure. */
  predicate NoSelfMoves(txs: seq<Tx>) {
    forall k :: 0 <= k < |txs| && txs[k].msg.MoveSpot? ==> txs[k].msg.from != txs[k].msg.to
  }

  predicate NoFills(txs: seq<Tx>) {
    forall k :: 0 <= k < |txs| ==> !Fills(txs[k].msg)
  }

  /** Without self-moves only what fills route leaks, and only in USDC. */
  lemma {:induction false} OnlyFillsLeak(st: State, txs: seq<Tx>, x: nat)
    requires NoSelfMoves(txs)
    ensures x != USDC || NoFills(txs) ==> Leaked(st, txs, x) == 0
    decreases |txs|
  {
    hide Run, Exec, TraceOf;
    if txs != [] { OnlyFillsLeak(st, txs[..|txs| - 1], x); }
  }

  /** Without perp fills and self-moves the module is solvent, always and in every asset. */
  lemma AlwaysSolvent(authority: string, txs: seq<Tx>)
    requires NoSelfMoves(txs) && NoFills(txs)
    ensures Solvent(Run(Boot(authority), txs))
  {
    hide Core, Run, Boot, Leaked;
    forall x: nat ensures Leaked(Boot(authority), txs, x) == 0 { OnlyFillsLeak(Boot(authority), txs, x); }
    SolventIffNothingLeaked(authority, txs);
  }

  /** Every other asset is solvent whatever trades. */
  lemma SpotAlwaysSolvent(authority: string, txs: seq<Tx>, x: nat)
    requires NoSelfMoves(txs) && x != USDC
    ensures Gap(Run(Boot(authority), txs), x) == 0
  {
    hide Run, Boot, Leaked, Gap;
    OnlyFillsLeak(Boot(authority), txs, x);
    GapIsLeaked(authority, txs, x);
  }

  // ---------- open positions ----------

  /** What torn fills left unpaired or did not route over a run. */
  function Strays(st: State, txs: seq<Tx>): int {
    if txs == [] then 0
    else
      var front, last := txs[..|txs| - 1], txs[|txs| - 1];
      Strays(st, front) + Stray(Run(st, front), last.msg, last.env)
  }

  /** No close-out of the run stopped between its first written position and its last credit. */
  predicate NoneTorn(st: State, txs: seq<Tx>) {
    forall k :: 0 <= k < |txs| ==> !Torn(Run(st, txs[..k]), txs[k].msg, txs[k].env)
  }

  lemma {:induction false} StraysAddUp(st: State, txs: seq<Tx>)
    requires NoSelfMoves(txs)
    ensures Strays(st, txs) == Leaked(st, txs, USDC) - Gains(st, txs) + OrphanedNotional(st, txs)
    decreases |txs|
  {
    hide Run, Exec, FillTrace, Realized, Unpaired, PriceOf;
    if txs != [] { StraysAddUp(st, txs[..|txs| - 1]); }
  }

  lemma {:induction false} OnlyTornRunsStray(st: State, txs: seq<Tx>)
    requires Core(st) && NoneTorn(st, txs)
    ensures Strays(st, txs) == 0
    decreases |txs|
  {
    hide Core, Run, Torn, Stray, Unpaired;
    if txs != [] {
      var n := |txs| - 1;
      forall k | 0 <= k < n ensures txs[..n][..k] == txs[..k] {}
      OnlyTornRunsStray(st, txs[..n]);
      RunKeeps(st, txs[..n]);
      OnlyTornFillsStray(Run(st, txs[..n]), txs[n].msg, txs[n].env);
    }
  }

  /**
   * With fills: what the module owes in USDC beyond its coins is what open
   * positions still carry in their entry quotes, with the sign reversed, plus
   * the funding paid and what torn close-outs left, up to one unit for each
   * position that shrank. Close-outs that are not torn leave nothing.
   */
  lemma GapIsInOpenPositions(authority: string, txs: seq<Tx>)
    requires NoSelfMoves(txs)
    ensures var boot := Boot(authority);
            var st := Run(boot, txs);
            Abs(Gap(st, USDC) + TotalEntry(st.positions) - Paid(boot, txs) - Strays(boot, txs)) <= Shrinkings(boot, txs)
    ensures NoneTorn(Boot(authority), txs) ==> Strays(Boot(authority), txs) == 0
  {
    hide Core, Run, Boot, Leaked, Gains, Gap, TotalEntry, Paid, Shrinkings, Strays, OrphanedNotional, NoneTorn;
    BootIsOk(authority);
    StraysAddUp(Boot(authority), txs);
    GapIsLeaked(authority, txs, USDC);
    RunIsBooked(Boot(authority), txs);
    if NoneTorn(Boot(authority), txs) { OnlyTornRunsStray(Boot(authority), txs); }
  }

  /**
   * Trading is a zero-sum game: once every position is closed, the module's
   * coins cover what it owes in USDC up to the funding paid, what torn
   * close-outs left and one unit for each position that shrank on the way.
   */
  lemma ClosedMarketsSettle(authority: string, txs: seq<Tx>)
    requires NoSelfMoves(txs)
    requires var st := Run(Boot(authority), txs); forall k :: k in st.positions ==> st.positions[k].baseSize == 0
    ensures var boot := Boot(authority);
            Abs(Gap(Run(boot, txs), USDC) - Paid(boot, txs) - Strays(boot, txs)) <= Shrinkings(boot, txs)
    ensures NoneTorn(Boot(authority), txs) ==> Strays(Boot(authority), txs) == 0
  {
    hide Core, Run, Boot, Gap, Paid, Shrinkings, Strays, NoneTorn;
    var st := Run(Boot(authority), txs);
    GapIsInOpenPositions(authority, txs);
    assert Reachable(st);
    ReachableIsOk(st);
    ClosedCarriesNothing(st);
  }

  lemma ClosedCarriesNothing(st: State)
    requires Core(st) && forall k :: k in st.positions ==> st.positions[k].baseSize == 0
    ensures TotalEntry(st.positions) == 0
  {
    hide AccountsOk, SharesAddUp, IndexOk, RowsOk, MetasOk, AssetsOk, NamesOk, CoinsOk;
    SumZero(EntryTable(st.positions));
  }

  // ---------- longs and shorts ----------

  /** A close-out whose maker was written and whose taker does not fit. */
  predicate Orphans(st: State, tx: Tx) {
    tx.msg.CloseOut? && TakerOutOfBounds(st, tx.msg.fill, tx.env) && 0 < tx.msg.fill.base
  }

  predicate NoneOrphans(st: State, txs: seq<Tx>) {
    forall k :: 0 <= k < |txs| ==> !Orphans(Run(st, txs[..k]), txs[k])
  }

  /** The signed sizes of every market cancel now and after every message. */
  ghost predicate AlwaysMatched(st: State, txs: seq<Tx>) {
    forall n, k :: 0 <= n <= |txs| ==> MarketSize(Run(st, txs[..n]).positions, k) == 0
  }

  lemma UnpairedIff(st: State, tx: Tx)
    requires Core(st)
    ensures Unpaired(st, tx.msg, tx.env) == if Orphans(st, tx) then tx.msg.fill.MakerDelta() else 0
    ensures Orphans(st, tx) ==> tx.msg.fill.MakerDelta() != 0
  {
    hide Core, ApplyMatch, TraceOf, TakerOutOfBounds, Torn;
    if tx.msg.CloseOut? { TornTrace(st, tx.msg.fill, tx.env); } else { NotTorn(st, tx); }
  }

  lemma NotTorn(st: State, tx: Tx)
    requires Core(st) && !tx.msg.CloseOut?
    ensures Unpaired(st, tx.msg, tx.env) == 0
  {
    hide Core, Unpaired;
    OnlyTornFillsStray(st, tx.msg, tx.env);
  }

  /**
   * The long and short sizes of a market differ, in any reachable state, by
   * exactly what its close-outs orphaned; and they cancel throughout a run if
   * and only if no close-out of the run met a taker that does not fit after its
   * maker was written.
   */
  lemma LongsMatchShorts(authority: string, txs: seq<Tx>)
    ensures forall k :: MarketSize(Run(Boot(authority), txs).positions, k) == Orphaned(Boot(authority), txs, k)
    ensures AlwaysMatched(Boot(authority), txs) <==> NoneOrphans(Boot(authority), txs)
  {
    hide Core, Run, Boot, MarketSize, Orphaned, Orphans, NoneOrphans, AlwaysMatched;
    BootIsOk(authority);
    SizesAreOrphaned(authority, txs);
    if NoneOrphans(Boot(authority), txs) { StaysMatched(authority, txs); }
    if AlwaysMatched(Boot(authority), txs) { NeverOrphans(Boot(authority), txs); }
  }

  lemma SizesAreOrphaned(authority: string, txs: seq<Tx>)
    ensures forall k :: MarketSize(Run(Boot(authority), txs).positions, k) == Orphaned(Boot(authority), txs, k)
  {
    hide Core, Run, Boot, MarketSize, Orphaned;
    BootIsOk(authority);
    RunIsBooked(Boot(authority), txs);
    forall k ensures MarketSize(Boot(authority).positions, k) == 0 { BootHasNoPositions(authority, k); }
  }

  lemma StaysMatched(authority: string, txs: seq<Tx>)
    requires NoneOrphans(Boot(authority), txs)
    ensures AlwaysMatched(Boot(authority), txs)
  {
    hide Core, Run, Boot, MarketSize, Orphaned, Orphans;
    BootIsOk(authority);
    forall n, k | 0 <= n <= |txs| ensures MarketSize(Run(Boot(authority), txs[..n]).positions, k) == 0 {
      forall j | 0 <= j < n ensures txs[..n][..j] == txs[..j] {}
      NothingOrphaned(Boot(authority), txs[..n], k);
      SizesAreOrphaned(authority, txs[..n]);
    }
  }

  lemma NeverOrphans(st: State, txs: seq<Tx>)
    requires Core(st) && AlwaysMatched(st, txs)
    ensures NoneOrphans(st, txs)
  {
    hide Core, Run, AlwaysMatched, Orphans;
    forall n | 0 <= n < |txs| ensures !Orphans(Run(st, txs[..n]), txs[n]) { MatchedStep(st, txs, n); }
  }

  lemma {:induction false} NothingOrphaned(st: State, txs: seq<Tx>, k: nat)
    requires Core(st) && NoneOrphans(st, txs)
    ensures Orphaned(st, txs, k) == 0
    decreases |txs|
  {
    hide Core, Run, Orphans, Unpaired, MarketOf;
    if txs != [] {
      var n := |txs| - 1;
      forall j | 0 <= j < n ensures txs[..n][..j] == txs[..j] {}
      NothingOrphaned(st, txs[..n], k);
      RunKeeps(st, txs[..n]);
      UnpairedIff(Run(st, txs[..n]), txs[n]);
    }
  }

  /** A close-out that orphans shows in the size of its market at once. */
  lemma MatchedStep(st: State, txs: seq<Tx>, n: nat)
    requires Core(st) && n < |txs| && AlwaysMatched(st, txs)
    ensures !Orphans(Run(st, txs[..n]), txs[n])
  {
    hide Core, MarketSize, Deliver, TakerOutOfBounds;
    var now := Run(st, txs[..n]);
    RunKeeps(st, txs[..n]);
    assert txs[..n + 1][..n] == txs[..n];
    assert Run(st, txs[..n + 1]) == Deliver(now, txs[n].msg, txs[n].env);
    if txs[n].msg.CloseOut? {
      CloseOutOrphansIff(now, txs[n].msg.fill, txs[n].env);
      assert MarketSize(now.positions, txs[n].msg.fill.market) == 0;
      assert MarketSize(Run(st, txs[..n + 1]).positions, txs[n].msg.fill.market) == 0;
    }
  }

  lemma BootHasNoPositions(authority: string, market: nat)
    ensures MarketSize(Boot(authority).positions, market) == 0
  {
    BootRows(authority);
    SumZero(SizeTable(Boot(authority).positions, market));
  }

  // ---------- assets and indices ----------

  /** In every reachable state no two assets share a denom or a display name, and USDC is the only margin asset. */
  lemma AssetsStayDistinct(st: State, x: nat, y: nat)
    requires Reachable(st) && x in st.assets && y in st.assets && x != y
    ensures st.assets[x].denom != st.assets[y].denom
    ensures Fold(st.assets[x].displayName) != "" ==> Fold(st.assets[x].displayName) != Fold(st.assets[y].displayName)
    ensures !(st.assets[x].margin && st.assets[y].margin)
  {
    hide Reachable, AccountsOk, SharesAddUp, IndexOk, RowsOk, PositionsOk, MetasOk, CoinsOk, Fold;
    ReachableIsOk(st);
  }

  /**
   * In every reachable state the owner index is exactly the map of owned
   * masters and the sub-account index exactly a filtered scan of the table;
   * masters and sub-accounts live in disjoint ranges; and the next index handed
   * out is unused.
   */
  lemma IndicesAlwaysAgree(st: State)
    requires Reachable(st)
    ensures forall o, i :: o in st.owners && st.owners[o] == i
              <==> i in st.accounts && st.accounts[i].kind.Master? && st.accounts[i].owner == o && o != ""
    ensures forall m, i :: (m, i) in st.subs
              <==> i in st.accounts && !st.accounts[i].kind.Master? && st.accounts[i].master == m && m != NIL_MASTER
    ensures forall i :: i in st.accounts ==>
              if st.accounts[i].kind.Master? || st.accounts[i].kind.InsuranceFund? then i <= MAX_MASTER_INDEX
              else MIN_SUB_INDEX <= i <= MAX_ACCOUNT_INDEX
    ensures forall o, now :: o !in st.owners && st.EnsureMasterAccount(o, now).Ok? ==>
              st.EnsureMasterAccount(o, now).value.1.index !in st.accounts
    ensures st.AllocateSubIndex().Ok? ==> st.AllocateSubIndex().value.1 !in st.accounts
  {
    hide Reachable, SharesAddUp, RowsOk, PositionsOk, MetasOk, AssetsOk, NamesOk, CoinsOk, RowOk, EntriesPoint;
    ReachableIsOk(st);
    NextIndexUnused(st);
  }

  // ---------- genesis and strategies ----------

  /** Exporting a reachable state and importing the document into an empty store gives the state back. */
  lemma ExportIsLossless(st: State, gs: GenesisState)
    requires Reachable(st) && Exports(st, gs)
    ensures InitGenesis(Wiped(st), gs) == st
  {
    hide Reachable, Core;
    ReachableIsOk(st);
    ExportImportRoundTrip(st, gs);
  }

  /** No reachable state accepts a transfer between insurance-fund strategies: no message ever funds one. */
  lemma StrategiesNeverMove(st: State, sender: string, pool: nat, f: nat, t: nat, d: int)
    requires Reachable(st)
    ensures ExecStrategyTransfer(st, sender, pool, f, t, d).Err?
  {
    hide Reachable, Core;
    ReachableIsOk(st);
    StrategyTransferRefused(st, sender, pool, f, t, d);
  }
}

// Guarantees of the share engine over whole runs of messages: no dilution, a
// one-way freeze, the operator floor, and what a depositor gets back.
module PoolRuns {
  import opened Types
  import opened Arith
  import opened Pools
  import opened Store
  import opened Funding
  import opened Trades
  import opened Messages
  import opened Sums
  import opened Invariants
  import opened Flows
  import opened Preservation
  import opened Delivery
  import opened Frames

  /** The message addresses pool `p`. */
  predicate Targets(msg: Msg, p: nat) {
    match msg
    case UpdatePublicPool(_, q, _, _, _) => p == q
    case MintShares(_, q, _) => p == q
    case BurnShares(_, q, _) => p == q
    case ForceBurnShares(_, q, _, _) => p == q
    case StrategyTransfer(_, q, _, _, _) => p == q
    case _ => false
  }

  function InfoOf(st: State, p: nat): PoolInfo
    requires IsPool(st.accounts, p)
  {
    st.accounts[p].info.value
  }

  /** The pool's total account value at unrealised PnL `pnl`. */
  function Tav(st: State, p: nat, pnl: int): int
    requires IsPool(st.accounts, p)
  {
    st.accounts[p].collateral + pnl
  }

  /** The message trades on the pool's own positions. */
  predicate TradesFor(msg: Msg, p: nat) {
    Fills(msg) && (msg.fill.maker == p || msg.fill.taker == p)
  }

  // ---------- one message, seen from one pool ----------

  /** What no message undoes: the pool is there, a freeze is final and the operator fee never rises. */
  ghost predicate Persists(st: State, st': State, p: nat) {
    && IsPool(st.accounts, p) && IsPool(st'.accounts, p)
    && (InfoOf(st, p).status == FROZEN ==> InfoOf(st', p).status == FROZEN)
    && InfoOf(st', p).operatorFee <= InfoOf(st, p).operatorFee
  }

  /** A share is worth no less and a solvent pool is solvent still, with PnL `pnl` before and `pnl'` after. */
  ghost predicate Undiluted(st: State, pnl: int, st': State, pnl': int, p: nat)
    requires IsPool(st.accounts, p) && IsPool(st'.accounts, p)
  {
    && (0 < InfoOf(st, p).totalShares ==>
          NoDilution(InfoOf(st, p).totalShares, Tav(st, p, pnl), InfoOf(st', p).totalShares, Tav(st', p, pnl')))
    && (0 <= Tav(st, p, pnl) ==> 0 <= Tav(st', p, pnl'))
  }

  /** How one message may move a pool, at unchanged PnL. */
  ghost predicate Evolves(st: State, st': State, p: nat, pnl: int) {
    Persists(st, st', p) && Undiluted(st, pnl, st', pnl, p)
  }

  /** The pool's record is as it was, and its account value no lower. */
  lemma SameRecordEvolves(st: State, pnl: int, st': State, pnl': int, p: nat)
    requires IsPool(st.accounts, p) && p in st'.accounts && st'.accounts[p].info == st.accounts[p].info
    ensures Persists(st, st', p)
    ensures InfoOf(st, p).totalShares >= 0 && Tav(st, p, pnl) <= Tav(st', p, pnl') ==> Undiluted(st, pnl, st', pnl', p)
  {
    var t, v, v' := InfoOf(st, p).totalShares, Tav(st, p, pnl), Tav(st', p, pnl');
    if 0 <= t && v <= v' { Scale(v, v', t); }
  }

  lemma UpdateEvolves(st: State, sender: string, p: nat, status: nat, fee: nat, rate: nat, env: Env, pnl: int)
    requires Core(st) && IsPool(st.accounts, p) && ExecUpdatePublicPool(st, sender, p, status, fee, rate, env).Ok?
    ensures var st' := ExecUpdatePublicPool(st, sender, p, status, fee, rate, env).value.state;
            Evolves(st, st', p, pnl)
  {
    hide Core, PoolEmpty, CheckMinOperatorShareRate, NoDilution;
    KeyFacts(st, p);
    NoDilutionStays(InfoOf(st, p).totalShares, Tav(st, p, pnl));
  }

  lemma NoDilutionStays(total: int, tav: int)
    ensures NoDilution(total, tav, total, tav)
  {
  }

  lemma MintEvolves(st: State, sender: string, p: nat, u: nat, env: Env)
    requires Core(st) && ExecMintShares(st, sender, p, u, env).Ok?
    ensures var st' := ExecMintShares(st, sender, p, u, env).value.state;
            Evolves(st, st', p, env.pnl)
  {
    hide Core, ExecMintShares, CheckMinOperatorShareRate, UpsertEntry, Quo, InfoOk, NoDilution;
    var m, a, b, operator, sh := MintWrites(st, sender, p, u, env);
    RowFacts(st, p);
    if 0 < InfoOf(st, p).totalShares { MintNeverDilutes(InfoOf(st, p), Tav(st, p, env.pnl), u); }
  }

  lemma BurnEvolves(st: State, p: nat, m: Account, operator: bool, s: int, skip: bool, env: Env)
    requires Core(st) && p in st.accounts && m.index in st.accounts && st.accounts[m.index] == m
    requires (m.kind.Master? || !operator) && 0 < s
    requires ExecBurn(st, st.accounts[p], m, operator, s, skip, env).Ok?
    ensures var st' := ExecBurn(st, st.accounts[p], m, operator, s, skip, env).value.state;
            Evolves(st, st', p, env.pnl)
  {
    hide Core, ExecBurn, CheckMinOperatorShareRate, TermsOfBurn, ReduceEntry, Burnable, NoDilution,
         AvailableSharesToBurn;
    var entry, t, a, b := BurnWrites(st, p, m, operator, s, skip, env);
    BurnNeverDilutes(InfoOf(st, p), Tav(st, p, env.pnl), entry, s);
  }

  lemma TargetEvolves(st: State, msg: Msg, env: Env, p: nat)
    requires Core(st) && IsPool(st.accounts, p) && Targets(msg, p) && Exec(st, msg, env).Ok?
    ensures var st' := Exec(st, msg, env).value.state;
            Evolves(st, st', p, env.pnl)
  {
    hide Core, ExecBurn, ExecBurnShares, ExecForceBurnShares, ExecMintShares, ExecUpdatePublicPool,
         ExecStrategyTransfer, Evolves;
    match msg {
      case UpdatePublicPool(s, q, c, f, r) => UpdateEvolves(st, s, q, c, f, r, env, env.pnl);
      case MintShares(s, q, u) => MintEvolves(st, s, q, u, env);
      case BurnShares(s, q, n) =>
        var m, operator := BurnSharesIsBurn(st, s, q, n, env);
        BurnEvolves(st, q, m, operator, n, false, env);
      case ForceBurnShares(s, q, d, n) =>
        ForceBurnIsBurn(st, s, q, d, n, env);
        BurnEvolves(st, q, st.accounts[d], false, n, true, env);
      case StrategyTransfer(s, q, f, t, d) => StrategyTransferRefused(st, s, q, f, t, d);
    }
  }

  // ---------- messages that address another pool, or none ----------

  /** An accepted message that does not address the pool, nor settles anything, does not touch it. */
  lemma PoolIsUntouched(st: State, msg: Msg, env: Env, p: nat)
    requires Core(st) && IsPool(st.accounts, p) && Exec(st, msg, env).Ok? && !Settlement(msg) && !Targets(msg, p)
    ensures p !in Touched(st, msg)
  {
    hide Core, ExecDeposit, ExecMintShares, ExecBurnShares, ExecForceBurnShares, ExecUpdatePublicPool,
         ExecStrategyTransfer, ExecRegisterAsset, ExecUpdateAsset, SettleAll, SettlePosition, Max, State.AddCollateral,
         State.AddAccountAssetBalance, State.GetAsset;
    PoolIsNoMaster(st, p);
    match msg {
      case Deposit(s, b, _, _, _) => MasterIsNoPool(st, if b == "" then s else b, p);
      case MintShares(s, _, _) => MasterIsNoPool(st, s, p);
      case BurnShares(s, _, _) => MasterIsNoPool(st, s, p);
      case ForceBurnShares(s, q, d, n) =>
        ForceBurnIsBurn(st, s, q, d, n, env);
        BurnedIsMaster(st, q, d, n, env);
      case _ =>
    }
  }

  lemma BurnedIsMaster(st: State, q: nat, d: nat, n: int, env: Env)
    requires Core(st) && q in st.accounts && d in st.accounts && 0 < n
    requires ExecBurn(st, st.accounts[q], st.accounts[d], false, n, true, env).Ok?
    ensures st.accounts[d].kind.Master?
  {
    hide Core, ExecBurn, TermsOfBurn, PayOut, Burned, CheckMinOperatorShareRate, AvailableSharesToBurn,
         SharesToUsdcValue;
    BurnGuards(st, st.accounts[q], st.accounts[d], false, n, true, env);
    RowFacts(st, d);
  }

  lemma PoolIsNoMaster(st: State, p: nat)
    requires Core(st) && IsPool(st.accounts, p)
    ensures st.accounts[p].IsPoolType() && !st.accounts[p].kind.Master?
  {
    RowFacts(st, p);
  }

  lemma MasterIsNoPool(st: State, owner: string, p: nat)
    requires Core(st) && IsPool(st.accounts, p)
    ensures p !in MasterOf(st, owner)
  {
    RowFacts(st, p);
    CoreAccounts(st);
  }

  /** Locks, spot moves and funding never reach account rows. */
  lemma SettlementKeepsRows(st: State, msg: Msg, env: Env)
    requires Settlement(msg) && !Fills(msg) && Exec(st, msg, env).Ok?
    ensures Exec(st, msg, env).value.state.accounts == st.accounts
  {
    hide SettlePosition, State.IncreaseLockedBalance, State.DecreaseLockedBalance, State.TransferAccountAssetBalance;
    match msg {
      case LockSpot(i, x, d) => LocksKeepRows(st, i, x, d);
      case UnlockSpot(i, x, d) => LocksKeepRows(st, i, x, d);
      case MoveSpot(f, t, x, d, drain) => MovesKeepRows(st, f, t, x, d, drain);
      case SettleFunding(i, k) => FundingKeepsRows(st, i, k, env.prefixes);
    }
  }

  lemma LocksKeepRows(st: State, i: nat, x: nat, d: int)
    ensures var r := st.IncreaseLockedBalance(i, x, d); r.Ok? ==> r.value.accounts == st.accounts
    ensures var r := st.DecreaseLockedBalance(i, x, d); r.Ok? ==> r.value.accounts == st.accounts
  {
  }

  lemma MovesKeepRows(st: State, f: nat, t: nat, x: nat, d: int, drain: bool)
    ensures var r := st.TransferAccountAssetBalance(f, t, x, d, drain); r.Ok? ==> r.value.accounts == st.accounts
  {
  }

  lemma FundingKeepsRows(st: State, i: nat, k: nat, prefixes: map<nat, int>)
    ensures var r := SettlePosition(st, i, k, prefixes); r.Ok? ==> r.value.accounts == st.accounts
  {
    hide Settled;
  }

  /** Whatever the message, a pool persists; unless its own positions trade, it evolves at the PnL it was priced with. */
  lemma DeliverEvolves(st: State, msg: Msg, env: Env, p: nat, pnl: int)
    requires Core(st) && IsPool(st.accounts, p) && (Targets(msg, p) ==> env.pnl == pnl)
    ensures var st' := Deliver(st, msg, env);
            Persists(st, st', p) && (!TradesFor(msg, p) ==> Undiluted(st, pnl, st', pnl, p))
  {
    hide Core, Exec, Undiluted, InfoOk;
    var st' := Deliver(st, msg, env);
    RowFacts(st, p);
    TotalNonNegative(st, p);
    if Exec(st, msg, env).Err? {
      SameRecordEvolves(st, pnl, st', pnl, p);
    } else if Targets(msg, p) {
      TargetEvolves(st, msg, env, p);
    } else if Fills(msg) {
      FillEvolves(st, msg, env, p, pnl);
    } else if Settlement(msg) {
      SettlementKeepsRows(st, msg, env);
      SameRecordEvolves(st, pnl, st', pnl, p);
    } else {
      PoolIsUntouched(st, msg, env, p);
      UntouchedIsFramed(st, msg, env, p);
      SameRecordEvolves(st, pnl, st', pnl, p);
    }
  }

  /** A fill never touches a pool's record; one between others can only credit the pool with a fee. */
  lemma FillEvolves(st: State, msg: Msg, env: Env, p: nat, pnl: int)
    requires Core(st) && IsPool(st.accounts, p) && Fills(msg) && Exec(st, msg, env).Ok?
    ensures var st' := Deliver(st, msg, env);
            Persists(st, st', p) && (!TradesFor(msg, p) ==> Undiluted(st, pnl, st', pnl, p))
  {
    hide Core, Exec, Undiluted, ApplyMatch, InfoOk;
    var st' := Deliver(st, msg, env);
    FillState(st, msg, env);
    RecordsAreKept(st, msg, env, p);
    TotalNonNegative(st, p);
    if !TradesFor(msg, p) { FillEnriches(st, msg.fill, env, p); }
    SameRecordEvolves(st, pnl, st', pnl, p);
  }

  // ---------- whole runs ----------

  /** A frozen pool stays frozen, its operator fee never rises, and the pool never disappears. */
  lemma {:induction false} FreezeIsForever(st: State, txs: seq<Tx>, p: nat)
    requires Core(st) && IsPool(st.accounts, p)
    ensures Persists(st, Run(st, txs), p)
    decreases |txs|
  {
    hide Core, Deliver;
    if txs != [] {
      var front, last := txs[..|txs| - 1], txs[|txs| - 1];
      FreezeIsForever(st, front, p);
      RunKeeps(st, front);
      DeliverEvolves(Run(st, front), last.msg, last.env, p, last.env.pnl);
    }
  }

  /**
   * One step at which the pool's trading does not lose: a fill of its own
   * leaves its account value no lower, and at any other message its PnL does
   * not fall.  A message that prices the pool reads the PnL in force.
   */
  ghost predicate NoTradingLoss(st: State, pnl: int, tx: Tx, pnl': int, p: nat) {
    var st' := Deliver(st, tx.msg, tx.env);
    && IsPool(st.accounts, p) && IsPool(st'.accounts, p)
    && (if TradesFor(tx.msg, p) then Tav(st, p, pnl) <= Tav(st', p, pnl') else pnl <= pnl')
    && (Targets(tx.msg, p) ==> tx.env.pnl == pnl)
  }

  /** The pool's PnL before every message and at the end, along a run without trading losses. */
  ghost predicate PnlPath(st: State, txs: seq<Tx>, pnls: seq<int>, p: nat) {
    && |pnls| == |txs| + 1
    && forall k :: 0 <= k < |txs| ==> NoTradingLoss(Run(st, txs[..k]), pnls[k], txs[k], pnls[k + 1], p)
  }

  /** The pool has shares in every state of the run before its last. */
  ghost predicate Inhabited(st: State, txs: seq<Tx>, p: nat) {
    forall k :: 0 <= k < |txs| ==> IsPool(Run(st, txs[..k]).accounts, p) && 0 < InfoOf(Run(st, txs[..k]), p).totalShares
  }

  /** The run without its last message. */
  lemma PathFront(st: State, txs: seq<Tx>, pnls: seq<int>, p: nat)
    requires txs != [] && PnlPath(st, txs, pnls, p) && Inhabited(st, txs, p)
    ensures var n := |txs| - 1;
            && PnlPath(st, txs[..n], pnls[..n + 1], p) && Inhabited(st, txs[..n], p)
            && NoTradingLoss(Run(st, txs[..n]), pnls[n], txs[n], pnls[n + 1], p)
            && IsPool(Run(st, txs[..n]).accounts, p) && 0 < InfoOf(Run(st, txs[..n]), p).totalShares
  {
    hide NoTradingLoss, Run;
    var n := |txs| - 1;
    forall k | 0 <= k < n
      ensures NoTradingLoss(Run(st, txs[..n][..k]), pnls[..n + 1][k], txs[..n][k], pnls[..n + 1][k + 1], p)
      ensures IsPool(Run(st, txs[..n][..k]).accounts, p) && 0 < InfoOf(Run(st, txs[..n][..k]), p).totalShares
    {
      assert txs[..n][..k] == txs[..k];
    }
  }

  lemma {:induction false} RunEvolves(st: State, txs: seq<Tx>, pnls: seq<int>, p: nat)
    requires Core(st) && IsPool(st.accounts, p) && 0 < InfoOf(st, p).totalShares
    requires PnlPath(st, txs, pnls, p) && Inhabited(st, txs, p)
    ensures var st' := Run(st, txs);
            IsPool(st'.accounts, p) && Undiluted(st, pnls[0], st', pnls[|txs|], p)
    decreases |txs|
  {
    hide Core, Deliver, Undiluted, NoTradingLoss;
    if txs == [] {
      SameRecordEvolves(st, pnls[0], st, pnls[0], p);
    } else {
      var n := |txs| - 1;
      PathFront(st, txs, pnls, p);
      RunEvolves(st, txs[..n], pnls[..n + 1], p);
      RunKeeps(st, txs[..n]);
      StepEvolves(st, pnls[0], Run(st, txs[..n]), pnls[n], txs[n], pnls[n + 1], p);
    }
  }

  lemma StepEvolves(st: State, v: int, mid: State, pnl: int, tx: Tx, pnl': int, p: nat)
    requires Core(mid) && IsPool(st.accounts, p) && IsPool(mid.accounts, p)
    requires 0 < InfoOf(st, p).totalShares && 0 < InfoOf(mid, p).totalShares
    requires NoTradingLoss(mid, pnl, tx, pnl', p) && Undiluted(st, v, mid, pnl, p)
    ensures var st' := Deliver(mid, tx.msg, tx.env);
            IsPool(st'.accounts, p) && Undiluted(st, v, st', pnl', p)
  {
    hide Core, Deliver, NoDilution;
    var st' := Deliver(mid, tx.msg, tx.env);
    StepUndiluted(mid, pnl, tx, pnl', p);
    DeliverKeeps(mid, tx.msg, tx.env);
    TotalNonNegative(st', p);
    NoDilutionComposes(InfoOf(st, p).totalShares, Tav(st, p, v), InfoOf(mid, p).totalShares, Tav(mid, p, pnl),
                       InfoOf(st', p).totalShares, Tav(st', p, pnl'));
  }

  lemma StepUndiluted(mid: State, pnl: int, tx: Tx, pnl': int, p: nat)
    requires Core(mid) && IsPool(mid.accounts, p) && 0 < InfoOf(mid, p).totalShares
    requires NoTradingLoss(mid, pnl, tx, pnl', p)
    ensures Undiluted(mid, pnl, Deliver(mid, tx.msg, tx.env), pnl', p)
  {
    hide Core, Deliver;
    var st' := Deliver(mid, tx.msg, tx.env);
    DeliverEvolves(mid, tx.msg, tx.env, p, pnl);
    if TradesFor(tx.msg, p) {
      RecordsAreKept(mid, tx.msg, tx.env, p);
      SameRecordEvolves(mid, pnl, st', pnl', p);
    } else {
      DeliverKeeps(mid, tx.msg, tx.env);
      TotalNonNegative(st', p);
      Scale(Tav(st', p, pnl), Tav(st', p, pnl'), InfoOf(mid, p).totalShares);
    }
  }

  lemma TotalNonNegative(st: State, p: nat)
    requires Core(st) && IsPool(st.accounts, p)
    ensures 0 <= InfoOf(st, p).operatorShares <= InfoOf(st, p).totalShares && InfoOk(InfoOf(st, p))
  {
    hide Core;
    RowFacts(st, p);
  }

  /**
   * No dilution over whole runs: while the pool has shares and its own trading
   * does not lose, whatever messages and fills run and whoever mints or burns,
   * the value of a share never falls, so a holder who waits is quoted at least
   * as much for any number of shares, and a solvent pool stays solvent.
   */
  lemma WaitingNeverCosts(st: State, txs: seq<Tx>, pnls: seq<int>, p: nat, s: int)
    requires Core(st) && IsPool(st.accounts, p) && 0 < InfoOf(st, p).totalShares
    requires PnlPath(st, txs, pnls, p) && Inhabited(st, txs, p) && 0 < Tav(st, p, pnls[0])
    ensures var st', pnl, pnl' := Run(st, txs), pnls[0], pnls[|txs|];
            && IsPool(st'.accounts, p)
            && 0 <= Tav(st', p, pnl')
            && NoDilution(InfoOf(st, p).totalShares, Tav(st, p, pnl), InfoOf(st', p).totalShares, Tav(st', p, pnl'))
            && (0 < InfoOf(st', p).totalShares ==>
                  SharesToUsdcValue(InfoOf(st, p), Tav(st, p, pnl), s)
                  <= SharesToUsdcValue(InfoOf(st', p), Tav(st', p, pnl'), s))
  {
    hide Core, Run, NoDilution, SharesToUsdcValue, NoTradingLoss;
    RunEvolves(st, txs, pnls, p);
    TotalNonNegative(st, p);
    var st', pnl, pnl' := Run(st, txs), pnls[0], pnls[|txs|];
    if 0 < InfoOf(st', p).totalShares {
      QuotesNeverFall(InfoOf(st, p), Tav(st, p, pnl), InfoOf(st', p), Tav(st', p, pnl'), s);
    }
  }

  // ---------- single burns ----------

  /** The defensive floor re-check never rejects an LP burn. */
  lemma LpBurnNeverBreaksFloor(st: State, p: nat, m: Account, s: int, skip: bool, env: Env)
    requires Core(st) && p in st.accounts && m.index in st.accounts && st.accounts[m.index] == m && 0 < s
    ensures ExecBurn(st, st.accounts[p], m, false, s, skip, env) != Err(OperatorRateViolation)
  {
    hide Core, TermsOfBurn, SharesToUsdcValue, CoolingDown, ReduceEntry, AvailableSharesToBurn,
         CheckMinOperatorShareRate, BurnAllowed, InfoOk, Burnable, PayOut;
    var pool := st.accounts[p];
    var entry := EntryUsed(pool, m, false);
    KeyFacts(st, p);
    if pool.IsPoolAccount() && entry.Some? && s <= entry.value.amount
       && s <= AvailableSharesToBurn(pool.info.value, pool.collateral + env.pnl, env.avail)
    {
      BurnAccepted(st, pool, m, false, s, env);
      if pool.info.value.status != FROZEN { LpFloorKept(pool.info.value, pool.collateral + env.pnl, entry, s); }
      var t := TermsOfBurn(pool.info.value, pool.collateral + env.pnl, entry, s);
      PayOutErrors(st, p, m.index, s, Burned(pool.info.value, false, s, t), t.delivered * USDC_TO_COLLATERAL);
    }
  }

  lemma PayOutErrors(st: State, pool: nat, m: nat, s: int, info: PoolInfo, paid: int)
    requires 0 < s
    ensures PayOut(st, pool, m, false, s, info, paid) != Err(OperatorRateViolation)
  {
    hide PrincipalOf;
  }

  lemma LpFloorKept(info: PoolInfo, tav: int, entry: Option<Share>, s: int)
    requires Burnable(info, tav, entry, s) && entry.Some? && info.status != FROZEN
    ensures CheckMinOperatorShareRate(Burned(info, false, s, TermsOfBurn(info, tav, entry, s)))
  {
    hide TermsOfBurn;
    var t := TermsBounds(info, tav, entry, s);
    LpBurnKeepsFloor(info, t.burned, t.feeShares);
  }

  /** The fair terms of a burn of `s` shares that delivered `v`. */
  ghost predicate FairBurn(info: PoolInfo, tav: int, avail: int, entry: Option<Share>, s: int, v: int)
    requires s > 0 && (entry.Some? ==> entry.value.amount != 0)
  {
    var t := TermsOfBurn(info, tav, entry, s);
    && v == t.delivered
    && v * USDC_TO_COLLATERAL <= avail
    && SharesToUsdcValue(info, tav, t.burned) - 1 <= v <= SharesToUsdcValue(info, tav, t.burned)
    && (entry.None? ==> v == SharesToUsdcValue(info, tav, s))
    && (entry.Some? ==>
          var paid := PrincipalOf(entry.value, s);
          && t.feeShares < s
          && (if t.usdcValue <= paid then v == t.usdcValue && t.feeShares == 0 else paid <= v))
  }

  /**
   * Every accepted burn, forced or not, pays within the pool's available
   * collateral and within a unit of a fresh quote; an LP in profit gets at
   * least the cost basis back, an LP at a loss and the operator the full quote.
   */
  lemma AcceptedBurnIsFair(st: State, p: nat, m: Account, operator: bool, s: int, skip: bool, env: Env)
    requires Core(st) && p in st.accounts && m.index in st.accounts && st.accounts[m.index] == m
    requires (m.kind.Master? || !operator) && 0 < s
    requires ExecBurn(st, st.accounts[p], m, operator, s, skip, env).Ok?
    ensures var entry := EntryUsed(st.accounts[p], m, operator);
            && IsPool(st.accounts, p) && (entry.Some? ==> entry.value.amount != 0)
            && FairBurn(InfoOf(st, p), Tav(st, p, env.pnl), env.avail, entry, s,
                        ExecBurn(st, st.accounts[p], m, operator, s, skip, env).value.value)
  {
    hide Core, ExecBurn, CheckMinOperatorShareRate, ReduceEntry, InfoOk, TermsOfBurn,
         AvailableSharesToBurn, SharesToUsdcValue;
    KeyFacts(st, p);
    var entry, t, a, b := BurnWrites(st, p, m, operator, s, skip, env);
    var info, tav := InfoOf(st, p), Tav(st, p, env.pnl);
    BurnCapSuffices(info, tav, env.avail, entry, s);
    OneShotPayoutRefinesRequote(info, tav, entry, s);
    if entry.Some? { FeeNeverTakesPrincipal(info, tav, entry.value, s); } else { OperatorGetsQuote(info, tav, s); }
  }

  lemma OperatorGetsQuote(info: PoolInfo, tav: int, s: int)
    requires s > 0
    ensures TermsOfBurn(info, tav, None, s).delivered == SharesToUsdcValue(info, tav, s)
  {
    hide SharesToUsdcValue, Quo;
    QuoExact(SharesToUsdcValue(info, tav, s), s);
  }

  /** What each account would be quoted for all its shares of the pool. */
  function RedemptionTable(st: State, p: nat, pnl: int): map<nat, int>
    requires IsPool(st.accounts, p)
  {
    map i | i in st.accounts :: SharesToUsdcValue(InfoOf(st, p), Tav(st, p, pnl), SharesIn(st.accounts[i].shares, p))
  }

  /** Every LP's quoted redemption together with the operator's is covered by the pool's account value. */
  lemma AllRedemptionsCovered(st: State, p: nat, pnl: int)
    requires Core(st) && IsPool(st.accounts, p) && 0 < InfoOf(st, p).totalShares && 0 < Tav(st, p, pnl)
    ensures var operator := SharesToUsdcValue(InfoOf(st, p), Tav(st, p, pnl), InfoOf(st, p).operatorShares);
            (Sum(RedemptionTable(st, p, pnl)) + operator) * USDC_TO_COLLATERAL <= Tav(st, p, pnl)
  {
    hide Core, Sum, SharesIn, SharesToUsdcValue, RedemptionTable, HoldingTable, InfoOk;
    TotalNonNegative(st, p);
    var info, tav := InfoOf(st, p), Tav(st, p, pnl);
    var f, g := RedemptionTable(st, p, pnl), HoldingTable(st.accounts, p);
    RedemptionRows(st, p, pnl);
    SumScaled(f, g, info.totalShares * USDC_TO_COLLATERAL, tav);
    QuoteWithin(info, tav, info.operatorShares);
    SharesOutstanding(st, p);
    CoveredCore(Sum(f), SharesToUsdcValue(info, tav, info.operatorShares), Sum(g), info.operatorShares,
                info.totalShares, tav);
  }

  lemma RedemptionRows(st: State, p: nat, pnl: int)
    requires Core(st) && IsPool(st.accounts, p) && Priced(InfoOf(st, p), Tav(st, p, pnl))
    ensures var f, g := RedemptionTable(st, p, pnl), HoldingTable(st.accounts, p);
            && f.Keys == g.Keys
            && forall i :: i in f ==> f[i] * (InfoOf(st, p).totalShares * USDC_TO_COLLATERAL) <= g[i] * Tav(st, p, pnl)
  {
    hide Core, SharesIn, SharesToUsdcValue, InfoOk;
    forall i | i in st.accounts
      ensures SharesToUsdcValue(InfoOf(st, p), Tav(st, p, pnl), SharesIn(st.accounts[i].shares, p))
              * (InfoOf(st, p).totalShares * USDC_TO_COLLATERAL) <= SharesIn(st.accounts[i].shares, p) * Tav(st, p, pnl)
    {
      RowFacts(st, i);
      HoldingIsEntry(st.accounts[i].shares, p);
      QuoteWithin(InfoOf(st, p), Tav(st, p, pnl), SharesIn(st.accounts[i].shares, p));
    }
  }

  lemma SharesOutstanding(st: State, p: nat)
    requires Core(st) && IsPool(st.accounts, p)
    ensures InfoOf(st, p).totalShares == InfoOf(st, p).operatorShares + Sum(HoldingTable(st.accounts, p))
  {
    hide AccountsOk, IndexOk, RowsOk, PositionsOk, MetasOk, AssetsOk, NamesOk, CoinsOk;
  }

  lemma QuoteWithin(info: PoolInfo, tav: int, s: int)
    requires Priced(info, tav)
    ensures 0 <= s ==> SharesToUsdcValue(info, tav, s) * (info.totalShares * USDC_TO_COLLATERAL) <= s * tav
  {
    if 0 < s { var _ := QuoteBounds(info, tav, s); }
  }

  lemma CoveredCore(f: int, o: int, g: int, op: int, total: int, tav: int)
    requires 0 < total && total == op + g && f * (total * USDC_TO_COLLATERAL) <= g * tav
    requires o * (total * USDC_TO_COLLATERAL) <= op * tav
    ensures (f + o) * USDC_TO_COLLATERAL <= tav
  {
    assert (f + o) * (total * USDC_TO_COLLATERAL) == f * (total * USDC_TO_COLLATERAL) + o * (total * USDC_TO_COLLATERAL);
    assert (g + op) * tav == g * tav + op * tav;
    assert (f + o) * (total * USDC_TO_COLLATERAL) == (f + o) * USDC_TO_COLLATERAL * total;
    CancelLe((f + o) * USDC_TO_COLLATERAL, tav, total);
  }

  // ---------- mint and redeem ----------

  /** Appending an entry and then emptying it gives the list back. */
  lemma AppendThenEmpty(shares: seq<Share>, pool: nat, sh: int, u: int, time: int)
    requires FindShareEntry(shares, pool) == |shares| < SHARES_LIST_SIZE && 0 < sh
    ensures var s' := shares + [Share(pool, sh, u, time)];
            && FindShareEntry(s', pool) == |shares|
            && ReduceEntry(s', pool, sh) == Ok(shares)
  {
    var s' := shares + [Share(pool, sh, u, time)];
    var i := FindShareEntry(s', pool);
    assert i == |shares| by {
      assert s'[|shares|].pool == pool;
      assert forall j :: 0 <= j < |shares| ==> s'[j] == shares[j];
    }
    assert s'[..i] + s'[i + 1..] == shares;
  }

  /** The pool side of minting `sh` shares and burning them again at the same PnL. */
  lemma RoundTripTerms(info: PoolInfo, tav: int, u: nat, sh: int, time: int, p: nat)
    requires Priced(info, tav) && 0 < u && UsdcValueToShares(info, tav, u) == Ok(sh) && 0 < sh
    requires InfoOk(Minted(info, false, sh))
    ensures var info' := Minted(info, false, sh);
            var t := TermsOfBurn(info', tav + u * USDC_TO_COLLATERAL, Some(Share(p, sh, u, time)), sh);
            && t.delivered <= u
            && (u - t.delivered - 1) * info'.totalShares * USDC_TO_COLLATERAL < tav
            && Burned(info', false, sh, t) == info
  {
    MintThenRedeem(info, tav, u, Minted(info, false, sh), sh, time);
    hide InfoOk, UsdcValueToShares;
  }

  /** The two messages of a round trip: `sender` mints `u` and burns everything it got, at unchanged PnL. */
  ghost predicate RoundTrip(st: State, sender: string, p: nat, u: nat, env: Env, env': Env, minted: Reply,
        burned: Reply) {
    && env'.pnl == env.pnl
    && ExecMintShares(st, sender, p, u, env) == Ok(minted)
    && ExecBurnShares(minted.state, sender, p, minted.value, env') == Ok(burned)
  }

  /** The sender is an LP with a master account and no entry in the pool yet. */
  ghost predicate NewLp(st: State, sender: string, p: nat, m: Account) {
    && IsPool(st.accounts, p) && 0 < InfoOf(st, p).totalShares
    && st.IsPoolOperator(st.accounts[p], sender) == Ok(false)
    && st.MasterByOwner(sender) == Ok(m)
    && FindShareEntry(m.shares, p) == |m.shares|
  }

  /** The mint half: the LP's one new entry holds all the fresh shares at their cost. */
  ghost predicate MintedForLp(st: State, p: nat, u: nat, env: Env, m: Account, minted: Reply, a: Account, b: Account) {
    && m.index in st.accounts && m == st.accounts[m.index] && m.index != p && m.kind.Master? && IsPool(st.accounts, p)
    && SettleAll(st, m.index, env.prefixes).Ok?
    && minted.state == SettleAll(st, m.index, env.prefixes).value.(accounts := st.accounts[m.index := a][p := b])
    && a == m.(collateral := m.collateral - u * USDC_TO_COLLATERAL,
               shares := m.shares + [Share(p, minted.value, u, env.now)])
    && b == st.accounts[p].(collateral := st.accounts[p].collateral + u * USDC_TO_COLLATERAL,
                            info := Some(Minted(InfoOf(st, p), false, minted.value)))
    && 0 < u && 0 < minted.value && UsdcValueToShares(InfoOf(st, p), Tav(st, p, env.pnl), u) == Ok(minted.value)
    && Priced(InfoOf(st, p), Tav(st, p, env.pnl)) && |m.shares| < SHARES_LIST_SIZE
  }

  lemma MintForNewLp(st: State, sender: string, p: nat, u: nat, env: Env, m: Account, minted: Reply)
      returns (a: Account, b: Account)
    requires Core(st) && NewLp(st, sender, p, m) && ExecMintShares(st, sender, p, u, env) == Ok(minted)
    ensures Core(minted.state) && MintedForLp(st, p, u, env, m, minted, a, b)
    ensures minted.state.MasterByOwner(sender) == Ok(a) && minted.state.IsPoolOperator(b, sender) == Ok(false)
  {
    hide Core, Moves, ExecMintShares, CheckMinOperatorShareRate, InfoOk, Idle, RowOk, EntriesOk, EntriesPoint,
         UsdcValueToShares, SettleAll, SweepPaid;
    var m0, a0, b0, operator, sh := MintWrites(st, sender, p, u, env);
    MintKeeps(st, sender, p, u, env);
    var st1 := SettleAllStep(st, m.index, env.prefixes);
    a, b := a0, b0;
    KeyFacts(st, st.owners[sender]);
    RowFacts(st, p);
    PricedByMint(InfoOf(st, p), Tav(st, p, env.pnl), u);
    SameParties(st, minted.state, sender, p, m.index);
  }

  /** The burn half: all of the new entry, under terms that charge no fee and restore the record. */
  ghost predicate BurnedForLp(st: State, p: nat, u: nat, env: Env, m: Account, minted: Reply, burned: Reply,
        a: Account, b: Account) {
    && m.index in st.accounts && m.index != p && IsPool(st.accounts, p) && burned.value <= u
    && (u - burned.value - 1) * (InfoOf(st, p).totalShares + minted.value) * USDC_TO_COLLATERAL < Tav(st, p, env.pnl)
    && burned.state == minted.state.(accounts := minted.state.accounts[m.index := a][p := b])
    && a == m.(collateral := m.collateral - (u - burned.value) * USDC_TO_COLLATERAL)
    && b == st.accounts[p].(collateral := st.accounts[p].collateral + (u - burned.value) * USDC_TO_COLLATERAL)
  }

  lemma BurnForNewLp(st: State, sender: string, p: nat, u: nat, env: Env, env': Env, m: Account, minted: Reply,
        burned: Reply, a: Account, b: Account)
    returns (a': Account, b': Account)
    requires Core(minted.state) && RoundTrip(st, sender, p, u, env, env', minted, burned)
    requires MintedForLp(st, p, u, env, m, minted, a, b) && FindShareEntry(m.shares, p) == |m.shares|
    requires minted.state.MasterByOwner(sender) == Ok(a) && minted.state.IsPoolOperator(b, sender) == Ok(false)
    ensures BurnedForLp(st, p, u, env, m, minted, burned, a', b')
  {
    hide Core, ExecMintShares, ExecBurn, CheckMinOperatorShareRate, InfoOk, Idle, RowOk, EntriesOk,
         EntriesPoint, TermsOfBurn, Burnable, AvailableSharesToBurn, ReduceEntry, UsdcValueToShares, SettleAll,
         State.MasterByOwner, State.IsPoolOperator;
    var st1, sh := minted.state, minted.value;
    RowFacts(st1, p);
    AppendThenEmpty(m.shares, p, sh, u, env.now);
    var entry, t, a1, b1 := BurnWrites(st1, p, a, false, sh, false, env');
    RoundTripTerms(InfoOf(st, p), Tav(st, p, env.pnl), u, sh, env.now, p);
    a', b' := a1, b1;
  }

  /**
   * The stores after the round trip: the LP's funding is settled, the pool keeps
   * `kept` of the LP's collateral, and nothing else changed.
   */
  ghost predicate OnlyKept(st: State, st': State, p: nat, m: Account, prefixes: map<nat, int>, kept: int) {
    && p in st.accounts && SettleAll(st, m.index, prefixes).Ok?
    && st' == SettleAll(st, m.index, prefixes).value.(accounts := st.accounts
         [m.index := m.(collateral := m.collateral - kept)]
         [p := st.accounts[p].(collateral := st.accounts[p].collateral + kept)])
  }

  /**
   * An LP who mints `u` into a priced pool and at once burns everything it got,
   * at unchanged PnL, leaves the pool's record and its own entries as they
   * were, and has paid between nothing and one share's value plus one unit.
   */
  lemma MintThenBurnAll(st: State, sender: string, p: nat, u: nat, env: Env, env': Env, m: Account,
        minted: Reply, burned: Reply)
    requires NewLp(st, sender, p, m) && RoundTrip(st, sender, p, u, env, env', minted, burned) && Core(st)
    ensures burned.value <= u
    ensures (u - burned.value - 1) * (InfoOf(st, p).totalShares + minted.value) * USDC_TO_COLLATERAL < Tav(st, p, env.pnl)
    ensures OnlyKept(st, burned.state, p, m, env.prefixes, (u - burned.value) * USDC_TO_COLLATERAL)
  {
    hide Core, ExecMintShares, ExecBurnShares, SettleAll, State.MasterByOwner, State.IsPoolOperator;
    var a, b := MintForNewLp(st, sender, p, u, env, m, minted);
    var a', b' := BurnForNewLp(st, sender, p, u, env, env', m, minted, burned, a, b);
    assert st.accounts[m.index := a][p := b][m.index := a'][p := b'] == st.accounts[m.index := a'][p := b'];
  }

  lemma PricedByMint(info: PoolInfo, tav: int, u: nat)
    requires InfoOk(info) && 0 < info.totalShares && 0 < u && UsdcValueToShares(info, tav, u).Ok?
    ensures Priced(info, tav)
  {
  }

  /** Rewriting rows in place changes neither who owns them nor who operates the pool. */
  lemma SameParties(st: State, st': State, sender: string, p: nat, m: nat)
    requires IsPool(st.accounts, p) && sender in st.owners && st.owners[sender] == m && m in st.accounts
    requires st'.owners == st.owners && st'.authority == st.authority && SameIdentity(st.accounts, st'.accounts)
    ensures st'.MasterByOwner(sender) == Ok(st'.accounts[m])
    ensures st'.IsPoolOperator(st'.accounts[p], sender) == st.IsPoolOperator(st.accounts[p], sender)
  {
  }
}

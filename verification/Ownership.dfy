// Who may take from an account: over any run in which its owner sends nothing
// and nothing of its own is settled, what the account holds never falls.
module Ownership {
  import opened Types
  import opened Pools
  import opened Store
  import opened Funding
  import opened Trades
  import opened Messages
  import opened Invariants
  import opened Preservation
  import opened Delivery
  import opened Frames

  /** Nothing was taken from account `i`: collateral and balances no lower, locks and positions as they were. */
  ghost predicate Spared(st: State, st': State, i: nat) {
    && i in st.accounts && i in st'.accounts
    && st'.accounts[i].owner == st.accounts[i].owner && st'.accounts[i].kind == st.accounts[i].kind
    && st.accounts[i].collateral <= st'.accounts[i].collateral
    && (forall x :: Richer(st.GetRow(i, x), st'.GetRow(i, x)))
    && (forall k :: st'.GetPosition(i, k) == st.GetPosition(i, k))
  }

  predicate Richer(r: AssetRow, r': AssetRow) {
    r.balance <= r'.balance && r'.locked == r.locked
  }

  ghost predicate SameEntries(st: State, st': State, i: nat) {
    i in st.accounts && i in st'.accounts && st'.accounts[i].shares == st.accounts[i].shares
  }

  lemma SparedTwice(st: State, mid: State, st': State, i: nat)
    requires Spared(st, mid, i) && Spared(mid, st', i)
    ensures Spared(st, st', i)
  {
    hide State.GetRow, State.GetPosition;
    forall x ensures Richer(st.GetRow(i, x), st'.GetRow(i, x)) {
      assert Richer(st.GetRow(i, x), mid.GetRow(i, x)) && Richer(mid.GetRow(i, x), st'.GetRow(i, x));
    }
    forall k ensures st'.GetPosition(i, k) == st.GetPosition(i, k) {
      assert mid.GetPosition(i, k) == st.GetPosition(i, k);
    }
  }

  // ---------- credits ----------

  lemma FramedIsSpared(st: State, st': State, i: nat)
    requires Framed(st, st', i)
    ensures Spared(st, st', i) && SameEntries(st, st', i)
  {
  }

  lemma EnrichedIsSpared(st: State, st': State, i: nat)
    requires Enriched(st, st', i)
    ensures Spared(st, st', i) && SameEntries(st, st', i)
  {
  }

  lemma RowCredited(st: State, st': State, i: nat)
    requires i in st.accounts && i in st'.accounts && st'.rows == st.rows && st'.positions == st.positions
    requires var a, a' := st.accounts[i], st'.accounts[i];
             a'.owner == a.owner && a'.kind == a.kind && a.collateral <= a'.collateral
    ensures Spared(st, st', i)
  {
  }

  lemma AddCollateralCredits(st: State, j: nat, d: int, i: nat)
    requires Core(st) && i in st.accounts && st.AddCollateral(j, d).Ok? && (i == j ==> 0 <= d)
    ensures var st' := st.AddCollateral(j, d).value; Spared(st, st', i) && SameEntries(st, st', i)
  {
    hide Core;
    KeyFacts(st, j);
  }

  lemma AddBalanceCredits(st: State, j: nat, x: nat, d: int, i: nat)
    requires Core(st) && i in st.accounts && st.AddAccountAssetBalance(j, x, d).Ok? && (i == j ==> 0 <= d)
    ensures var st' := st.AddAccountAssetBalance(j, x, d).value; Spared(st, st', i) && SameEntries(st, st', i)
  {
    hide Core;
    CoreTables(st);
    GetRowOk(st, j, x);
  }

  /** Whoever deposits, no account loses. */
  lemma DepositCredits(st: State, sender: string, b: string, x: nat, route: Route, n: nat, env: Env, i: nat)
    requires Core(st) && i in st.accounts && ExecDeposit(st, sender, b, x, route, n, env).Ok?
    ensures var st' := ExecDeposit(st, sender, b, x, route, n, env).value.state;
            Spared(st, st', i) && SameEntries(st, st', i)
  {
    hide Core, Moves, Max, Spared, Framed, State.EnsureMasterAccount, State.AddCollateral, State.AddAccountAssetBalance;
    var a, who := st.assets[x], if b == "" then sender else b;
    var st1 := st.MoveCoins(a.denom, n);
    MoveCoinsStep(st, x, n);
    OtherTables(st, st1, i, false);
    FramedIsSpared(st, st1, i);
    var st2, acc := EnsureMasterStep(st1, who, env.now);
    EnsureMasterFramed(st1, who, env.now, i);
    FramedIsSpared(st1, st2, i);
    SparedTwice(st, st1, st2, i);
    if route.Perps? {
      AddCollateralCredits(st2, acc.index, n * a.multiplier, i);
    } else {
      AddBalanceCredits(st2, acc.index, x, n * a.multiplier, i);
    }
    SparedTwice(st, st2, ExecDeposit(st, sender, b, x, route, n, env).value.state, i);
  }

  lemma EnsureMasterFramed(st: State, owner: string, now: int, i: nat)
    requires Core(st) && i in st.accounts && st.EnsureMasterAccount(owner, now).Ok?
    ensures Framed(st, st.EnsureMasterAccount(owner, now).value.0, i)
  {
    hide Core, Framed, AccountsOk, SharesAddUp;
    CoreAccounts(st);
    NextIndexUnused(st);
    OtherTables(st, st.EnsureMasterAccount(owner, now).value.0, i, false);
  }

  /** A transfer takes from its source only. */
  lemma TransferCredits(st: State, sender: string, f: nat, t: nat, x: nat, n: nat, env: Env, i: nat)
    requires Core(st) && i in st.accounts && i != f && ExecTransfer(st, sender, f, t, x, n, env).Ok?
    ensures var st' := ExecTransfer(st, sender, f, t, x, n, env).value.state;
            Spared(st, st', i) && SameEntries(st, st', i)
  {
    hide Core, Moves, Max, Spared, Leaves, Framed, SettleAll, State.AddCollateral, State.AddAccountAssetBalance;
    var delta := n * st.assets[x].multiplier;
    var st2: State;
    if st.assets[x].margin {
      var st1 := SettleAllStep(st, f, env.prefixes);
      SettleAllLeaves(st, f, env.prefixes, i, false);
      LeavesIsFramed(st, st1, i);
      FramedIsSpared(st, st1, i);
      st2 := AddCollateralStep(st1, f, -delta);
      AddCollateralCredits(st1, f, -delta, i);
      SparedTwice(st, st1, st2, i);
      AddCollateralCredits(st2, t, delta, i);
    } else {
      st2 := AddBalanceStep(st, f, x, -delta);
      AddBalanceCredits(st, f, x, -delta, i);
      AddBalanceCredits(st2, t, x, delta, i);
    }
    SparedTwice(st, st2, ExecTransfer(st, sender, f, t, x, n, env).value.state, i);
  }

  lemma LeavesIsFramed(st: State, st': State, i: nat)
    requires Leaves(st, st', i, false)
    ensures Framed(st, st', i)
  {
  }

  /** A spot move takes from its source only. */
  lemma MoveSpotCredits(st: State, f: nat, t: nat, x: nat, d: int, drain: bool, i: nat)
    requires Core(st) && i in st.accounts && i != f && st.TransferAccountAssetBalance(f, t, x, d, drain).Ok?
    ensures var st' := st.TransferAccountAssetBalance(f, t, x, d, drain).value;
            Spared(st, st', i) && SameEntries(st, st', i)
  {
    hide Core;
    CoreTables(st);
    GetRowOk(st, f, x);
    GetRowOk(st, t, x);
  }

  /** A burn pays the depositor, whoever asked for it. */
  lemma BurnCredits(st: State, p: nat, m: Account, operator: bool, s: int, skip: bool, env: Env, i: nat)
    requires Core(st) && i in st.accounts && !st.accounts[i].IsPoolType()
    requires p in st.accounts && m.index in st.accounts && st.accounts[m.index] == m
    requires (m.kind.Master? || !operator) && 0 < s
    requires ExecBurn(st, st.accounts[p], m, operator, s, skip, env).Ok?
    ensures Spared(st, ExecBurn(st, st.accounts[p], m, operator, s, skip, env).value.state, i)
  {
    hide Core, ExecBurn, CheckMinOperatorShareRate, TermsOfBurn, ReduceEntry, Burnable,
         AvailableSharesToBurn, InfoOk, Spared;
    var entry, t, a, b := BurnWrites(st, p, m, operator, s, skip, env);
    var terms := TermsBounds(st.accounts[p].info.value, st.accounts[p].collateral + env.pnl, entry, s);
    RowFacts(st, p);
    RowCredited(st, ExecBurn(st, st.accounts[p], m, operator, s, skip, env).value.state, i);
  }

  // ---------- any message ----------

  /** Not sent by the account's owner, and no settlement of the account's own orders or positions. */
  predicate Foreign(msg: Msg, i: nat, owner: string) {
    match msg
    case LockSpot(j, _, _) => i != j
    case UnlockSpot(j, _, _) => i != j
    case MoveSpot(f, _, _, _, _) => i != f
    case SettleFunding(j, _) => i != j
    case PerpFill(m) => i != m.maker && i != m.taker
    case CloseOut(m) => i != m.maker && i != m.taker
    case _ => msg.sender != owner
  }

  /** The messages of others that may name an account. */
  predicate MayCredit(msg: Msg) {
    msg.Deposit? || msg.Transfer? || msg.ForceBurnShares? || msg.MoveSpot? || Fills(msg)
  }

  /** Otherwise an accepted message of someone else does not touch the account at all. */
  lemma ForeignIsUntouched(st: State, msg: Msg, env: Env, i: nat)
    requires Core(st) && i in st.accounts && !st.accounts[i].IsPoolType() && Foreign(msg, i, st.accounts[i].owner)
    requires Exec(st, msg, env).Ok? && !MayCredit(msg)
    ensures i !in Touched(st, msg)
  {
    hide Core, ExecMintShares, ExecBurnShares, ExecForceBurnShares, ExecStrategyTransfer, ExecDeposit, ExecTransfer,
         ExecRegisterAsset, ExecUpdateAsset, ApplyMatch, SettleAll, SettlePosition, Max, State.AddCollateral,
         State.AddAccountAssetBalance, State.GetAsset, PoolEmpty, CheckMinOperatorShareRate;
    match msg {
      case MintShares(s, p, u) => MintParties(st, s, p, u, env);
      case BurnShares(s, p, n) =>
        var m, operator := BurnSharesIsBurn(st, s, p, n, env);
        PoolOfBurn(st, p, m, operator, n, env);
      case StrategyTransfer(s, p, f, t, d) => StrategyTransferRefused(st, s, p, f, t, d);
      case _ =>
    }
  }

  lemma MintParties(st: State, sender: string, p: nat, u: nat, env: Env)
    requires Core(st) && ExecMintShares(st, sender, p, u, env).Ok?
    ensures p in st.accounts && st.accounts[p].IsPoolType()
    ensures sender in st.owners && st.owners[sender] in st.accounts && st.accounts[st.owners[sender]].owner == sender
  {
    hide Core, UsdcValueToShares, SettleAll, PayIn, State.IsPoolOperator;
    OwnerIndex(st, sender);
  }

  lemma PoolOfBurn(st: State, p: nat, m: Account, operator: bool, n: int, env: Env)
    requires p in st.accounts && 0 < n && ExecBurn(st, st.accounts[p], m, operator, n, false, env).Ok?
    ensures st.accounts[p].IsPoolType()
  {
    hide ExecBurn, TermsOfBurn, PayOut, Burned, CheckMinOperatorShareRate, AvailableSharesToBurn, SharesToUsdcValue;
    BurnGuards(st, st.accounts[p], m, operator, n, false, env);
  }

  lemma CreditsSpare(st: State, msg: Msg, env: Env, i: nat)
    requires Core(st) && i in st.accounts && !st.accounts[i].IsPoolType() && Foreign(msg, i, st.accounts[i].owner)
    requires Exec(st, msg, env).Ok? && MayCredit(msg)
    ensures var st' := Exec(st, msg, env).value.state;
            Spared(st, st', i) && (msg.ForceBurnShares? || SameEntries(st, st', i))
  {
    hide Core, ExecDeposit, ExecTransfer, ExecBurn, ExecForceBurnShares, ApplyMatch, Spared, SameEntries,
         State.TransferAccountAssetBalance;
    match msg {
      case Deposit(s, b, x, r, n) => DepositCredits(st, s, b, x, r, n, env, i);
      case Transfer(s, f, t, x, n) =>
        SourceIsMine(st, s, f, t, x, n, env);
        TransferCredits(st, s, f, t, x, n, env, i);
      case ForceBurnShares(s, p, d, n) =>
        ForceBurnIsBurn(st, s, p, d, n, env);
        BurnCredits(st, p, st.accounts[d], false, n, true, env, i);
      case MoveSpot(f, t, x, d, drain) => MoveSpotCredits(st, f, t, x, d, drain, i);
      case PerpFill(m) =>
        FillEnriches(st, m, env, i);
        EnrichedIsSpared(st, Kept(ApplyMatch(st, m, env)), i);
      case CloseOut(m) =>
        FillEnriches(st, m, env, i);
        EnrichedIsSpared(st, Kept(ApplyMatch(st, m, env)), i);
    }
  }

  lemma SourceIsMine(st: State, sender: string, f: nat, t: nat, x: nat, n: nat, env: Env)
    requires ExecTransfer(st, sender, f, t, x, n, env).Ok?
    ensures f in st.accounts && st.accounts[f].owner == sender
  {
    hide SettleAll, Max, State.AddCollateral, State.AddAccountAssetBalance;
  }

  /** No message of anyone else, governance included, takes from an account; only a forced burn touches its entries. */
  lemma OthersCannotTake(st: State, msg: Msg, env: Env, i: nat)
    requires Core(st) && i in st.accounts && !st.accounts[i].IsPoolType() && Foreign(msg, i, st.accounts[i].owner)
    ensures var st' := Deliver(st, msg, env);
            Spared(st, st', i) && (msg.ForceBurnShares? || SameEntries(st, st', i))
  {
    hide Core, Exec, Spared, Framed, Foreign, MayCredit;
    if Exec(st, msg, env).Err? {
      OtherTables(st, st, i, false);
      FramedIsSpared(st, st, i);
    } else if MayCredit(msg) {
      CreditsSpare(st, msg, env, i);
    } else {
      ForeignIsUntouched(st, msg, env, i);
      UntouchedIsFramed(st, msg, env, i);
      FramedIsSpared(st, Deliver(st, msg, env), i);
    }
  }

  // ---------- runs ----------

  predicate AllForeign(txs: seq<Tx>, i: nat, owner: string) {
    forall k :: 0 <= k < |txs| ==> Foreign(txs[k].msg, i, owner)
  }

  predicate NoForcedBurn(txs: seq<Tx>) {
    forall k :: 0 <= k < |txs| ==> !txs[k].msg.ForceBurnShares?
  }

  /**
   * Over any run in which its owner sends nothing and nothing of its own is
   * settled, whatever others do and trade, an account keeps at least its
   * collateral and balances, its locks and positions exactly, and, unless
   * governance forces a burn, its pool entries exactly.
   */
  lemma {:induction false} IdleOwnerLosesNothing(st: State, txs: seq<Tx>, i: nat)
    requires Core(st) && i in st.accounts && !st.accounts[i].IsPoolType()
    requires AllForeign(txs, i, st.accounts[i].owner)
    ensures Spared(st, Run(st, txs), i) && (NoForcedBurn(txs) ==> SameEntries(st, Run(st, txs), i))
    decreases |txs|
  {
    hide Core, Deliver, Spared, Foreign, Framed;
    if txs == [] {
      OtherTables(st, st, i, false);
      FramedIsSpared(st, st, i);
    } else {
      var tx, front := txs[|txs| - 1], txs[..|txs| - 1];
      var mid := Run(st, front);
      IdleOwnerLosesNothing(st, front, i);
      RunKeeps(st, front);
      SparedKeepsOwner(st, mid, i);
      OthersCannotTake(mid, tx.msg, tx.env, i);
      SparedTwice(st, mid, Run(st, txs), i);
    }
  }

  lemma SparedKeepsOwner(st: State, st': State, i: nat)
    requires Spared(st, st', i)
    ensures i in st.accounts && i in st'.accounts
    ensures st'.accounts[i].owner == st.accounts[i].owner && st'.accounts[i].kind == st.accounts[i].kind
  {
  }
}

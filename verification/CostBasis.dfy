// Cost-basis bookkeeping of LP entries over whole runs: what mints deposit is
// what burns are charged with, plus what is left.
module CostBasis {
  import opened Types
  import opened Arith
  import opened Pools
  import opened Store
  import opened Funding
  import opened Messages
  import opened Invariants
  import opened Preservation
  import opened Delivery
  import opened Frames

  /** Principal of the entry for `pool`, zero when there is none. */
  function Basis(shares: seq<Share>, pool: nat): int {
    var i := FindShareEntry(shares, pool);
    if i < |shares| then shares[i].principal else 0
  }

  // ---------- one entry list ----------

  lemma {:induction false} FindIs(shares: seq<Share>, pool: nat, i: nat)
    requires i < |shares| && shares[i].pool == pool && forall j :: 0 <= j < i ==> shares[j].pool != pool
    ensures FindShareEntry(shares, pool) == i
  {
  }

  lemma {:induction false} FindNone(shares: seq<Share>, pool: nat)
    requires forall j :: 0 <= j < |shares| ==> shares[j].pool != pool
    ensures FindShareEntry(shares, pool) == |shares|
  {
  }

  /** With one entry per pool, the basis is read off wherever the entry stands. */
  lemma BasisAt(shares: seq<Share>, i: nat)
    requires EntriesOk(shares) && i < |shares|
    ensures Basis(shares, shares[i].pool) == shares[i].principal
  {
    FindIs(shares, shares[i].pool, i);
  }

  lemma UpsertMovesBasis(shares: seq<Share>, q: nat, amount: int, principal: int, time: int, pool: nat)
    requires EntriesOk(shares) && 0 < amount && 0 <= principal
    requires UpsertEntry(shares, q, amount, principal, time).Ok?
    ensures Basis(UpsertEntry(shares, q, amount, principal, time).value, pool)
         == Basis(shares, pool) + if pool == q then principal else 0
  {
    UpsertMoves(shares, q, amount, principal, time, pool);
    var s', k, i := UpsertEntry(shares, q, amount, principal, time).value, FindShareEntry(shares, q),
                    FindShareEntry(shares, pool);
    if pool == q {
      BasisAt(s', k);
    } else if i < |shares| {
      BasisAt(s', i);
    } else {
      FindNone(s', pool);
    }
  }

  lemma ReduceMovesBasis(shares: seq<Share>, q: nat, amount: int, pool: nat)
    requires EntriesOk(shares) && 0 < amount && ReduceEntry(shares, q, amount).Ok?
    ensures var k := FindShareEntry(shares, q);
            && k < |shares| && shares[k].amount != 0
            && Basis(ReduceEntry(shares, q, amount).value, pool)
               == Basis(shares, pool) - if pool == q then PrincipalOf(shares[k], amount) else 0
  {
    hide PrincipalOf, SharesIn;
    ReduceMoves(shares, q, amount, pool);
    if pool == q { TakeOwnBasis(shares, pool, amount); } else { TakeSparesOthers(shares, q, amount, pool); }
  }

  lemma TakeOwnBasis(shares: seq<Share>, pool: nat, amount: int)
    requires EntriesOk(shares) && 0 < amount && ReduceEntry(shares, pool, amount).Ok?
    requires EntriesOk(ReduceEntry(shares, pool, amount).value)
    ensures Basis(ReduceEntry(shares, pool, amount).value, pool)
         == Basis(shares, pool) - PrincipalOf(shares[FindShareEntry(shares, pool)], amount)
  {
    hide PrincipalOf;
    var s', k := ReduceEntry(shares, pool, amount).value, FindShareEntry(shares, pool);
    if shares[k].amount == amount {
      PrincipalBounds(shares[k], amount);
      FindNone(s', pool);
    } else {
      BasisAt(s', k);
    }
  }

  lemma TakeSparesOthers(shares: seq<Share>, q: nat, amount: int, pool: nat)
    requires EntriesOk(shares) && 0 < amount && ReduceEntry(shares, q, amount).Ok? && pool != q
    requires EntriesOk(ReduceEntry(shares, q, amount).value)
    ensures Basis(ReduceEntry(shares, q, amount).value, pool) == Basis(shares, pool)
  {
    hide PrincipalOf;
    var s', k, i := ReduceEntry(shares, q, amount).value, FindShareEntry(shares, q), FindShareEntry(shares, pool);
    if i < |shares| {
      BasisAt(s', if shares[k].amount == amount && k < i then i - 1 else i);
    } else {
      FindNone(s', pool);
    }
  }

  // ---------- one message ----------

  function BasisOf(st: State, m: nat, pool: nat): int {
    if m in st.accounts then Basis(st.accounts[m].shares, pool) else 0
  }

  /** The sender acts for account `m` as an LP of `pool`, not as its operator. */
  predicate ActsAsLp(st: State, sender: string, m: nat, pool: nat) {
    && sender in st.owners && st.owners[sender] == m
    && pool in st.accounts && st.IsPoolOperator(st.accounts[pool], sender) == Ok(false)
  }

  /** Principal that an accepted mint adds to account `m`'s entry in `pool`. */
  function Deposited(st: State, msg: Msg, env: Env, m: nat, pool: nat): int {
    if msg.MintShares? && msg.pool == pool && ActsAsLp(st, msg.sender, m, pool) && Exec(st, msg, env).Ok?
    then msg.principal else 0
  }

  /** Principal that the profit of an accepted burn is measured against: the basis of the shares burned. */
  function Consumed(st: State, msg: Msg, env: Env, m: nat, pool: nat): int {
    if Exec(st, msg, env).Err? then 0
    else
      match msg
      case BurnShares(s, p, n) => if p == pool && ActsAsLp(st, s, m, pool) then Charged(st, m, pool, n) else 0
      case ForceBurnShares(_, p, d, n) => if p == pool && d == m then Charged(st, m, pool, n) else 0
      case _ => 0
  }

  function Charged(st: State, m: nat, pool: nat, s: int): int {
    if m !in st.accounts then 0
    else
      var shares := st.accounts[m].shares;
      var i := FindShareEntry(shares, pool);
      if i < |shares| && shares[i].amount != 0 then PrincipalOf(shares[i], s) else 0
  }

  lemma MintMovesBasis(st: State, sender: string, p: nat, u: nat, env: Env, m: nat, pool: nat)
    requires Core(st) && m in st.accounts && ExecMintShares(st, sender, p, u, env).Ok?
    ensures var st' := ExecMintShares(st, sender, p, u, env).value.state;
            BasisOf(st', m, pool)
            == BasisOf(st, m, pool) + if p == pool && ActsAsLp(st, sender, m, pool) then u else 0
  {
    hide Core, Basis, ExecMintShares, UpsertEntry, UsdcValueToShares, CheckMinOperatorShareRate, SettleAll, EntriesOk,
         State.IsPoolOperator;
    var a, a', b, operator, sh := MintWrites(st, sender, p, u, env);
    OwnerIndex(st, sender);
    RowFacts(st, a.index);
    RowFacts(st, p);
    if m == a.index && !operator { UpsertMovesBasis(a.shares, p, sh, u, env.now, pool); }
  }

  lemma BurnMovesBasis(st: State, p: nat, a: Account, operator: bool, s: int, skip: bool, env: Env, m: nat, pool: nat)
    requires Core(st) && m in st.accounts && p in st.accounts && a.index in st.accounts && st.accounts[a.index] == a
    requires (a.kind.Master? || !operator) && 0 < s
    requires ExecBurn(st, st.accounts[p], a, operator, s, skip, env).Ok?
    ensures var st' := ExecBurn(st, st.accounts[p], a, operator, s, skip, env).value.state;
            BasisOf(st', m, pool)
            == BasisOf(st, m, pool) - if p == pool && a.index == m && !operator then Charged(st, m, pool, s) else 0
  {
    hide Core, Basis, ExecBurn, CheckMinOperatorShareRate, TermsOfBurn, ReduceEntry, Burnable, AvailableSharesToBurn,
         InfoOk, EntriesOk, PrincipalOf;
    var entry, t, a', b := BurnWrites(st, p, a, operator, s, skip, env);
    RowFacts(st, a.index);
    RowFacts(st, p);
    if m == a.index && !operator { ReduceMovesBasis(a.shares, p, s, pool); }
  }

  lemma UpdateKeepsEntries(st: State, sender: string, p: nat, status: nat, fee: nat, rate: nat, env: Env, m: nat)
    requires Core(st) && m in st.accounts && ExecUpdatePublicPool(st, sender, p, status, fee, rate, env).Ok?
    ensures var st' := ExecUpdatePublicPool(st, sender, p, status, fee, rate, env).value.state;
            m in st'.accounts && st'.accounts[m].shares == st.accounts[m].shares
  {
    hide Core, ExecUpdatePublicPool;
    var a, params := UpdatePoolWrites(st, sender, p, status, fee, rate, env);
  }

  lemma PoolMessageMovesBasis(st: State, msg: Msg, env: Env, m: nat, pool: nat)
    requires Core(st) && m in st.accounts && PoolMessage(msg) && Exec(st, msg, env).Ok?
    ensures BasisOf(Exec(st, msg, env).value.state, m, pool)
         == BasisOf(st, m, pool) + Deposited(st, msg, env, m, pool) - Consumed(st, msg, env, m, pool)
  {
    hide Core, Basis, ExecBurn, ExecBurnShares, ExecForceBurnShares, ExecMintShares, ExecStrategyTransfer,
         ExecCreatePublicPool, ExecUpdatePublicPool, Charged, State.IsPoolOperator;
    match msg {
      case CreatePublicPool(s, j, n, f, r) => CreatePoolLeaves(st, s, j, n, f, r, env, m);
      case MintShares(s, p, u) => MintMovesBasis(st, s, p, u, env, m, pool);
      case BurnShares(s, p, n) =>
        var a, operator := BurnSharesIsBurn(st, s, p, n, env);
        BurnMovesBasis(st, p, a, operator, n, false, env, m, pool);
      case ForceBurnShares(s, p, d, n) =>
        ForceBurnIsBurn(st, s, p, d, n, env);
        BurnMovesBasis(st, p, st.accounts[d], false, n, true, env, m, pool);
      case StrategyTransfer(s, p, f, t, d) => StrategyTransferRefused(st, s, p, f, t, d);
      case UpdatePublicPool(s, p, c, f, r) => UpdateKeepsEntries(st, s, p, c, f, r, env, m);
    }
  }

  /** A message moves an entry's basis by what it deposits less what it is charged with, and by nothing else. */
  lemma DeliverMovesBasis(st: State, msg: Msg, env: Env, m: nat, pool: nat)
    requires Core(st) && m in st.accounts
    ensures m in Deliver(st, msg, env).accounts
    ensures BasisOf(Deliver(st, msg, env), m, pool)
         == BasisOf(st, m, pool) + Deposited(st, msg, env, m, pool) - Consumed(st, msg, env, m, pool)
  {
    hide Core, Exec, Basis, Charged, ActsAsLp;
    DeliverKeepsRow(st, msg, env, m);
    if Exec(st, msg, env).Ok? {
      if PoolMessage(msg) { PoolMessageMovesBasis(st, msg, env, m, pool); } else { RecordsAreKept(st, msg, env, m); }
    }
  }

  lemma DeliverKeepsRow(st: State, msg: Msg, env: Env, m: nat)
    requires Core(st) && m in st.accounts
    ensures m in Deliver(st, msg, env).accounts
  {
    hide Core, Exec;
    if Exec(st, msg, env).Ok? {
      if PoolMessage(msg) { PoolMessageKeepsRow(st, msg, env, m); } else { RecordsAreKept(st, msg, env, m); }
    }
  }

  lemma PoolMessageKeepsRow(st: State, msg: Msg, env: Env, m: nat)
    requires Core(st) && m in st.accounts && PoolMessage(msg) && Exec(st, msg, env).Ok?
    ensures m in Exec(st, msg, env).value.state.accounts
  {
    hide Core, ExecBurn, ExecBurnShares, ExecForceBurnShares, ExecMintShares, ExecStrategyTransfer,
         ExecCreatePublicPool, ExecUpdatePublicPool, BurnEffect, MintEffect, State.IsPoolOperator, SettleAll;
    match msg {
      case CreatePublicPool(s, j, n, f, r) => CreatePoolLeaves(st, s, j, n, f, r, env, m);
      case MintShares(s, p, u) =>
        var a, a', b, operator, sh := MintWrites(st, s, p, u, env);
      case BurnShares(s, p, n) =>
        var a, operator := BurnSharesIsBurn(st, s, p, n, env);
        var entry, t, a', b := BurnWrites(st, p, a, operator, n, false, env);
      case ForceBurnShares(s, p, d, n) =>
        ForceBurnIsBurn(st, s, p, d, n, env);
        var entry, t, a', b := BurnWrites(st, p, st.accounts[d], false, n, true, env);
      case StrategyTransfer(s, p, f, t, d) => StrategyTransferRefused(st, s, p, f, t, d);
      case UpdatePublicPool(s, p, c, f, r) => UpdateKeepsEntries(st, s, p, c, f, r, env, m);
    }
  }

  // ---------- runs ----------

  function AllDeposited(st: State, txs: seq<Tx>, m: nat, pool: nat): int {
    if txs == [] then 0
    else
      var front, last := txs[..|txs| - 1], txs[|txs| - 1];
      AllDeposited(st, front, m, pool) + Deposited(Run(st, front), last.msg, last.env, m, pool)
  }

  function AllConsumed(st: State, txs: seq<Tx>, m: nat, pool: nat): int {
    if txs == [] then 0
    else
      var front, last := txs[..|txs| - 1], txs[|txs| - 1];
      AllConsumed(st, front, m, pool) + Consumed(Run(st, front), last.msg, last.env, m, pool)
  }

  /**
   * Conservation of the cost basis over any run: what accepted burns of an LP
   * were charged with, forced ones included, plus the basis that is left, is the
   * basis there was plus the principal of the LP's accepted mints.
   */
  lemma {:induction false} BasisConserved(st: State, txs: seq<Tx>, m: nat, pool: nat)
    requires Core(st) && m in st.accounts
    ensures m in Run(st, txs).accounts
    ensures AllConsumed(st, txs, m, pool) + BasisOf(Run(st, txs), m, pool)
         == BasisOf(st, m, pool) + AllDeposited(st, txs, m, pool)
    decreases |txs|
  {
    hide Core, Deliver, Deposited, Consumed, BasisOf;
    if txs != [] {
      var front, last := txs[..|txs| - 1], txs[|txs| - 1];
      BasisConserved(st, front, m, pool);
      RunKeeps(st, front);
      DeliverMovesBasis(Run(st, front), last.msg, last.env, m, pool);
    }
  }

  /** An LP that starts and ends a run without shares has been charged exactly what it deposited. */
  lemma EmptiedEntryConsumedAll(st: State, txs: seq<Tx>, m: nat, pool: nat)
    requires Core(st) && m in st.accounts && SharesIn(st.accounts[m].shares, pool) == 0
    requires m in Run(st, txs).accounts && SharesIn(Run(st, txs).accounts[m].shares, pool) == 0
    ensures AllConsumed(st, txs, m, pool) == AllDeposited(st, txs, m, pool)
  {
    hide Core, Run, AllConsumed, AllDeposited, EntriesPoint, InfoOk;
    BasisConserved(st, txs, m, pool);
    RunKeeps(st, txs);
    RowFacts(st, m);
    RowFacts(Run(st, txs), m);
    NoSharesNoBasis(st.accounts[m].shares, pool);
    NoSharesNoBasis(Run(st, txs).accounts[m].shares, pool);
  }

  lemma NoSharesNoBasis(shares: seq<Share>, pool: nat)
    requires EntriesOk(shares) && SharesIn(shares, pool) == 0
    ensures Basis(shares, pool) == 0
  {
    HoldingIsEntry(shares, pool);
  }

  /** A burn never lowers the principal per remaining share, so later profits are never overstated. */
  lemma BurnNeverLowersBasisPerShare(e: Share, s: int)
    requires 0 <= e.principal && 0 < s <= e.amount
    ensures e.principal * (e.amount - s) <= (e.principal - PrincipalOf(e, s)) * e.amount
  {
    var q := QuoFloor(e.principal * s, e.amount);
    assert (e.principal - q) * e.amount == e.principal * e.amount - q * e.amount;
    assert e.principal * (e.amount - s) == e.principal * e.amount - e.principal * s;
  }
}

// The numbers of pool messages, pinned from the stores and the message alone:
// every quotient by its two bounds, every record and entry field by field.
module PoolTerms {
  import opened Types
  import opened Arith
  import opened Pools
  import opened Store
  import opened Funding
  import opened Messages
  import opened Invariants
  import opened Flows
  import opened Preservation
  import opened Journals

  // ---------- entries ----------

  function EntryOf(shares: seq<Share>, pool: nat): Option<Share> {
    var i := FindShareEntry(shares, pool);
    if i < |shares| then Some(shares[i]) else None
  }

  /** What the entry holds, or an empty one. */
  function EntryOr(shares: seq<Share>, pool: nat): Share {
    if EntryOf(shares, pool).Some? then EntryOf(shares, pool).value else Share(pool, 0, 0, 0)
  }

  lemma FoundAt(shares: seq<Share>, pool: nat, i: nat)
    requires i < |shares| && shares[i].pool == pool && forall j :: 0 <= j < i ==> shares[j].pool != pool
    ensures FindShareEntry(shares, pool) == i
  {
  }

  lemma NotFound(shares: seq<Share>, pool: nat)
    requires forall j :: 0 <= j < |shares| ==> shares[j].pool != pool
    ensures FindShareEntry(shares, pool) == |shares|
  {
  }

  /** A mint adds to the LP's entry, restarts its clock, and leaves the entries of other pools. */
  lemma UpsertWrites(shares: seq<Share>, pool: nat, amount: int, principal: int, time: int, q: nat)
    requires UpsertEntry(shares, pool, amount, principal, time).Ok?
    ensures var s', e := UpsertEntry(shares, pool, amount, principal, time).value, EntryOr(shares, pool);
            EntryOf(s', q)
            == if q == pool then Some(Share(pool, e.amount + amount, e.principal + principal, time)) else EntryOf(shares, q)
  {
    var s', i, n := UpsertEntry(shares, pool, amount, principal, time).value, FindShareEntry(shares, pool),
                    FindShareEntry(shares, q);
    if q == pool {
      FoundAt(s', q, i);
    } else if n < |shares| {
      FoundAt(s', q, n);
    } else {
      NotFound(s', q);
    }
  }

  /** A burn takes the shares and the given part of the principal, removes an emptied entry, and leaves the others. */
  lemma ReduceWrites(shares: seq<Share>, pool: nat, amount: int, q: nat)
    requires EntriesOk(shares) && 0 < amount && ReduceEntry(shares, pool, amount).Ok?
    ensures EntryOf(shares, pool).Some?
    ensures var s', e := ReduceEntry(shares, pool, amount).value, EntryOf(shares, pool).value;
            EntryOf(s', q)
            == if q != pool then EntryOf(shares, q)
               else if e.amount == amount then None
               else Some(e.(amount := e.amount - amount, principal := e.principal - PrincipalOf(e, amount)))
  {
    hide PrincipalOf;
    var s', i, n := ReduceEntry(shares, pool, amount).value, FindShareEntry(shares, pool), FindShareEntry(shares, q);
    if shares[i].amount != amount {
      if q == pool { FoundAt(s', q, i); } else if n < |shares| { FoundAt(s', q, n); } else { NotFound(s', q); }
    } else if q == pool || n == |shares| {
      NotFound(s', q);
    } else {
      FoundAt(s', q, if n < i then n else n - 1);
    }
  }

  // ---------- minting ----------

  /** The price at which a pool issues shares for `u` USDC, rounded down. */
  predicate IssuesAt(info: PoolInfo, tav: int, u: int, sh: int) {
    if info.totalShares == 0 then sh * 1_000 <= u < (sh + 1) * 1_000
    else sh * tav <= u * (info.totalShares * 1_000_000) < (sh + 1) * tav
  }

  /**
   * What a mint issues: at least one share, at the initial price in an empty pool
   * and at the value of a share in others; the reply is the shares, which the
   * pool's record gains, and with them the operator or the sender's own entry.
   */
  lemma MintSettles(st: State, sender: string, pool: nat, u: nat, env: Env)
    requires Core(st) && ExecMintShares(st, sender, pool, u, env).Ok?
    ensures var r := ExecMintShares(st, sender, pool, u, env).value;
            var i, sh := MasterFor(st, sender), r.value;
            && IsPool(st.accounts, pool) && IsPool(r.state.accounts, pool)
            && i in st.accounts && i in r.state.accounts && 0 < sh
            && var info, info' := st.accounts[pool].info.value, r.state.accounts[pool].info.value;
               var was, now := st.accounts[i].shares, r.state.accounts[i].shares;
               && IssuesAt(info, st.accounts[pool].collateral + env.pnl, u, sh)
               && if Operates(st, st.accounts[pool], sender) then
                    && info' == info.(totalShares := info.totalShares + sh, operatorShares := info.operatorShares + sh)
                    && now == was
                  else
                    && info' == info.(totalShares := info.totalShares + sh)
                    && forall q :: EntryOf(now, q)
                         == if q == pool
                            then Some(Share(pool, EntryOr(was, pool).amount + sh, EntryOr(was, pool).principal + u, env.now))
                            else EntryOf(was, q)
  {
    hide Core, ExecMintShares, UsdcValueToShares, UpsertEntry, CheckMinOperatorShareRate, SettleAll, EntryOf, EntryOr;
    var m, a, b, operator, sh := MintWrites(st, sender, pool, u, env);
    OwnerIndex(st, sender);
    RowFacts(st, pool);
    MintIsFloor(st.accounts[pool].info.value, st.accounts[pool].collateral + env.pnl, u);
    if !operator {
      forall q ensures EntryOf(a.shares, q)
        == if q == pool
           then Some(Share(pool, EntryOr(m.shares, pool).amount + sh, EntryOr(m.shares, pool).principal + u, env.now))
           else EntryOf(m.shares, q)
      {
        UpsertWrites(m.shares, pool, sh, u, env.now, q);
      }
    }
  }

  /** Governance operates the insurance fund, its master's owner any other pool. */
  predicate Operates(st: State, pool: Account, sender: string) {
    if pool.kind.InsuranceFund? && pool.index == INSURANCE_FUND then sender == st.authority
    else sender != "" && pool.master in st.accounts && st.accounts[pool.master].owner == sender
  }

  // ---------- burning ----------

  /**
   * What an LP's burn of `s` shares pays: the quote `v` is the shares' part of
   * the pool's value, `b` their part of the entry's principal, the fee `f` the
   * operator's fraction of the profit in shares, `paid` the rest of the quote,
   * each rounded down.
   */
  predicate BurnsAt(info: PoolInfo, tav: int, e: Share, s: int, v: int, b: int, f: int, paid: int) {
    && v * (info.totalShares * 1_000_000) <= s * tav < (v + 1) * (info.totalShares * 1_000_000)
    && b * e.amount <= e.principal * s < (b + 1) * e.amount
    && 0 <= f < s
    && (v <= b ==> f == 0)
    && (b < v ==>
          f * tav * 1_000_000 <= (v - b) * info.operatorFee * (info.totalShares * 1_000_000) < (f + 1) * tav * 1_000_000)
    && paid * s <= v * (s - f) < (paid + 1) * s
  }

  lemma TermsArePinned(info: PoolInfo, tav: int, e: Share, s: int)
    requires Burnable(info, tav, Some(e), s)
    ensures var t := TermsOfBurn(info, tav, Some(e), s);
            t.burned == s - t.feeShares && BurnsAt(info, tav, e, s, t.usdcValue, PrincipalOf(e, s), t.feeShares, t.delivered)
  {
    var _ := QuoteBounds(info, tav, s);
    PrincipalIsFloor(e, s);
    FeeNeverTakesPrincipal(info, tav, e, s);
    var _ := TermsBounds(info, tav, Some(e), s);
  }

  /**
   * What an LP's burn does, forced or not: it replies with what it pays, destroys
   * the shares but for the operator's fee, which joins the operator's, and takes
   * the shares and their part of the principal out of the LP's entry.
   */
  lemma LpBurnSettles(st: State, pool: nat, m: Account, s: int, skip: bool, env: Env) returns (v: int, b: int, f: int)
    requires Core(st) && pool in st.accounts && m.index in st.accounts && st.accounts[m.index] == m && 0 < s
    requires ExecBurn(st, st.accounts[pool], m, false, s, skip, env).Ok?
    ensures IsPool(st.accounts, pool) && EntryOf(m.shares, pool).Some?
    ensures var r := ExecBurn(st, st.accounts[pool], m, false, s, skip, env).value;
            var e, info, tav := EntryOf(m.shares, pool).value, st.accounts[pool].info.value,
                                st.accounts[pool].collateral + env.pnl;
            && IsPool(r.state.accounts, pool) && m.index in r.state.accounts
            && BurnsAt(info, tav, e, s, v, b, f, r.value)
            && r.state.accounts[pool].info.value
               == info.(totalShares := info.totalShares - (s - f), operatorShares := info.operatorShares + f)
            && forall q :: EntryOf(r.state.accounts[m.index].shares, q)
                 == if q != pool then EntryOf(m.shares, q)
                    else if e.amount == s then None
                    else Some(e.(amount := e.amount - s, principal := e.principal - b))
  {
    hide Core, ExecBurn, TermsOfBurn, ReduceEntry, AvailableSharesToBurn, CheckMinOperatorShareRate, BurnsAt,
         PrincipalOf, Burnable;
    var entry, t, a, row := BurnWrites(st, pool, m, false, s, skip, env);
    var p := st.accounts[pool];
    TermsArePinned(p.info.value, p.collateral + env.pnl, entry.value, s);
    EntryHasShares(p.info.value, p.collateral + env.pnl, entry.value, s);
    v, b, f := t.usdcValue, PrincipalOf(entry.value, s), t.feeShares;
    RowFacts(st, m.index);
    forall q ensures EntryOf(a.shares, q)
      == if q != pool then EntryOf(m.shares, q)
         else if entry.value.amount == s then None
         else Some(entry.value.(amount := entry.value.amount - s, principal := entry.value.principal - b))
    {
      ReduceWrites(m.shares, pool, s, q);
    }
  }

  lemma EntryHasShares(info: PoolInfo, tav: int, e: Share, s: int)
    requires Burnable(info, tav, Some(e), s)
    ensures e.amount != 0
  {
  }

  /** What the operator's burn does: it is paid the whole quote and pays no fee. */
  lemma OperatorBurnSettles(st: State, pool: nat, m: Account, s: int, skip: bool, env: Env)
    requires Core(st) && pool in st.accounts && m.index in st.accounts && st.accounts[m.index] == m && m.kind.Master?
    requires 0 < s && ExecBurn(st, st.accounts[pool], m, true, s, skip, env).Ok?
    ensures IsPool(st.accounts, pool)
    ensures var r := ExecBurn(st, st.accounts[pool], m, true, s, skip, env).value;
            var info, tav := st.accounts[pool].info.value, st.accounts[pool].collateral + env.pnl;
            && IsPool(r.state.accounts, pool) && m.index in r.state.accounts
            && r.value * (info.totalShares * 1_000_000) <= s * tav < (r.value + 1) * (info.totalShares * 1_000_000)
            && r.state.accounts[pool].info.value
               == info.(totalShares := info.totalShares - s, operatorShares := info.operatorShares - s)
            && r.state.accounts[m.index].shares == m.shares
  {
    hide Core, ExecBurn, AvailableSharesToBurn, CheckMinOperatorShareRate;
    var entry, t, a, row := BurnWrites(st, pool, m, true, s, skip, env);
    var p := st.accounts[pool];
    var v := QuoteBounds(p.info.value, p.collateral + env.pnl, s);
    QuoExact(v, s);
  }

  // ---------- creation and update ----------

  /**
   * What a new pool is: active, with the fee and rate asked for, all its shares
   * the operator's and each backed by 1000 USDC of its master's collateral, which
   * is also what it quotes for them.
   */
  lemma CreatePublicPoolWrites(st: State, sender: string, i: nat, n: nat, fee: nat, rate: nat, env: Env)
    requires Core(st) && ExecCreatePublicPool(st, sender, i, n, fee, rate, env).Ok?
    ensures var r := ExecCreatePublicPool(st, sender, i, n, fee, rate, env).value;
            && i in st.accounts && i in r.state.accounts && r.value == st.nextSub
            && st.nextSub !in st.accounts && IsPool(r.state.accounts, st.nextSub)
            && var pool := r.state.accounts[st.nextSub];
               && pool.index == st.nextSub && pool.kind.PublicPool? && pool.owner == sender && pool.master == i
               && pool.collateral == n * 1_000_000_000 && pool.createdAt == env.now && pool.shares == []
               && r.state.accounts[i].collateral == st.accounts[i].collateral - n * 1_000_000_000
               && var info := pool.info.value;
                  && info.status == ACTIVE && info.operatorFee == fee && info.minOperatorShareRate == rate
                  && info.totalShares == info.operatorShares == n
                  && SharesToUsdcValue(info, pool.collateral, n) == n * 1_000
  {
    hide Core, SettleAll, SweepPaid, Moves, Quo;
    RowFacts(st, i);
    var _ := SettleAllStep(st, i, env.prefixes);
    SubIndexInRange(st);
    SubIndexUnused(st);
    assert n * (n * 1_000_000_000) == n * 1_000 * (n * USDC_TO_COLLATERAL);
    QuoExact(n * 1_000, n * USDC_TO_COLLATERAL);
  }

  /** What an update writes: status, fee and rate as asked; a frozen liquidity pool stops being one. */
  lemma UpdatePublicPoolWrites(st: State, sender: string, p: nat, status: nat, fee: nat, rate: nat, env: Env)
    requires Core(st) && ExecUpdatePublicPool(st, sender, p, status, fee, rate, env).Ok?
    ensures IsPool(st.accounts, p)
    ensures var a, info := st.accounts[p], st.accounts[p].info.value;
            ExecUpdatePublicPool(st, sender, p, status, fee, rate, env).value.state
            == st.(accounts := st.accounts[p := a.(info := Some(info.(status := status, operatorFee := fee,
                                                                      minOperatorShareRate := rate)))],
                   params := if status == FROZEN && st.params.liquidityPool == p
                             then st.params.(liquidityPool := 0) else st.params)
  {
    hide Core, PoolEmpty, CheckMinOperatorShareRate, State.IsPoolOperator;
    KeyFacts(st, p);
  }
}

// What every message keeps.  The invariant is a conjunction of independent
// parts, each proved to survive the primitive writes it depends on.
module Invariants {
  import opened Types
  import opened Pools
  import opened Store
  import opened Assets
  import opened Sums
  import P = Positions

  type Accounts = map<nat, Account>
  type Rows = map<(nat, nat), AssetRow>
  type PositionTable = map<(nat, nat), Position>

  // ---------- totals ----------

  /** Shares an account holds in `pool`, over all its entries. */
  function SharesIn(shares: seq<Share>, pool: nat): int {
    if shares == [] then 0
    else (if shares[0].pool == pool then shares[0].amount else 0) + SharesIn(shares[1..], pool)
  }

  function CollateralTable(accounts: Accounts): map<nat, int> {
    map i | i in accounts :: accounts[i].collateral
  }

  function HoldingTable(accounts: Accounts, pool: nat): map<nat, int> {
    map i | i in accounts :: SharesIn(accounts[i].shares, pool)
  }

  function BalanceTable(rows: Rows, x: nat): map<(nat, nat), int> {
    map k | k in rows :: if k.1 == x then rows[k].balance else 0
  }

  function MarginTable(positions: PositionTable): map<(nat, nat), int> {
    map k | k in positions :: positions[k].allocatedMargin
  }

  function EntryTable(positions: PositionTable): map<(nat, nat), int> {
    map k | k in positions :: positions[k].entryQuote
  }

  function SizeTable(positions: PositionTable, market: nat): map<(nat, nat), int> {
    map k | k in positions :: if k.1 == market then positions[k].baseSize else 0
  }

  ghost function TotalCollateral(accounts: Accounts): int { Sum(CollateralTable(accounts)) }

  /** LP shares of `pool`, summed over every account. */
  ghost function LpShares(accounts: Accounts, pool: nat): int { Sum(HoldingTable(accounts, pool)) }

  ghost function SpotTotal(rows: Rows, x: nat): int { Sum(BalanceTable(rows, x)) }

  ghost function TotalMargin(positions: PositionTable): int { Sum(MarginTable(positions)) }

  ghost function TotalEntry(positions: PositionTable): int { Sum(EntryTable(positions)) }

  /** A market's signed sizes, longs less shorts. */
  ghost function MarketSize(positions: PositionTable, market: nat): int { Sum(SizeTable(positions, market)) }

  lemma WriteCollateral(accounts: Accounts, a: Account)
    ensures TotalCollateral(accounts[a.index := a])
         == TotalCollateral(accounts) + a.collateral - (if a.index in accounts then accounts[a.index].collateral else 0)
  {
    SumWrite(CollateralTable(accounts), a.index, a.collateral);
    assert CollateralTable(accounts[a.index := a]) == CollateralTable(accounts)[a.index := a.collateral];
  }

  lemma WriteHolding(accounts: Accounts, a: Account, pool: nat)
    ensures LpShares(accounts[a.index := a], pool)
         == LpShares(accounts, pool) + SharesIn(a.shares, pool)
            - (if a.index in accounts then SharesIn(accounts[a.index].shares, pool) else 0)
  {
    SumWrite(HoldingTable(accounts, pool), a.index, SharesIn(a.shares, pool));
    assert HoldingTable(accounts[a.index := a], pool)
        == HoldingTable(accounts, pool)[a.index := SharesIn(a.shares, pool)];
  }

  lemma WriteBalance(rows: Rows, r: AssetRow, x: nat)
    ensures var k := (r.account, r.asset);
            SpotTotal(rows[k := r], x) == SpotTotal(rows, x)
            + (if r.asset == x then r.balance - (if k in rows then rows[k].balance else 0) else 0)
  {
    var k := (r.account, r.asset);
    var v := if k.1 == x then r.balance else 0;
    SumWrite(BalanceTable(rows, x), k, v);
    assert BalanceTable(rows[k := r], x) == BalanceTable(rows, x)[k := v];
  }

  lemma WriteMargin(positions: PositionTable, p: Position)
    ensures var k := (p.account, p.market);
            TotalMargin(positions[k := p]) == TotalMargin(positions)
            + p.allocatedMargin - (if k in positions then positions[k].allocatedMargin else 0)
  {
    var k := (p.account, p.market);
    SumWrite(MarginTable(positions), k, p.allocatedMargin);
    assert MarginTable(positions[k := p]) == MarginTable(positions)[k := p.allocatedMargin];
  }

  lemma WriteEntry(positions: PositionTable, p: Position)
    ensures var k := (p.account, p.market);
            TotalEntry(positions[k := p]) == TotalEntry(positions)
            + p.entryQuote - (if k in positions then positions[k].entryQuote else 0)
  {
    var k := (p.account, p.market);
    SumWrite(EntryTable(positions), k, p.entryQuote);
    assert EntryTable(positions[k := p]) == EntryTable(positions)[k := p.entryQuote];
  }

  lemma WriteSize(positions: PositionTable, p: Position, market: nat)
    ensures var k := (p.account, p.market);
            MarketSize(positions[k := p], market) == MarketSize(positions, market)
            + (if p.market == market then p.baseSize - (if k in positions then positions[k].baseSize else 0) else 0)
  {
    var k := (p.account, p.market);
    var v := if k.1 == market then p.baseSize else 0;
    SumWrite(SizeTable(positions, market), k, v);
    assert SizeTable(positions[k := p], market) == SizeTable(positions, market)[k := v];
  }

  // ---------- share entries ----------

  ghost predicate EntriesOk(shares: seq<Share>) {
    && |shares| <= SHARES_LIST_SIZE
    && (forall i :: 0 <= i < |shares| ==> 0 < shares[i].amount && 0 <= shares[i].principal)
    && (forall i, j :: 0 <= i < j < |shares| ==> shares[i].pool != shares[j].pool)
  }

  lemma {:induction false} SharesInAppend(a: seq<Share>, b: seq<Share>, pool: nat)
    ensures SharesIn(a + b, pool) == SharesIn(a, pool) + SharesIn(b, pool)
  {
    if a == [] {
      assert a + b == b;
    } else {
      assert (a + b)[1..] == a[1..] + b;
      SharesInAppend(a[1..], b, pool);
    }
  }

  /** Replacing entry `i` by a (possibly empty) list moves the holding by the difference. */
  lemma SharesInReplace(shares: seq<Share>, i: nat, mid: seq<Share>, pool: nat)
    requires i < |shares|
    ensures SharesIn(shares[..i] + mid + shares[i + 1..], pool)
         == SharesIn(shares, pool) - SharesIn([shares[i]], pool) + SharesIn(mid, pool)
  {
    assert shares == shares[..i] + [shares[i]] + shares[i + 1..];
    SharesInAppend(shares[..i] + [shares[i]], shares[i + 1..], pool);
    SharesInAppend(shares[..i], [shares[i]], pool);
    SharesInAppend(shares[..i] + mid, shares[i + 1..], pool);
    SharesInAppend(shares[..i], mid, pool);
  }

  lemma {:induction false} NoEntryNoShares(shares: seq<Share>, pool: nat)
    requires forall i :: 0 <= i < |shares| ==> shares[i].pool != pool
    ensures SharesIn(shares, pool) == 0
  {
    if shares != [] { NoEntryNoShares(shares[1..], pool); }
  }

  /** With one entry per pool, the holding is that entry's amount. */
  lemma HoldingIsEntry(shares: seq<Share>, pool: nat)
    requires EntriesOk(shares)
    ensures var i := FindShareEntry(shares, pool);
            SharesIn(shares, pool) == (if i < |shares| then shares[i].amount else 0)
  {
    var i := FindShareEntry(shares, pool);
    if i < |shares| {
      var rest := shares[..i] + [] + shares[i + 1..];
      SharesInReplace(shares, i, [], pool);
      NoEntryNoShares(rest, pool);
    } else {
      NoEntryNoShares(shares, pool);
    }
  }

  predicate HasEntry(shares: seq<Share>, pool: nat) {
    FindShareEntry(shares, pool) < |shares|
  }

  /** Every listed pool, except perhaps `also`, already had an entry. */
  ghost predicate PoolsWithin(s': seq<Share>, shares: seq<Share>, also: Option<nat>) {
    forall j :: 0 <= j < |s'| ==> Some(s'[j].pool) == also || HasEntry(shares, s'[j].pool)
  }

  lemma EntryFound(shares: seq<Share>, k: nat)
    requires k < |shares|
    ensures HasEntry(shares, shares[k].pool)
  {
  }

  lemma UpsertMoves(shares: seq<Share>, pool: nat, amount: int, principal: int, time: int, q: nat)
    requires EntriesOk(shares) && 0 < amount && 0 <= principal
    requires UpsertEntry(shares, pool, amount, principal, time).Ok?
    ensures var s' := UpsertEntry(shares, pool, amount, principal, time).value;
            && EntriesOk(s')
            && SharesIn(s', q) == SharesIn(shares, q) + (if q == pool then amount else 0)
            && PoolsWithin(s', shares, Some(pool))
  {
    var i := FindShareEntry(shares, pool);
    var s' := UpsertEntry(shares, pool, amount, principal, time).value;
    if i < |shares| {
      assert s' == shares[..i] + [s'[i]] + shares[i + 1..];
      SharesInReplace(shares, i, [s'[i]], q);
    } else {
      SharesInAppend(shares, [s'[i]], q);
    }
    forall j | 0 <= j < |s'| && s'[j].pool != pool ensures HasEntry(shares, s'[j].pool) {
      assert shares[j].pool == s'[j].pool;
      EntryFound(shares, j);
    }
  }

  /** Replacing an entry by one for the same pool, or removing it. */
  lemma ReplaceKeepsEntries(shares: seq<Share>, i: nat, mid: seq<Share>)
    requires EntriesOk(shares) && i < |shares| && |mid| <= 1
    requires mid != [] ==> mid[0].pool == shares[i].pool && 0 < mid[0].amount && 0 <= mid[0].principal
    ensures var s' := shares[..i] + mid + shares[i + 1..]; EntriesOk(s') && PoolsWithin(s', shares, None)
  {
    var s' := shares[..i] + mid + shares[i + 1..];
    forall j | 0 <= j < |s'|
      ensures 0 < s'[j].amount && 0 <= s'[j].principal
      ensures 0 <= Origin(i, mid, j) < |shares| && shares[Origin(i, mid, j)].pool == s'[j].pool
    {
      if j < i || i + |mid| <= j {
        assert s'[j] == shares[Origin(i, mid, j)];
      } else {
        assert s'[j] == mid[0];
      }
    }
    forall j, k | 0 <= j < k < |s'| ensures s'[j].pool != s'[k].pool {
      assert Origin(i, mid, j) < Origin(i, mid, k);
    }
    forall j | 0 <= j < |s'| ensures HasEntry(shares, s'[j].pool) {
      EntryFound(shares, Origin(i, mid, j));
    }
  }

  /** Where the `j`-th entry of the new list stood before entry `i` was replaced by `mid`. */
  function Origin(i: nat, mid: seq<Share>, j: int): int {
    if j < i then j else j + 1 - |mid|
  }

  lemma ReduceMoves(shares: seq<Share>, pool: nat, amount: int, q: nat)
    requires EntriesOk(shares) && 0 < amount && ReduceEntry(shares, pool, amount).Ok?
    ensures var s' := ReduceEntry(shares, pool, amount).value;
            && EntriesOk(s') && PoolsWithin(s', shares, None)
            && SharesIn(s', q) == SharesIn(shares, q) - (if q == pool then amount else 0)
  {
    hide PrincipalOf, PoolsWithin;
    var i := FindShareEntry(shares, pool);
    var e := shares[i];
    PrincipalBounds(e, amount);
    var e' := e.(amount := e.amount - amount, principal := e.principal - PrincipalOf(e, amount));
    var mid := if e'.amount == 0 then [] else [e'];
    assert ReduceEntry(shares, pool, amount).value == shares[..i] + mid + shares[i + 1..];
    SharesInReplace(shares, i, mid, q);
    ReplaceKeepsEntries(shares, i, mid);
  }

  // ---------- accounts and pools ----------

  predicate Idle(info: PoolInfo) {
    |info.strategies| == NB_STRATEGIES && forall i :: 0 <= i < NB_STRATEGIES ==> info.strategies[i] == 0
  }

  predicate IsPool(accounts: Accounts, p: nat) {
    p in accounts && accounts[p].info.Some?
  }

  /** One row on its own. */
  ghost predicate RowOk(a: Account) {
    && (a.IsPoolType() <==> a.info.Some?)
    && (a.info.Some? ==> InfoOk(a.info.value) && Idle(a.info.value))
    && EntriesOk(a.shares)
    && (a.shares != [] ==> a.kind.Master?)
  }

  /** Every entry of the row points at a pool. */
  ghost predicate EntriesPoint(accounts: Accounts, a: Account) {
    forall j :: 0 <= j < |a.shares| ==> IsPool(accounts, a.shares[j].pool)
  }

  ghost predicate AccountsOk(accounts: Accounts) {
    forall i :: i in accounts ==> accounts[i].index == i && RowOk(accounts[i]) && EntriesPoint(accounts, accounts[i])
  }

  /** Shares outstanding are the operator's plus every LP's, pool by pool. */
  ghost predicate SharesAddUp(accounts: Accounts) {
    forall p :: IsPool(accounts, p) ==>
      accounts[p].info.value.totalShares == accounts[p].info.value.operatorShares + LpShares(accounts, p)
  }

  /** Nobody's row changed hands: same accounts, owners, masters and roles. */
  ghost predicate SameIdentity(m: Accounts, m': Accounts) {
    && m.Keys == m'.Keys
    && forall i :: i in m ==>
         && m'[i].index == m[i].index && m'[i].master == m[i].master
         && m'[i].owner == m[i].owner && m'[i].kind == m[i].kind
  }

  /** Rewriting a row in place, keeping its identity and whether it is a pool. */
  predicate Rewrites(accounts: Accounts, a: Account) {
    && a.index in accounts
    && var o := accounts[a.index];
       o.index == a.index && o.master == a.master && o.owner == a.owner && o.kind == a.kind
       && o.info.Some? == a.info.Some?
  }

  lemma RewriteKeepsRows(accounts: Accounts, a: Account)
    requires AccountsOk(accounts) && Rewrites(accounts, a) && RowOk(a) && EntriesPoint(accounts, a)
    ensures AccountsOk(accounts[a.index := a]) && SameIdentity(accounts, accounts[a.index := a])
  {
    hide RowOk;
    var m' := accounts[a.index := a];
    assert forall p :: IsPool(accounts, p) ==> IsPool(m', p);
    forall i | i in m' ensures m'[i].index == i && RowOk(m'[i]) && EntriesPoint(m', m'[i]) {
      assert EntriesPoint(accounts, m'[i]);
    }
  }

  /** Writing a row that only moves collateral and settings. */
  lemma RewriteKeepsShares(accounts: Accounts, a: Account)
    requires AccountsOk(accounts) && SharesAddUp(accounts) && Rewrites(accounts, a)
    requires a.shares == accounts[a.index].shares && a.info == accounts[a.index].info
    ensures var m' := accounts[a.index := a];
            AccountsOk(m') && SharesAddUp(m') && SameIdentity(accounts, m')
  {
    var m' := accounts[a.index := a];
    assert RowOk(a) && EntriesPoint(accounts, a) by {
      assert RowOk(accounts[a.index]) && EntriesPoint(accounts, accounts[a.index]);
    }
    RewriteKeepsRows(accounts, a);
    forall p: nat | IsPool(m', p)
      ensures m'[p].info.value.totalShares == m'[p].info.value.operatorShares + LpShares(m', p)
    {
      WriteHolding(accounts, a, p);
      assert IsPool(accounts, p);
    }
  }

  /** The row of `a` moves its holding in `b`'s pool by `d` and in no other pool. */
  ghost predicate HoldingMoves(accounts: Accounts, a: Account, pool: nat, d: int)
    requires a.index in accounts
  {
    forall q :: SharesIn(a.shares, q) == SharesIn(accounts[a.index].shares, q) + if q == pool then d else 0
  }

  lemma PoolMoveAt(accounts: Accounts, a: Account, b: Account, d: int, p: nat)
    requires Rewrites(accounts, a) && Rewrites(accounts, b) && a.index != b.index
    requires a.info == accounts[a.index].info && b.shares == accounts[b.index].shares && b.info.Some?
    requires IsPool(accounts, p)
    requires SharesIn(a.shares, p) == SharesIn(accounts[a.index].shares, p) + if p == b.index then d else 0
    requires accounts[p].info.value.totalShares == accounts[p].info.value.operatorShares + LpShares(accounts, p)
    requires var was := accounts[b.index].info.value;
             b.info.value.totalShares - b.info.value.operatorShares == was.totalShares - was.operatorShares + d
    ensures var m' := accounts[a.index := a][b.index := b];
            IsPool(m', p) && m'[p].info.value.totalShares == m'[p].info.value.operatorShares + LpShares(m', p)
  {
    WriteHolding(accounts, a, p);
    WriteHolding(accounts[a.index := a], b, p);
    hide SharesIn, LpShares;
  }

  /**
   * A mint or a burn: the holder's row changes its collateral and its entries,
   * the pool's row its collateral and its record, and the LP shares move by `d`.
   */
  lemma PoolMoveKeepsShares(accounts: Accounts, a: Account, b: Account, d: int)
    requires AccountsOk(accounts) && SharesAddUp(accounts)
    requires Rewrites(accounts, a) && Rewrites(accounts, b) && a.index != b.index
    requires a.info == accounts[a.index].info && b.shares == accounts[b.index].shares && b.info.Some?
    requires RowOk(a) && RowOk(b) && EntriesPoint(accounts, a) && HoldingMoves(accounts, a, b.index, d)
    requires var was := accounts[b.index].info.value;
             b.info.value.totalShares - b.info.value.operatorShares == was.totalShares - was.operatorShares + d
    ensures var m' := accounts[a.index := a][b.index := b];
            && AccountsOk(m') && SharesAddUp(m') && SameIdentity(accounts, m')
            && TotalCollateral(m') == TotalCollateral(accounts)
                 + a.collateral - accounts[a.index].collateral + b.collateral - accounts[b.index].collateral
  {
    var m' := accounts[a.index := a][b.index := b];
    TwoRewritesKeepRows(accounts, a, b);
    WriteCollateral(accounts, a);
    WriteCollateral(accounts[a.index := a], b);
    hide AccountsOk, RowOk, EntriesPoint, SameIdentity, SharesIn, LpShares, TotalCollateral;
    forall p: nat | IsPool(m', p)
      ensures m'[p].info.value.totalShares == m'[p].info.value.operatorShares + LpShares(m', p)
    {
      assert IsPool(accounts, p);
      PoolMoveAt(accounts, a, b, d, p);
    }
  }

  lemma TwoRewritesKeepRows(accounts: Accounts, a: Account, b: Account)
    requires AccountsOk(accounts) && Rewrites(accounts, a) && Rewrites(accounts, b) && a.index != b.index
    requires RowOk(a) && RowOk(b) && EntriesPoint(accounts, a) && b.shares == accounts[b.index].shares
    ensures var m' := accounts[a.index := a][b.index := b];
            AccountsOk(m') && SameIdentity(accounts, m')
  {
    hide RowOk;
    var m1 := accounts[a.index := a];
    RewriteKeepsRows(accounts, a);
    assert EntriesPoint(m1, b) by { assert EntriesPoint(m1, m1[b.index]); }
    RewriteKeepsRows(m1, b);
  }

  /** A pool nobody points at has no LP shares. */
  lemma FreshPoolHasNoShares(accounts: Accounts, p: nat)
    requires AccountsOk(accounts) && p !in accounts
    ensures LpShares(accounts, p) == 0
  {
    forall i | i in accounts ensures SharesIn(accounts[i].shares, p) == 0 {
      assert EntriesPoint(accounts, accounts[i]);
      NoEntryNoShares(accounts[i].shares, p);
    }
    SumZero(HoldingTable(accounts, p));
  }

  lemma CreateKeepsRows(accounts: Accounts, a: Account)
    requires AccountsOk(accounts) && a.index !in accounts && RowOk(a) && a.shares == []
    ensures AccountsOk(accounts[a.index := a])
  {
    hide RowOk;
    var m' := accounts[a.index := a];
    assert forall p :: IsPool(accounts, p) ==> IsPool(m', p);
    forall i | i in m' ensures m'[i].index == i && RowOk(m'[i]) && EntriesPoint(m', m'[i]) {
      assert i != a.index ==> EntriesPoint(accounts, accounts[i]);
    }
  }

  lemma CreateKeepsShares(accounts: Accounts, a: Account)
    requires AccountsOk(accounts) && SharesAddUp(accounts) && a.index !in accounts
    requires RowOk(a) && a.shares == []
    requires a.info.Some? ==> a.info.value.totalShares == a.info.value.operatorShares
    ensures AccountsOk(accounts[a.index := a]) && SharesAddUp(accounts[a.index := a])
  {
    CreateKeepsRows(accounts, a);
    hide AccountsOk, RowOk, LpShares;
    var m' := accounts[a.index := a];
    forall p: nat | IsPool(m', p)
      ensures m'[p].info.value.totalShares == m'[p].info.value.operatorShares + LpShares(m', p)
    {
      WriteHolding(accounts, a, p);
      if p == a.index { FreshPoolHasNoShares(accounts, p); } else { assert IsPool(accounts, p); }
    }
  }

  /** An account's entry never exceeds the pool's LP shares, so a burn of it cannot overdraw the total. */
  lemma EntryWithinTotal(accounts: Accounts, m: nat, pool: nat)
    requires AccountsOk(accounts) && SharesAddUp(accounts) && m in accounts && IsPool(accounts, pool)
    ensures SharesIn(accounts[m].shares, pool)
         <= accounts[pool].info.value.totalShares - accounts[pool].info.value.operatorShares
  {
    forall i | i in accounts ensures 0 <= SharesIn(accounts[i].shares, pool) {
      HoldingIsEntry(accounts[i].shares, pool);
    }
    SumBounds(HoldingTable(accounts, pool));
    assert HoldingTable(accounts, pool)[m] == SharesIn(accounts[m].shares, pool);
  }

  // ---------- index allocation and secondary indices ----------

  /** Masters and the insurance fund live below the sub-account floor, everything else above it. */
  predicate InRange(a: Account, nextMaster: nat, nextSub: nat) {
    if a.kind.Master? || a.kind.InsuranceFund? then a.index < nextMaster
    else MIN_SUB_INDEX <= a.index < nextSub
  }

  predicate Indexed(a: Account) {
    !a.kind.Master? && a.master != NIL_MASTER
  }

  ghost predicate CountersOk(st: State) {
    && FIRST_USER_MASTER <= st.nextMaster <= MAX_MASTER_INDEX + 1
    && MIN_SUB_INDEX <= st.nextSub <= MAX_ACCOUNT_INDEX + 1
    && forall i :: i in st.accounts ==> InRange(st.accounts[i], st.nextMaster, st.nextSub)
  }

  /** The owner index is exactly the map of owned masters. */
  ghost predicate OwnersOk(accounts: Accounts, owners: map<string, nat>) {
    && (forall o :: o in owners ==> owners[o] in accounts && accounts[owners[o]].kind.Master?
                                    && accounts[owners[o]].owner == o && o != "")
    && (forall i :: i in accounts && accounts[i].kind.Master? && accounts[i].owner != "" ==>
          accounts[i].owner in owners && owners[accounts[i].owner] == i)
  }

  /** The sub-account index is exactly a filtered scan of the table. */
  ghost predicate SubsOk(accounts: Accounts, subs: set<(nat, nat)>) {
    && (forall k :: k in subs ==> k.1 in accounts && Indexed(accounts[k.1]) && accounts[k.1].master == k.0)
    && (forall i :: i in accounts && Indexed(accounts[i]) ==> (accounts[i].master, i) in subs)
  }

  ghost predicate IndexOk(st: State) {
    CountersOk(st) && OwnersOk(st.accounts, st.owners) && SubsOk(st.accounts, st.subs)
  }

  lemma IndexFrame(st: State, st': State)
    requires IndexOk(st) && AccountsOk(st.accounts) && SameIdentity(st.accounts, st'.accounts)
    requires st'.owners == st.owners && st'.subs == st.subs
    requires st'.nextMaster == st.nextMaster && st'.nextSub == st.nextSub
    ensures IndexOk(st')
  {
    OwnersFrame(st.accounts, st'.accounts, st.owners);
    SubsFrame(st.accounts, st'.accounts, st.subs);
    hide OwnersOk, SubsOk;
  }

  lemma OwnersFrame(m: Accounts, m': Accounts, owners: map<string, nat>)
    requires OwnersOk(m, owners) && SameIdentity(m, m')
    ensures OwnersOk(m', owners)
  {
  }

  lemma SubsFrame(m: Accounts, m': Accounts, subs: set<(nat, nat)>)
    requires SubsOk(m, subs) && SameIdentity(m, m')
    ensures SubsOk(m', subs)
  {
  }

  /** The next index of either sequence is unused, as long as the master range is not exhausted. */
  lemma NextIndexUnused(st: State)
    requires IndexOk(st) && AccountsOk(st.accounts)
    ensures st.nextMaster <= MAX_MASTER_INDEX ==> st.nextMaster !in st.accounts
    ensures st.nextSub !in st.accounts
  {
  }

  lemma CreateKeepsOwners(accounts: Accounts, owners: map<string, nat>, a: Account)
    requires OwnersOk(accounts, owners) && a.index !in accounts
    requires a.kind.Master? && a.owner != "" ==> a.owner !in owners
    ensures OwnersOk(accounts[a.index := a],
                     if a.owner != "" && a.kind.Master? then owners[a.owner := a.index] else owners)
  {
  }

  lemma CreateKeepsSubs(accounts: Accounts, subs: set<(nat, nat)>, a: Account)
    requires SubsOk(accounts, subs) && a.index !in accounts
    ensures SubsOk(accounts[a.index := a],
                   if !a.kind.Master? && a.master != NIL_MASTER then subs + {(a.master, a.index)} else subs)
  {
  }

  lemma CreateMasterKeepsIndex(st: State, a: Account)
    requires IndexOk(st) && AccountsOk(st.accounts)
    requires a.index == st.nextMaster <= MAX_MASTER_INDEX
    requires a.kind.Master? && a.owner !in st.owners
    ensures IndexOk(st.(nextMaster := st.nextMaster + 1).CreateAccount(a))
  {
    NextIndexUnused(st);
    hide AccountsOk, OwnersOk, SubsOk;
    CreateKeepsOwners(st.accounts, st.owners, a);
    CreateKeepsSubs(st.accounts, st.subs, a);
  }

  lemma CreateSubKeepsIndex(st: State, a: Account)
    requires IndexOk(st) && AccountsOk(st.accounts)
    requires a.index == st.nextSub <= MAX_ACCOUNT_INDEX
    requires a.kind.Sub? || a.kind.PublicPool?
    ensures IndexOk(st.(nextSub := st.nextSub + 1).CreateAccount(a))
  {
    NextIndexUnused(st);
    hide AccountsOk, OwnersOk, SubsOk;
    CreateKeepsOwners(st.accounts, st.owners, a);
    CreateKeepsSubs(st.accounts, st.subs, a);
  }

  // ---------- spot rows, positions, metas ----------

  ghost predicate RowsOk(rows: Rows) {
    forall k :: k in rows ==>
      rows[k].account == k.0 && rows[k].asset == k.1 && 0 <= rows[k].locked <= rows[k].balance
  }

  ghost predicate PositionsOk(positions: PositionTable) {
    forall k :: k in positions ==>
      positions[k].account == k.0 && positions[k].market == k.1 && P.Flat(positions[k])
  }

  ghost predicate MetasOk(metas: map<nat, Meta>) {
    forall i :: i in metas ==> metas[i].account == i
  }

  // ---------- assets and solvency ----------

  /** Unique denoms, an exact denom index, and USDC as the only margin asset. */
  ghost predicate AssetsOk(st: State) {
    && USDC in st.assets
    && (forall x :: x in st.assets ==>
          && st.assets[x].index == x && x < st.nextAsset
          && st.assets[x].denom in st.denoms && st.denoms[st.assets[x].denom] == x
          && (st.assets[x].margin <==> x == USDC))
    && (forall d :: d in st.denoms ==> st.denoms[d] in st.assets && st.assets[st.denoms[d]].denom == d)
  }

  /** No two assets answer to the same display name, blank names aside. */
  ghost predicate NamesOk(assets: map<nat, Asset>) {
    forall x, y :: x in assets && y in assets && x != y && Fold(assets[x].displayName) != "" ==>
      Fold(assets[x].displayName) != Fold(assets[y].displayName)
  }

  /** The module holds coins of registered denoms only. */
  ghost predicate CoinsOk(st: State) {
    forall d :: d !in st.denoms ==> st.Coins(d) == 0
  }

  /** What the module owes in an asset: spot balances, and for USDC all collateral and isolated margin. */
  ghost function Owed(st: State, x: nat): int {
    SpotTotal(st.rows, x)
    + if x == USDC then TotalCollateral(st.accounts) + TotalMargin(st.positions) else 0
  }

  /** The module's coins of an asset at internal precision. */
  function Backing(st: State, x: nat): int {
    if x in st.assets then st.Coins(st.assets[x].denom) * st.assets[x].multiplier else 0
  }

  /** What is owed beyond the coins that back it. */
  ghost function Gap(st: State, x: nat): int {
    Owed(st, x) - Backing(st, x)
  }

  /** The module's coins are exactly what it owes, asset by asset. */
  ghost predicate Solvent(st: State) {
    forall x :: Gap(st, x) == 0
  }

  lemma Distributes(a: int, b: int, k: int)
    ensures (a + b) * k == a * k + b * k
  {
  }

  lemma DenomsDiffer(st: State, x: nat, y: nat)
    requires AssetsOk(st) && x in st.assets && y in st.assets && x != y
    ensures st.assets[x].denom != st.assets[y].denom
  {
  }

  // ---------- the invariant ----------

  /** What every message keeps, perp fills included. */
  ghost predicate Core(st: State) {
    && AccountsOk(st.accounts) && SharesAddUp(st.accounts) && IndexOk(st)
    && RowsOk(st.rows) && PositionsOk(st.positions) && MetasOk(st.metas)
    && AssetsOk(st) && NamesOk(st.assets) && CoinsOk(st)
  }
}

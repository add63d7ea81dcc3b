// Genesis: the default boot state, and export followed by import.
module Genesis {
  import opened Types
  import opened Store
  import opened Sums
  import opened Invariants

  datatype GenesisState = GenesisState(
    params: Params,
    nextMaster: nat,
    nextSub: nat,
    accounts: seq<Account>,
    rows: seq<AssetRow>,
    positions: seq<Position>,
    metas: seq<Meta>)

  // ---------- import ----------

  function ImportAccounts(st: State, accounts: seq<Account>): State {
    if accounts == [] then st
    else ImportAccounts(st, accounts[..|accounts| - 1]).CreateAccount(accounts[|accounts| - 1])
  }

  /** Writes listed values into a table, each under its own key. */
  function Fill<K, V>(m: map<K, V>, values: seq<V>, key: V -> K): map<K, V> {
    if values == [] then m
    else var v := values[|values| - 1]; Fill(m, values[..|values| - 1], key)[key(v) := v]
  }

  function RowKey(r: AssetRow): (nat, nat) { (r.account, r.asset) }

  function PositionKey(p: Position): (nat, nat) { (p.account, p.market) }

  function MetaKey(m: Meta): nat { m.account }

  function AccountKey(a: Account): nat { a.index }

  /** Counters below their floors are lifted to them. */
  function InitGenesis(st: State, gs: GenesisState): State {
    ImportAccounts(st, gs.accounts).(
      params := gs.params,
      rows := Fill(st.rows, gs.rows, RowKey),
      positions := Fill(st.positions, gs.positions, PositionKey),
      metas := Fill(st.metas, gs.metas, MetaKey),
      nextMaster := Max(gs.nextMaster, FIRST_USER_MASTER),
      nextSub := Max(gs.nextSub, MIN_SUB_INDEX))
  }

  // ---------- export ----------

  /** The keys in the order in which their rows are listed. */
  ghost predicate ListsBy<K(!new), V(!new)>(m: map<K, V>, values: seq<V>, ks: seq<K>) {
    && |ks| == |values|
    && (forall i, j :: 0 <= i < j < |ks| ==> ks[i] != ks[j])
    && (forall k :: k in ks <==> k in m)
    && (forall i :: 0 <= i < |ks| ==> values[i] == m[ks[i]])
  }

  /** The list holds every row of the table, once. */
  ghost predicate Lists<K(!new), V(!new)>(m: map<K, V>, values: seq<V>) {
    exists ks :: ListsBy(m, values, ks)
  }

  /** Every row is filed under its own key. */
  ghost predicate Keyed<K(!new), V(!new)>(m: map<K, V>, key: V -> K) {
    forall k :: k in m ==> key(m[k]) == k
  }

  /** A document exported from the account module's stores. */
  ghost predicate Exports(st: State, gs: GenesisState) {
    && gs.params == st.params && gs.nextMaster == st.nextMaster && gs.nextSub == st.nextSub
    && Lists(st.accounts, gs.accounts)
    && Lists(st.rows, gs.rows)
    && Lists(st.positions, gs.positions)
    && Lists(st.metas, gs.metas)
  }

  /** The account module wiped, everything else as it was. */
  function Wiped(st: State): State {
    st.(accounts := map[], owners := map[], subs := {}, rows := map[], positions := map[], metas := map[],
        params := Params(0, 0, 0, 0, 0, 0), nextMaster := 0, nextSub := 0)
  }

  // ---------- the round trip ----------

  lemma {:induction false} FillHolds<K, V>(m: map<K, V>, values: seq<V>, key: V -> K)
    requires forall i :: 0 <= i < |values| ==> key(values[i]) in m && m[key(values[i])] == values[i]
    ensures forall k :: k in Fill(map[], values, key) <==> exists i :: 0 <= i < |values| && key(values[i]) == k
    ensures forall k :: k in Fill(map[], values, key) ==> k in m && Fill(map[], values, key)[k] == m[k]
    decreases |values|
  {
    if values != [] {
      var n := |values| - 1;
      var front := values[..n];
      FillHolds(m, front, key);
      forall k ensures k in Fill(map[], values, key) <==> exists i :: 0 <= i < |values| && key(values[i]) == k {
        if k in Fill(map[], front, key) {
          var i :| 0 <= i < |front| && key(front[i]) == k;
          assert key(values[i]) == k;
        }
        if i :| 0 <= i < |values| && key(values[i]) == k {
          if i < n { assert key(front[i]) == k; }
        }
        if k == key(values[n]) { assert 0 <= n < |values| && key(values[n]) == k; }
      }
    }
  }

  /** Filling an empty table from a complete list restores the table. */
  lemma FillRestores<K(!new), V(!new)>(m: map<K, V>, values: seq<V>, key: V -> K)
    requires Lists(m, values) && Keyed(m, key)
    ensures Fill(map[], values, key) == m
  {
    var ks :| ListsBy(m, values, ks);
    assert forall i :: 0 <= i < |values| ==> ks[i] in ks;
    FillHolds(m, values, key);
    forall k | k in m ensures k in Fill(map[], values, key) {
      var i :| 0 <= i < |ks| && ks[i] == k;
      assert key(values[i]) == k;
    }
  }

  /** Import writes account rows and the two indices, nothing else. */
  lemma {:induction false} ImportWrites(st: State, accounts: seq<Account>)
    ensures var st' := ImportAccounts(st, accounts);
            && st' == st.(accounts := st'.accounts, owners := st'.owners, subs := st'.subs)
            && st'.accounts == Fill(st.accounts, accounts, AccountKey)
    decreases |accounts|
  {
    if accounts != [] { ImportWrites(st, accounts[..|accounts| - 1]); }
  }

  /** The listed rows are distinct rows of the table. */
  ghost predicate Excerpt(m: Accounts, accounts: seq<Account>) {
    && (forall i :: 0 <= i < |accounts| ==> AccountKey(accounts[i]) in m && m[AccountKey(accounts[i])] == accounts[i])
    && (forall i, j :: 0 <= i < j < |accounts| ==> AccountKey(accounts[i]) != AccountKey(accounts[j]))
  }

  lemma ExcerptSplits(m: Accounts, accounts: seq<Account>)
    requires Excerpt(m, accounts) && accounts != []
    ensures var n := |accounts| - 1;
            var front, a := accounts[..n], accounts[n];
            && Excerpt(m, front) && a.index in m && m[a.index] == a
            && forall i :: 0 <= i < |front| ==> AccountKey(front[i]) != a.index
  {
  }

  lemma EmptyIndices()
    ensures OwnersOk(map[], map[]) && SubsOk(map[], {})
  {
  }

  /** Import rebuilds exact secondary indices, whatever the order of the rows. */
  lemma {:induction false} ImportRebuildsIndices(st: State, empty: State, accounts: seq<Account>)
    requires OwnersOk(st.accounts, st.owners) && Excerpt(st.accounts, accounts)
    requires empty.accounts == map[] && empty.owners == map[] && empty.subs == {}
    ensures var st' := ImportAccounts(empty, accounts);
            OwnersOk(st'.accounts, st'.owners) && SubsOk(st'.accounts, st'.subs)
    decreases |accounts|
  {
    hide OwnersOk, SubsOk, Excerpt;
    if accounts == [] {
      EmptyIndices();
    } else {
      var front, a := accounts[..|accounts| - 1], accounts[|accounts| - 1];
      ExcerptSplits(st.accounts, accounts);
      ImportRebuildsIndices(st, empty, front);
      var mid := ImportAccounts(empty, front);
      PrefixTable(st.accounts, empty, front);
      FreshInPrefix(st, mid.accounts, mid.owners, front, a);
      CreateKeepsOwners(mid.accounts, mid.owners, a);
      CreateKeepsSubs(mid.accounts, mid.subs, a);
    }
  }

  lemma PrefixTable(m: Accounts, empty: State, front: seq<Account>)
    requires Excerpt(m, front) && empty.accounts == map[]
    ensures var built := ImportAccounts(empty, front).accounts;
            && (forall k :: k in built <==> exists i :: 0 <= i < |front| && AccountKey(front[i]) == k)
            && (forall k :: k in built ==> k in m && built[k] == m[k])
  {
    ImportWrites(empty, front);
    FillHolds(m, front, AccountKey);
  }

  /** The next listed row is new to the table built so far, and so is its owner to the owner index. */
  lemma FreshInPrefix(st: State, m: Accounts, owners: map<string, nat>, front: seq<Account>, a: Account)
    requires OwnersOk(st.accounts, st.owners) && OwnersOk(m, owners)
    requires forall k :: k in m <==> exists i :: 0 <= i < |front| && AccountKey(front[i]) == k
    requires forall k :: k in m ==> k in st.accounts && m[k] == st.accounts[k]
    requires a.index in st.accounts && st.accounts[a.index] == a
    requires forall i :: 0 <= i < |front| ==> AccountKey(front[i]) != a.index
    ensures a.index !in m
    ensures a.kind.Master? && a.owner != "" ==> a.owner !in owners
  {
  }

  /** Exact indices are determined by the table. */
  lemma IndicesDetermined(m: Accounts, o1: map<string, nat>, o2: map<string, nat>, s1: set<(nat, nat)>,
        s2: set<(nat, nat)>)
    requires OwnersOk(m, o1) && OwnersOk(m, o2) && SubsOk(m, s1) && SubsOk(m, s2)
    ensures o1 == o2 && s1 == s2
  {
    assert forall o :: o in o1 ==> o in o2 && o1[o] == o2[o];
    assert forall o :: o in o2 ==> o in o1;
    assert forall k :: k in s1 ==> k in s2;
    assert forall k :: k in s2 ==> k in s1;
  }

  /**
   * Export then import into an empty store reproduces every reachable state of
   * the account module: rows, balances, positions, metas, params, counters (the
   * floor coercions are identities) and both rebuilt indices.
   */
  lemma ExportImportRoundTrip(st: State, gs: GenesisState)
    requires Core(st) && Exports(st, gs)
    ensures InitGenesis(Wiped(st), gs) == st
  {
    hide Core, Lists;
    TablesAreKeyed(st);
    CountersAreLifted(st);
    var empty := Wiped(st);
    ImportWrites(empty, gs.accounts);
    FillRestores(st.accounts, gs.accounts, AccountKey);
    FillRestores(st.rows, gs.rows, RowKey);
    FillRestores(st.positions, gs.positions, PositionKey);
    FillRestores(st.metas, gs.metas, MetaKey);
    ListIsExcerpt(st.accounts, gs.accounts);
    ImportRebuildsIndices(st, empty, gs.accounts);
    var st' := ImportAccounts(empty, gs.accounts);
    IndicesDetermined(st.accounts, st'.owners, st.owners, st'.subs, st.subs);
  }

  lemma CountersAreLifted(st: State)
    requires Core(st)
    ensures FIRST_USER_MASTER <= st.nextMaster && MIN_SUB_INDEX <= st.nextSub
    ensures OwnersOk(st.accounts, st.owners) && SubsOk(st.accounts, st.subs)
  {
  }

  lemma ListIsExcerpt(m: Accounts, accounts: seq<Account>)
    requires Lists(m, accounts) && Keyed(m, AccountKey)
    ensures Excerpt(m, accounts)
  {
    var ks :| ListsBy(m, accounts, ks);
    forall i | 0 <= i < |accounts| ensures AccountKey(accounts[i]) == ks[i] && ks[i] in m {
      assert ks[i] in ks;
    }
  }

  /** Every table files its rows under their own keys. */
  lemma TablesAreKeyed(st: State)
    requires Core(st)
    ensures Keyed(st.accounts, AccountKey) && Keyed(st.rows, RowKey)
    ensures Keyed(st.positions, PositionKey) && Keyed(st.metas, MetaKey)
  {
    hide SharesAddUp, IndexOk, AssetsOk, NamesOk, CoinsOk, RowOk, EntriesPoint;
  }

  // ---------- boot ----------

  const NO_STRATEGIES: seq<int> := [0, 0, 0, 0, 0, 0, 0, 0]

  /** x/account's default document: the treasury and the insurance-fund pool. */
  function DefaultGenesis(): GenesisState {
    GenesisState(
      Params(TREASURY, INSURANCE_FUND, MIN_PARTIAL_AMOUNT, MIN_PARTIAL_AMOUNT, INSURANCE_FUND, LLP_COOLDOWN_MS),
      FIRST_USER_MASTER, MIN_SUB_INDEX,
      [Account(TREASURY, NIL_MASTER, "", Master, 0, 0, 0, 0, [], None),
       Account(INSURANCE_FUND, NIL_MASTER, "", InsuranceFund, 1, 0, 0, 0, [],
               Some(PoolInfo(ACTIVE, 0, 0, 0, 0, NO_STRATEGIES)))],
      [], [], [])
  }

  /** The stores before the account module boots: x/asset has seeded USDC, the bank holds nothing for the module. */
  function Seeded(authority: string): State {
    State(authority, map[], map[], {}, map[], map[], map[], Params(0, 0, 0, 0, 0, 0), 0, 0, map[],
          map[USDC := Asset(USDC, USDC_DENOM, USDC_DISPLAY_NAME, 6, USDC_TO_COLLATERAL, MIN_PARTIAL_AMOUNT,
                            MIN_PARTIAL_AMOUNT, true, true)],
          map[USDC_DENOM := USDC], USDC + 1, 62)
  }

  function Boot(authority: string): State {
    InitGenesis(Seeded(authority), DefaultGenesis())
  }

  lemma BootRows(authority: string)
    ensures var st := Boot(authority);
            && st.accounts == map[TREASURY := DefaultGenesis().accounts[0],
                                 INSURANCE_FUND := DefaultGenesis().accounts[1]]
            && st == Seeded(authority).(accounts := st.accounts, params := DefaultGenesis().params,
                                        nextMaster := FIRST_USER_MASTER, nextSub := MIN_SUB_INDEX)
  {
    var seeded, list := Seeded(authority), DefaultGenesis().accounts;
    assert list[..1] == [list[0]] && list[..1][..0] == [];
    assert ImportAccounts(seeded, list[..1]) == seeded.CreateAccount(list[0]);
    assert ImportAccounts(seeded, list) == seeded.CreateAccount(list[0]).CreateAccount(list[1]);
  }

  lemma BootAccounts(accounts: Accounts)
    requires accounts == map[TREASURY := DefaultGenesis().accounts[0], INSURANCE_FUND := DefaultGenesis().accounts[1]]
    ensures AccountsOk(accounts) && SharesAddUp(accounts)
    ensures OwnersOk(accounts, map[]) && SubsOk(accounts, {})
  {
    BootHolds(accounts);
  }

  /** The invariant holds at boot, the books are balanced, and no position is open. */
  lemma BootIsOk(authority: string)
    ensures Core(Boot(authority)) && Solvent(Boot(authority)) && TotalEntry(Boot(authority).positions) == 0
  {
    hide AccountsOk, SharesAddUp, OwnersOk, SubsOk, Boot;
    BootRows(authority);
    var st := Boot(authority);
    BootAccounts(st.accounts);
    BootOwesNothing(st);
    SumZero(EntryTable(st.positions));
    hide Owed, TotalEntry;
  }

  lemma BootHolds(accounts: Accounts)
    requires forall i :: i in accounts ==> accounts[i].shares == []
    ensures forall p :: LpShares(accounts, p) == 0
  {
    forall p: nat ensures LpShares(accounts, p) == 0 { SumZero(HoldingTable(accounts, p)); }
  }

  lemma BootOwesNothing(st: State)
    requires st.rows == map[] && st.positions == map[] && forall i :: i in st.accounts ==> st.accounts[i].collateral == 0
    ensures forall x :: Owed(st, x) == 0
  {
    SumZero(CollateralTable(st.accounts));
    SumZero(MarginTable(st.positions));
    forall x: nat ensures SpotTotal(st.rows, x) == 0 { SumZero(BalanceTable(st.rows, x)); }
  }
}

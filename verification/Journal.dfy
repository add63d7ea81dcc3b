// The journal of a message: every amount it moves, book by book.  The stores
// change by exactly the journal, in every balance of every account.
module Journals {
  import opened Types
  import opened Store
  import opened Assets
  import opened Funding
  import opened Trades
  import opened Messages
  import opened Invariants
  import opened Flows
  import opened Preservation
  import opened Delivery

  // ---------- books ----------

  /** Where an amount can be held: cross collateral, a spot balance, its locked part, isolated margin, module coins. */
  datatype Book =
    | Cash(account: nat)
    | Balance(account: nat, asset: nat)
    | Lock(account: nat, asset: nat)
    | Isolated(account: nat, market: nat)
    | Coin(denom: string)

  function Held(st: State, b: Book): int {
    match b
    case Cash(i) => if i in st.accounts then st.accounts[i].collateral else 0
    case Balance(i, x) => st.GetRow(i, x).balance
    case Lock(i, x) => st.GetRow(i, x).locked
    case Isolated(i, k) => st.GetPosition(i, k).allocatedMargin
    case Coin(d) => st.Coins(d)
  }

  datatype Posting = Posting(book: Book, amount: int)

  /** What a journal moves in one book. */
  function Moved(j: seq<Posting>, b: Book): int {
    if j == [] then 0
    else Moved(j[..|j| - 1], b) + if j[|j| - 1].book == b then j[|j| - 1].amount else 0
  }

  /** Every book changed by exactly what the journal moves in it. */
  ghost predicate Posts(st: State, st': State, j: seq<Posting>) {
    forall b :: Held(st', b) == Held(st, b) + Moved(j, b)
  }

  lemma {:induction false} MovedOn(j1: seq<Posting>, j2: seq<Posting>, b: Book)
    ensures Moved(j1 + j2, b) == Moved(j1, b) + Moved(j2, b)
    decreases |j2|
  {
    if j2 == [] {
      assert j1 + j2 == j1;
    } else {
      MovedOn(j1, j2[..|j2| - 1], b);
      assert (j1 + j2)[..|j1 + j2| - 1] == j1 + j2[..|j2| - 1];
    }
  }

  lemma PostsOn(st: State, st1: State, st2: State, j1: seq<Posting>, j2: seq<Posting>)
    requires Posts(st, st1, j1) && Posts(st1, st2, j2)
    ensures Posts(st, st2, j1 + j2)
  {
    hide Held;
    forall b ensures Held(st2, b) == Held(st, b) + Moved(j1 + j2, b) {
      MovedOn(j1, j2, b);
      assert Held(st1, b) == Held(st, b) + Moved(j1, b);
    }
  }

  /** Two steps of one posting each. */
  lemma PostsBoth(st: State, st1: State, st2: State, p: Posting, q: Posting)
    requires Posts(st, st1, [p]) && Posts(st1, st2, [q])
    ensures Posts(st, st2, [p, q])
  {
    hide Posts;
    PostsOn(st, st1, st2, [p], [q]);
    assert [p] + [q] == [p, q];
  }

  /** A step that moves nothing, before or after others. */
  lemma PostsAround(st: State, st1: State, st2: State, j: seq<Posting>)
    ensures Posts(st, st1, []) && Posts(st1, st2, j) ==> Posts(st, st2, j)
    ensures Posts(st, st1, j) && Posts(st1, st2, []) ==> Posts(st, st2, j)
  {
    hide Held, Moved;
    assert forall b :: Moved([], b) == 0 by { forall b ensures Moved([], b) == 0 { NothingMoved(b); } }
  }

  lemma NothingMoved(b: Book)
    ensures Moved([], b) == 0
  {
  }

  lemma PostsOne(st: State, st': State, b: Book, d: int)
    requires forall c :: Held(st', c) == Held(st, c) + if c == b then d else 0
    ensures Posts(st, st', [Posting(b, d)])
  {
    hide Held;
    forall c ensures Moved([Posting(b, d)], c) == if c == b then d else 0 {
      NothingMoved(c);
      assert [Posting(b, d)][..0] == [];
    }
  }

  /** No book changed. */
  lemma PostsNothing(st: State, st': State)
    requires st'.rows == st.rows && st'.coins == st.coins
    requires forall i :: Held(st', Cash(i)) == Held(st, Cash(i))
    requires forall i, k :: st'.GetPosition(i, k).allocatedMargin == st.GetPosition(i, k).allocatedMargin
    ensures Posts(st, st', [])
  {
  }

  // ---------- writes ----------

  lemma AddCollateralPosts(st: State, i: nat, d: int)
    requires Core(st) && i in st.accounts
    ensures st.AddCollateral(i, d).Ok? && Posts(st, st.AddCollateral(i, d).value, [Posting(Cash(i), d)])
  {
    hide Core, Posts;
    KeyFacts(st, i);
    PostsOne(st, st.AddCollateral(i, d).value, Cash(i), d);
  }

  lemma AddBalancePosts(st: State, i: nat, x: nat, d: int)
    requires Core(st) && st.AddAccountAssetBalance(i, x, d).Ok?
    ensures Posts(st, st.AddAccountAssetBalance(i, x, d).value, [Posting(Balance(i, x), d)])
  {
    hide Core, Posts;
    CoreTables(st);
    GetRowOk(st, i, x);
    PostsOne(st, st.AddAccountAssetBalance(i, x, d).value, Balance(i, x), d);
  }

  lemma LockPosts(st: State, r: AssetRow, d: int)
    requires r == st.GetRow(r.account, r.asset).(locked := st.GetRow(r.account, r.asset).locked + d)
    ensures Posts(st, st.SetRow(r), [Posting(Lock(r.account, r.asset), d)])
  {
    hide Posts;
    PostsOne(st, st.SetRow(r), Lock(r.account, r.asset), d);
  }

  lemma MarginPosts(st: State, p: Position, d: int)
    requires p.allocatedMargin == st.GetPosition(p.account, p.market).allocatedMargin + d
    ensures Posts(st, st.SetPosition(p), [Posting(Isolated(p.account, p.market), d)])
  {
    hide Posts;
    PostsOne(st, st.SetPosition(p), Isolated(p.account, p.market), d);
  }

  lemma CoinPosts(st: State, denom: string, d: int)
    ensures Posts(st, st.MoveCoins(denom, d), [Posting(Coin(denom), d)])
  {
    hide Posts;
    PostsOne(st, st.MoveCoins(denom, d), Coin(denom), d);
  }

  lemma SettlePosts(st: State, i: nat, k: nat, prefixes: map<nat, int>)
    requires SettlePosition(st, i, k, prefixes).Ok?
    ensures Posts(st, SettlePosition(st, i, k, prefixes).value, [])
  {
    hide Posts, Payment;
    PostsNothing(st, SettlePosition(st, i, k, prefixes).value);
  }

  lemma SweepPosts(st: State, i: nat, prefixes: map<nat, int>)
    requires SettleAll(st, i, prefixes).Ok?
    ensures Posts(st, SettleAll(st, i, prefixes).value, [])
  {
    hide Posts, Payment;
    PostsNothing(st, SettleAll(st, i, prefixes).value);
  }

  /** The master an owner has or will get. */
  function MasterFor(st: State, owner: string): nat {
    if owner in st.owners then st.owners[owner] else st.nextMaster
  }

  lemma EnsureMasterPosts(st: State, owner: string, now: int) returns (st': State)
    requires Core(st) && owner != "" && st.EnsureMasterAccount(owner, now).Ok?
    ensures st.EnsureMasterAccount(owner, now).value.0 == st' && Core(st') && Posts(st, st', [])
    ensures st.EnsureMasterAccount(owner, now).value.1.index == MasterFor(st, owner) && MasterFor(st, owner) in st'.accounts
  {
    hide Posts, Core, Moves, AccountsOk, SharesAddUp;
    var a: Account;
    st', a := EnsureMasterStep(st, owner, now);
    CoreAccounts(st);
    if st.MasterByOwner(owner).Ok? { OwnerIndex(st, owner); } else { NextIndexUnused(st); }
    PostsNothing(st, st');
  }

  // ---------- ledger messages ----------

  /** The ledger a route leads to. */
  function Till(route: Route, i: nat, x: nat): Book {
    if route.Perps? then Cash(i) else Balance(i, x)
  }

  function Units(st: State, x: nat): int {
    if x in st.assets then st.assets[x].multiplier else 0
  }

  function DenomOf(st: State, x: nat): string {
    if x in st.assets then st.assets[x].denom else ""
  }

  lemma DepositPosts(st: State, sender: string, beneficiary: string, x: nat, route: Route, n: nat, env: Env)
    requires Core(st) && ExecDeposit(st, sender, beneficiary, x, route, n, env).Ok?
    ensures var i := MasterFor(st, if beneficiary == "" then sender else beneficiary);
            Posts(st, ExecDeposit(st, sender, beneficiary, x, route, n, env).value.state,
                  [Posting(Coin(DenomOf(st, x)), n), Posting(Till(route, i, x), n * Units(st, x))])
  {
    hide Core, Posts, Max, AssetsOk, Moves, State.MoveCoins, State.AddAccountAssetBalance, State.AddCollateral,
         State.EnsureMasterAccount;
    var a, owner := st.assets[x], if beneficiary == "" then sender else beneficiary;
    var i := MasterFor(st, owner);
    var st1 := st.MoveCoins(a.denom, n);
    MoveCoinsStep(st, x, n);
    CoinPosts(st, a.denom, n);
    SameOwners(st, a.denom, n);
    var st2 := EnsureMasterPosts(st1, owner, env.now);
    PostsAround(st, st1, st2, [Posting(Coin(a.denom), n)]);
    var d := n * a.multiplier;
    if route.Perps? { AddCollateralPosts(st2, i, d); } else { AddBalancePosts(st2, i, x, d); }
    var st3 := ExecDeposit(st, sender, beneficiary, x, route, n, env).value.state;
    PostsBoth(st, st2, st3, Posting(Coin(a.denom), n), Posting(Till(route, i, x), d));
  }

  lemma SameOwners(st: State, denom: string, n: int)
    ensures forall owner :: MasterFor(st.MoveCoins(denom, n), owner) == MasterFor(st, owner)
  {
  }

  lemma WithdrawPosts(st: State, sender: string, i: nat, x: nat, route: Route, n: nat, env: Env)
    requires Core(st) && ExecWithdraw(st, sender, i, x, route, n, env).Ok?
    ensures Posts(st, ExecWithdraw(st, sender, i, x, route, n, env).value.state,
                  [Posting(Till(route, i, x), -(n * Units(st, x))), Posting(Coin(DenomOf(st, x)), 0 - n)])
  {
    hide Core, Posts, Max, SettleAll, State.MoveCoins, State.AddAccountAssetBalance, State.AddCollateral, SweepPaid;
    var a := st.assets[x];
    var d := n * a.multiplier;
    var st2 := Debit(st, i, x, a, route, d, env).value;
    if route.Perps? {
      var st1 := SettleAllStep(st, i, env.prefixes);
      SweepPosts(st, i, env.prefixes);
      AddCollateralPosts(st1, i, -d);
      PostsAround(st, st1, st2, [Posting(Cash(i), -d)]);
    } else {
      AddBalancePosts(st, i, x, -d);
    }
    CoinPosts(st2, a.denom, 0 - n);
    PostsBoth(st, st2, st2.MoveCoins(a.denom, 0 - n), Posting(Till(route, i, x), -d), Posting(Coin(a.denom), 0 - n));
  }

  lemma TransferPosts(st: State, sender: string, from: nat, to: nat, x: nat, n: nat, env: Env)
    requires Core(st) && ExecTransfer(st, sender, from, to, x, n, env).Ok?
    ensures var route, d := if x == USDC then Perps else Spot, n * Units(st, x);
            Posts(st, ExecTransfer(st, sender, from, to, x, n, env).value.state,
                  [Posting(Till(route, from, x), -d), Posting(Till(route, to, x), d)])
  {
    hide Core, Posts, Max, SettleAll, State.AddAccountAssetBalance, State.AddCollateral, SweepPaid, Moves;
    var a := st.assets[x];
    AssetFacts(st, x);
    var d := n * a.multiplier;
    if a.margin {
      var st1 := SettleAllStep(st, from, env.prefixes);
      SweepPosts(st, from, env.prefixes);
      var st2 := AddCollateralStep(st1, from, -d);
      AddCollateralPosts(st1, from, -d);
      PostsAround(st, st1, st2, [Posting(Cash(from), -d)]);
      AddCollateralPosts(st2, to, d);
      PostsBoth(st, st2, st2.AddCollateral(to, d).value, Posting(Cash(from), -d), Posting(Cash(to), d));
    } else {
      var st2 := AddBalanceStep(st, from, x, -d);
      AddBalancePosts(st, from, x, -d);
      AddBalancePosts(st2, to, x, d);
      PostsBoth(st, st2, st2.AddAccountAssetBalance(to, x, d).value, Posting(Balance(from, x), -d),
                Posting(Balance(to, x), d));
    }
  }

  lemma UpdateMarginPosts(st: State, sender: string, i: nat, k: nat, action: MarginAction, d: int, env: Env)
    requires Core(st) && ExecUpdateMargin(st, sender, i, k, action, d, env).Ok?
    ensures 0 < d
    ensures var into := if action.AddMargin? then d else -d;
            Posts(st, ExecUpdateMargin(st, sender, i, k, action, d, env).value.state,
                  [Posting(Isolated(i, k), into), Posting(Cash(i), -into)])
  {
    hide Core, Posts, Moves, SettlePosition, State.AddCollateral, PaymentAt;
    var st1 := SettlePositionStep(st, i, k, env.prefixes);
    SettlePosts(st, i, k, env.prefixes);
    GetPositionOk(st1, i, k);
    var p, into := st1.GetPosition(i, k), if action.AddMargin? then d else -d;
    var p' := p.(allocatedMargin := p.allocatedMargin + into);
    SetPositionStep(st1, p');
    var st2 := st1.SetPosition(p');
    MarginPosts(st1, p', into);
    PostsAround(st, st1, st2, [Posting(Isolated(i, k), into)]);
    AddCollateralPosts(st2, i, -into);
    PostsBoth(st, st2, st2.AddCollateral(i, -into).value, Posting(Isolated(i, k), into), Posting(Cash(i), -into));
  }

  // ---------- pool messages ----------

  /** Rewriting a row posts the change of its collateral, whatever else it changes. */
  lemma RowPosts(st: State, a: Account)
    requires a.index in st.accounts
    ensures Posts(st, st.(accounts := st.accounts[a.index := a]),
                  [Posting(Cash(a.index), a.collateral - st.accounts[a.index].collateral)])
  {
    hide Posts;
    PostsOne(st, st.(accounts := st.accounts[a.index := a]), Cash(a.index),
             a.collateral - st.accounts[a.index].collateral);
  }

  lemma RowsPost(st: State, st1: State, a: Account, b: Account)
    requires Posts(st, st1, []) && st1.accounts == st.accounts
    requires a.index in st.accounts && b.index in st.accounts && a.index != b.index
    ensures Posts(st, st1.(accounts := st.accounts[a.index := a][b.index := b]),
                  [Posting(Cash(a.index), a.collateral - st.accounts[a.index].collateral),
                   Posting(Cash(b.index), b.collateral - st.accounts[b.index].collateral)])
  {
    hide Posts;
    var st2 := st1.(accounts := st1.accounts[a.index := a]);
    RowPosts(st1, a);
    RowPosts(st2, b);
    PostsAround(st, st1, st2, [Posting(Cash(a.index), a.collateral - st.accounts[a.index].collateral)]);
    PostsBoth(st, st2, st2.(accounts := st2.accounts[b.index := b]),
              Posting(Cash(a.index), a.collateral - st.accounts[a.index].collateral),
              Posting(Cash(b.index), b.collateral - st.accounts[b.index].collateral));
  }

  /** A new pool is backed by 1000 USDC a share, out of its master's collateral. */
  lemma CreatePublicPoolPosts(st: State, sender: string, i: nat, n: nat, fee: nat, rate: nat, env: Env)
    requires Core(st) && ExecCreatePublicPool(st, sender, i, n, fee, rate, env).Ok?
    ensures var seed := n * 1_000 * 1_000_000;
            Posts(st, ExecCreatePublicPool(st, sender, i, n, fee, rate, env).value.state,
                  [Posting(Cash(st.nextSub), seed), Posting(Cash(i), -seed)])
  {
    hide Core, Posts, SettleAll, SweepPaid, Moves;
    RowFacts(st, i);
    var st1 := SettleAllStep(st, i, env.prefixes);
    SweepPosts(st, i, env.prefixes);
    SubIndexInRange(st);
    SubIndexUnused(st);
    var st' := ExecCreatePublicPool(st, sender, i, n, fee, rate, env).value.state;
    var pool := st'.accounts[st.nextSub];
    var st2 := st1.(nextSub := st.nextSub + 1).CreateAccount(pool);
    NewRowPosts(st1, st2, pool);
    PostsAround(st, st1, st2, [Posting(Cash(st.nextSub), pool.collateral)]);
    RowPosts(st2, st'.accounts[i]);
    PostsBoth(st, st2, st', Posting(Cash(st.nextSub), pool.collateral), Posting(Cash(i), -pool.collateral));
  }

  lemma SubIndexUnused(st: State)
    requires Core(st)
    ensures st.nextSub !in st.accounts
  {
    hide Core;
    CoreAccounts(st);
    NextIndexUnused(st);
  }

  lemma NewRowPosts(st: State, st': State, a: Account)
    requires a.index !in st.accounts && st'.accounts == st.accounts[a.index := a]
    requires st'.rows == st.rows && st'.coins == st.coins && st'.positions == st.positions
    ensures Posts(st, st', [Posting(Cash(a.index), a.collateral)])
  {
    hide Posts;
    PostsOne(st, st', Cash(a.index), a.collateral);
  }

  lemma MintPosts(st: State, sender: string, pool: nat, u: nat, env: Env)
    requires Core(st) && ExecMintShares(st, sender, pool, u, env).Ok?
    ensures Posts(st, ExecMintShares(st, sender, pool, u, env).value.state,
                  [Posting(Cash(MasterFor(st, sender)), -(u * 1_000_000)), Posting(Cash(pool), u * 1_000_000)])
  {
    hide Core, Posts, ExecMintShares, SettleAll, SweepPaid;
    var m, a, b, operator, sh := MintWrites(st, sender, pool, u, env);
    OwnerIndex(st, sender);
    KeyFacts(st, pool);
    var st1 := SettleAllStep(st, m.index, env.prefixes);
    SweepPosts(st, m.index, env.prefixes);
    RowsPost(st, st1, a, b);
  }

  /** A burn pays its depositor, in units of collateral, exactly what it replies. */
  lemma BurnPosts(st: State, pool: nat, m: Account, operator: bool, s: int, skip: bool, env: Env)
    requires Core(st) && pool in st.accounts && m.index in st.accounts && st.accounts[m.index] == m
    requires (m.kind.Master? || !operator) && 0 < s
    requires ExecBurn(st, st.accounts[pool], m, operator, s, skip, env).Ok?
    ensures var r := ExecBurn(st, st.accounts[pool], m, operator, s, skip, env).value;
            Posts(st, r.state, [Posting(Cash(m.index), r.value * 1_000_000), Posting(Cash(pool), -(r.value * 1_000_000))])
  {
    hide Core, Posts, ExecBurn;
    var entry, t, a, b := BurnWrites(st, pool, m, operator, s, skip, env);
    KeyFacts(st, pool);
    PostsNothing(st, st);
    RowsPost(st, st, a, b);
  }

  // ---------- spot locks and moves ----------

  function Least(a: int, b: int): int { if a < b then a else b }

  function RowJournal(i: nat, x: nat, balance: int, locked: int): seq<Posting> {
    [Posting(Balance(i, x), balance)] + [Posting(Lock(i, x), locked)]
  }

  lemma RowWritePosts(st: State, r: AssetRow)
    ensures var o := st.GetRow(r.account, r.asset);
            Posts(st, st.SetRow(r), RowJournal(r.account, r.asset, r.balance - o.balance, r.locked - o.locked))
  {
    hide Posts;
    var o := st.GetRow(r.account, r.asset);
    var st1 := st.SetRow(o.(account := r.account, asset := r.asset, balance := r.balance));
    PostsOne(st, st1, Balance(r.account, r.asset), r.balance - o.balance);
    PostsOne(st1, st.SetRow(r), Lock(r.account, r.asset), r.locked - o.locked);
    PostsOn(st, st1, st.SetRow(r), [Posting(Balance(r.account, r.asset), r.balance - o.balance)],
            [Posting(Lock(r.account, r.asset), r.locked - o.locked)]);
  }

  /** Draining pays out of the lock first; from an account to itself only the second write is left. */
  function MoveJournal(st: State, from: nat, to: nat, x: nat, d: int, drain: bool): seq<Posting> {
    if from == to then RowJournal(to, x, d, 0)
    else RowJournal(from, x, -d, if drain then -Least(d, st.GetRow(from, x).locked) else 0) + RowJournal(to, x, d, 0)
  }

  /** The two rows a spot move writes, both from what was there before. */
  lemma MoveWrites(st: State, from: nat, to: nat, x: nat, d: int, drain: bool) returns (src': AssetRow, dst': AssetRow)
    requires Core(st) && st.TransferAccountAssetBalance(from, to, x, d, drain).Ok?
    ensures var src, dst := st.GetRow(from, x), st.GetRow(to, x);
            && src' == src.(balance := src.balance - d, locked := src.locked - if drain then Least(d, src.locked) else 0)
            && dst' == dst.(balance := dst.balance + d)
    ensures src'.account == from && src'.asset == x && dst'.account == to && dst'.asset == x
    ensures st.TransferAccountAssetBalance(from, to, x, d, drain).value == if d == 0 then st else st.SetRow(src').SetRow(dst')
  {
    hide Core, State.GetRow, State.SetRow;
    CoreTables(st);
    GetRowOk(st, from, x);
    GetRowOk(st, to, x);
    var src, dst := st.GetRow(from, x), st.GetRow(to, x);
    src' := src.(balance := src.balance - d, locked := src.locked - if drain then Least(d, src.locked) else 0);
    dst' := dst.(balance := dst.balance + d);
  }

  lemma MoveSpotPosts(st: State, from: nat, to: nat, x: nat, d: int, drain: bool)
    requires Core(st) && st.TransferAccountAssetBalance(from, to, x, d, drain).Ok?
    ensures Posts(st, st.TransferAccountAssetBalance(from, to, x, d, drain).value, MoveJournal(st, from, to, x, d, drain))
  {
    hide Core, Posts, RowJournal, Least, State.TransferAccountAssetBalance;
    var src', dst' := MoveWrites(st, from, to, x, d, drain);
    if d == 0 {
      NothingReleased(st, from, x);
      StillPosts(st, from, to, x);
    } else if from == to {
      assert st.SetRow(src').SetRow(dst').rows == st.SetRow(dst').rows;
      RowWritePosts(st, dst');
    } else {
      RowWritePosts(st, src');
      RowWritePosts(st.SetRow(src'), dst');
      PostsOn(st, st.SetRow(src'), st.SetRow(src').SetRow(dst'),
              RowJournal(from, x, -d, src'.locked - st.GetRow(from, x).locked), RowJournal(to, x, d, 0));
    }
  }

  lemma NothingReleased(st: State, i: nat, x: nat)
    requires Core(st)
    ensures Least(0, st.GetRow(i, x).locked) == 0
  {
    hide Core;
    CoreTables(st);
    GetRowOk(st, i, x);
  }

  lemma StillPosts(st: State, from: nat, to: nat, x: nat)
    ensures Posts(st, st, RowJournal(to, x, 0, 0)) && Posts(st, st, RowJournal(from, x, 0, 0) + RowJournal(to, x, 0, 0))
  {
    hide Posts;
    forall i ensures Posts(st, st, RowJournal(i, x, 0, 0)) {
      PostsOne(st, st, Balance(i, x), 0);
      PostsOne(st, st, Lock(i, x), 0);
      PostsOn(st, st, st, [Posting(Balance(i, x), 0)], [Posting(Lock(i, x), 0)]);
    }
    PostsOn(st, st, st, RowJournal(from, x, 0, 0), RowJournal(to, x, 0, 0));
  }

  lemma LocksPost(st: State, i: nat, x: nat, d: int)
    requires Core(st)
    ensures var r := st.IncreaseLockedBalance(i, x, d); r.Ok? ==> Posts(st, r.value, [Posting(Lock(i, x), d)])
    ensures var r := st.DecreaseLockedBalance(i, x, d);
            r.Ok? ==> Posts(st, r.value, [Posting(Lock(i, x), -Least(d, st.GetRow(i, x).locked))])
  {
    hide Core, Posts;
    CoreTables(st);
    GetRowOk(st, i, x);
    var row := st.GetRow(i, x);
    LockPosts(st, row.(locked := row.locked + d), d);
    LockPosts(st, row.(locked := row.locked - Least(d, row.locked)), -Least(d, row.locked));
    PostsOne(st, st, Lock(i, x), 0);
  }

  // ---------- fills ----------

  /** The stores moved by the first postings of a journal, all of them if it is `whole`. */
  ghost predicate PostsSome(st: State, st': State, j: seq<Posting>, whole: bool) {
    exists n :: 0 <= n <= |j| && (whole ==> n == |j|) && Posts(st, st', j[..n])
  }

  lemma PostsAll(st: State, st': State, j: seq<Posting>)
    ensures PostsSome(st, st', j, true) <==> Posts(st, st', j)
    ensures Posts(st, st', []) ==> PostsSome(st, st', j, false)
  {
    hide Posts;
    assert j[..|j|] == j && j[..0] == [];
  }

  lemma SomeOn(st: State, st1: State, st2: State, j1: seq<Posting>, j2: seq<Posting>, whole: bool)
    requires Posts(st, st1, j1) && PostsSome(st1, st2, j2, whole)
    ensures PostsSome(st, st2, j1 + j2, whole)
  {
    hide Posts;
    var n :| 0 <= n <= |j2| && (whole ==> n == |j2|) && Posts(st1, st2, j2[..n]);
    PostsOn(st, st1, st2, j1, j2[..n]);
    assert (j1 + j2)[..|j1| + n] == j1 + j2[..n];
  }

  lemma SomeStops(st: State, st': State, j1: seq<Posting>, j2: seq<Posting>)
    requires PostsSome(st, st', j1, false)
    ensures PostsSome(st, st', j1 + j2, false)
  {
    hide Posts;
    var n :| 0 <= n <= |j1| && Posts(st, st', j1[..n]);
    assert (j1 + j2)[..n] == j1[..n];
  }

  /** A journal in two parts, the second begun only when the first is done. */
  lemma SomeThen(st: State, st1: State, st2: State, j1: seq<Posting>, first: bool, j2: seq<Posting>, second: bool)
    requires PostsSome(st, st1, j1, first)
    requires if first then PostsSome(st1, st2, j2, second) else st2 == st1
    ensures PostsSome(st, st2, j1 + j2, first && second)
  {
    hide Posts, PostsSome;
    if first {
      PostsAll(st, st1, j1);
      SomeOn(st, st1, st2, j1, j2, second);
    } else {
      SomeStops(st, st1, j1, j2);
    }
  }

  lemma CreditPosts(st: State, i: nat, d: int)
    requires Core(st)
    ensures PostsSome(st, Kept(At(st, Credit(st, i, d))), [Posting(Cash(i), d)], Credit(st, i, d).Ok?)
  {
    hide Core, Posts, PostsSome;
    if d == 0 {
      PostsOne(st, st, Cash(i), 0);
      PostsAll(st, st, [Posting(Cash(i), d)]);
    } else if i in st.accounts {
      AddCollateralPosts(st, i, d);
      PostsAll(st, st.AddCollateral(i, d).value, [Posting(Cash(i), d)]);
    } else {
      PostsNothing(st, st);
      PostsAll(st, st, [Posting(Cash(i), d)]);
    }
  }

  lemma FoldPosts(st: State, s: Side, d: int)
    ensures Posts(st, FoldMargin(st, s, d).0, [Posting(Isolated(s.account, s.market), d)])
  {
    hide Posts;
    if d == 0 {
      PostsOne(st, st, Isolated(s.account, s.market), 0);
    } else {
      var p := st.GetPosition(s.account, s.market);
      MarginPosts(st, p.(allocatedMargin := p.allocatedMargin + d, account := s.account, market := s.market), d);
    }
  }

  /** The side after its realised amount, its fee and its charge went into its margin. */
  function Folded(st: State, s: Side, fee: int, charge: int): (State, Side) {
    var (st1, s1) := FoldMargin(st, s, s.realized - fee);
    FoldMargin(st1, s1, charge)
  }

  function RebalanceJournal(s: Side, fee: int, env: TradeEnv): seq<Posting> {
    match MarginDelta(s, fee, env)
    case Ok(d) => [Posting(Isolated(s.account, s.market), d)] + [Posting(Cash(s.account), -d)]
    case Err(_) => []
  }

  /** One side: into cross collateral, or into isolated margin and then between the two. */
  function SideJournal(st: State, s: Side, fee: int, charge: int, env: TradeEnv): seq<Posting> {
    if s.before.marginMode == ISOLATED_MARGIN then
      [Posting(Isolated(s.account, s.market), s.realized - fee)] + [Posting(Isolated(s.account, s.market), charge)]
      + RebalanceJournal(Folded(st, s, fee, charge).1, fee, env)
    else [Posting(Cash(s.account), s.realized - fee)] + [Posting(Cash(s.account), charge)]
  }

  function FeesJournal(m: Match): seq<Posting> {
    [Posting(Cash(TREASURY), TakerFee(m) + MakerFee(m))] + [Posting(Cash(m.Recipient()), Positive(LiquidationFee(m)))]
  }

  function FillJournal(st: State, m: Match, maker: Side, taker: Side, env: TradeEnv): seq<Posting> {
    var st1 := Kept(ApplyAccount(st, taker, TakerFee(m), false, 0, m, env));
    SideJournal(st, taker, TakerFee(m), 0, env)
    + SideJournal(st1, maker, MakerFee(m), -Positive(LiquidationFee(m)), env)
    + FeesJournal(m)
  }

  lemma RebalancePosts(st: State, s: Side, fee: int, isMaker: bool, m: Match, env: TradeEnv)
    requires Core(st)
    ensures var r := Rebalance(st, s, fee, isMaker, m, env);
            PostsSome(st, Kept(r), RebalanceJournal(s, fee, env), r.Made?)
  {
    hide Core, Posts, PostsSome, MarginDelta, FoldMargin, ShortOf, Moves;
    var r, j := Rebalance(st, s, fee, isMaker, m, env), RebalanceJournal(s, fee, env);
    PostsNothing(st, st);
    PostsAll(st, st, j);
    if MarginDelta(s, fee, env).Ok? {
      var d := MarginDelta(s, fee, env).value;
      if d == 0 {
        PostsOne(st, st, Isolated(s.account, s.market), 0);
        PostsOne(st, st, Cash(s.account), 0);
        PostsOn(st, st, st, [Posting(Isolated(s.account, s.market), d)], [Posting(Cash(s.account), -d)]);
      } else if !ShortOf(d, isMaker, m, env) {
        FoldMarginStep(st, s, d);
        FoldPosts(st, s, d);
        var st1 := FoldMargin(st, s, d).0;
        CreditPosts(st1, s.account, -d);
        SomeOn(st, st1, Kept(r), [Posting(Isolated(s.account, s.market), d)], [Posting(Cash(s.account), -d)], r.Made?);
      }
    }
  }

  lemma TwoCredits(st: State, i: nat, d: int, j: nat, e: int)
    requires Core(st)
    ensures var first := Credit(st, i, d);
            var r := if first.Ok? then At(first.value, Credit(first.value, j, e)) else Stuck(st, first.error);
            PostsSome(st, Kept(r), [Posting(Cash(i), d)] + [Posting(Cash(j), e)], r.Made?)
  {
    hide Core, Posts, PostsSome, Credit, Moves;
    var first := Credit(st, i, d);
    var st1 := CreditStep(st, i, d);
    CreditPosts(st, i, d);
    if first.Ok? { CreditPosts(st1, j, e); }
    var r := if first.Ok? then At(first.value, Credit(first.value, j, e)) else Stuck(st, first.error);
    SomeThen(st, st1, Kept(r), [Posting(Cash(i), d)], first.Ok?, [Posting(Cash(j), e)], r.Made?);
  }

  lemma IsolatedPosts(st: State, s: Side, fee: int, isMaker: bool, liqFee: int, m: Match, env: TradeEnv)
    requires Core(st) && s.before.marginMode == ISOLATED_MARGIN
    ensures var r := ApplyIsolated(st, s, fee, isMaker, liqFee, m, env);
            PostsSome(st, Kept(r), SideJournal(st, s, fee, Charge(isMaker, liqFee), env), r.Made?)
  {
    hide Core, Posts, PostsSome, FoldMargin, Rebalance, Charge, RebalanceJournal, Moves;
    var charge, book := Charge(isMaker, liqFee), Isolated(s.account, s.market);
    FoldMarginStep(st, s, s.realized - fee);
    FoldPosts(st, s, s.realized - fee);
    var (st1, s1) := FoldMargin(st, s, s.realized - fee);
    FoldMarginStep(st1, s1, charge);
    FoldPosts(st1, s1, charge);
    var (st2, s2) := FoldMargin(st1, s1, charge);
    PostsOn(st, st1, st2, [Posting(book, s.realized - fee)], [Posting(book, charge)]);
    RebalancePosts(st2, s2, fee, isMaker, m, env);
    var r := Rebalance(st2, s2, fee, isMaker, m, env);
    SomeOn(st, st2, Kept(r), [Posting(book, s.realized - fee)] + [Posting(book, charge)],
           RebalanceJournal(s2, fee, env), r.Made?);
  }

  lemma AccountPosts(st: State, s: Side, fee: int, isMaker: bool, liqFee: int, m: Match, env: TradeEnv)
    requires Core(st)
    ensures var r := ApplyAccount(st, s, fee, isMaker, liqFee, m, env);
            PostsSome(st, Kept(r), SideJournal(st, s, fee, Charge(isMaker, liqFee), env), r.Made?)
  {
    hide Core, Posts, PostsSome, ApplyIsolated, Credit, Charge, RebalanceJournal, Folded;
    if s.before.marginMode == ISOLATED_MARGIN {
      IsolatedPosts(st, s, fee, isMaker, liqFee, m, env);
    } else {
      TwoCredits(st, s.account, s.realized - fee, s.account, Charge(isMaker, liqFee));
    }
  }

  /** Routing posts its journal in order, as far as it gets. */
  lemma RoutePosts(st: State, m: Match, maker: Side, taker: Side, env: TradeEnv)
    requires Core(st)
    ensures var r := RouteBoth(st, m, maker, taker, env);
            PostsSome(st, Kept(r), FillJournal(st, m, maker, taker, env), r.Made?)
  {
    hide Core, Posts, PostsSome, ApplyAccount, Credit, SideJournal, TakerFee, MakerFee, LiquidationFee, Moves;
    var r1 := ApplyAccount(st, taker, TakerFee(m), false, 0, m, env);
    var j1 := SideJournal(st, taker, TakerFee(m), 0, env);
    var j2 := SideJournal(Kept(r1), maker, MakerFee(m), -Positive(LiquidationFee(m)), env);
    AccountPosts(st, taker, TakerFee(m), false, 0, m, env);
    AccountStep(st, taker, TakerFee(m), false, 0, m, env);
    var sides := RouteSides(st, m, maker, taker, env);
    if r1.Made? {
      AccountPosts(r1.value, maker, MakerFee(m), true, LiquidationFee(m), m, env);
      AccountStep(r1.value, maker, MakerFee(m), true, LiquidationFee(m), m, env);
    }
    SomeThen(st, Kept(r1), Kept(sides), j1, r1.Made?, j2, sides.Made?);
    if sides.Made? {
      TwoCredits(sides.value, TREASURY, TakerFee(m) + MakerFee(m), m.Recipient(), Positive(LiquidationFee(m)));
    }
    var r := RouteBoth(st, m, maker, taker, env);
    SomeThen(st, Kept(sides), Kept(r), j1 + j2, sides.Made?, FeesJournal(m), r.Made?);
  }

  lemma SettleBothPosts(st: State, m: Match, prefixes: map<nat, int>)
    ensures Posts(st, Kept(SettleBoth(st, m, prefixes)), [])
  {
    hide Posts, SettlePosition;
    PostsNothing(st, st);
    if SettlePosition(st, m.maker, m.market, prefixes).Ok? {
      var st1 := SettlePosition(st, m.maker, m.market, prefixes).value;
      SettlePosts(st, m.maker, m.market, prefixes);
      if SettlePosition(st1, m.taker, m.market, prefixes).Ok? {
        SettlePosts(st1, m.taker, m.market, prefixes);
        PostsAround(st, st1, SettlePosition(st1, m.taker, m.market, prefixes).value, []);
      }
    }
  }

  lemma ChangePosts(st: State, i: nat, k: nat, d: int, price: nat, e: Error)
    requires ChangePosition(st, i, k, d, price, e).Ok?
    ensures Posts(st, ChangePosition(st, i, k, d, price, e).value.0, [])
  {
    hide Posts, P.ApplyFill;
    FillKeepsRest(st.GetPosition(i, k), d, price);
    PostsNothing(st, ChangePosition(st, i, k, d, price, e).value.0);
  }

  /** The journal of a match; empty unless both positions are written. */
  function MatchJournal(st: State, m: Match, env: Env): seq<Posting> {
    var settled := SettleBoth(st, m, env.prefixes);
    if settled.Stuck? || SnapshotFails(m, env.trade) then []
    else
      match ChangeBoth(settled.value, m)
      case Stuck(_, _) => []
      case Made((st2, maker, taker)) => FillJournal(st2, m, maker, taker, env.trade)
  }

  /** A match posts its journal in order as far as it gets, and a finished one posts all of it. */
  lemma MatchPosts(st: State, m: Match, env: Env)
    requires Core(st)
    ensures var r := ApplyMatch(st, m, env); PostsSome(st, Kept(r), MatchJournal(st, m, env), r.Made?)
  {
    hide Core, Posts, PostsSome, Moves, Shifts, SettleBoth, ChangeMaker, ChangeTaker, RouteBoth, FillJournal, Approve,
         SnapshotFails, MatchPaid, P.PartialDecrease;
    var st1 := SettleBothStep(st, m, env.prefixes);
    SettleBothPosts(st, m, env.prefixes);
    PostsAll(st, st1, []);
    if SettleBoth(st, m, env.prefixes).Made? && !SnapshotFails(m, env.trade) {
      var st2, _ := ChangeBothStep(st1, m);
      ChangeBothPosts(st1, m, st2);
      PostsAround(st, st1, st2, []);
      PostsAll(st, st2, []);
      if ChangeBoth(st1, m).Made? {
        var (_, maker, taker) := ChangeBoth(st1, m).value;
        RoutePosts(st2, m, maker, taker, env.trade);
        var r, j := RouteBoth(st2, m, maker, taker, env.trade), FillJournal(st2, m, maker, taker, env.trade);
        SomeOn(st, st2, Kept(r), [], j, r.Made?);
        assert [] + j == j;
        ApproveKeeps(Kept(r), m, env.trade);
        SomeOrAll(st, Kept(r), j, r.Made?);
      }
    }
  }

  lemma SomeOrAll(st: State, st': State, j: seq<Posting>, whole: bool)
    requires PostsSome(st, st', j, whole)
    ensures PostsSome(st, st', j, false)
  {
  }

  lemma ChangeBothPosts(st: State, m: Match, st': State)
    requires match ChangeMaker(st, m)
             case Err(_) => st' == st
             case Ok((st1, _)) => match ChangeTaker(st1, m) case Err(_) => st' == st1 case Ok((st2, _)) => st' == st2
    ensures Posts(st, st', [])
  {
    hide Posts, ChangePosition;
    PostsNothing(st, st);
    if ChangeMaker(st, m).Ok? {
      var st1 := ChangeMaker(st, m).value.0;
      ChangePosts(st, m.maker, m.market, m.MakerDelta(), m.price, MakerInvalidPosition);
      if ChangeTaker(st1, m).Ok? {
        ChangePosts(st1, m.taker, m.market, -m.MakerDelta(), m.price, TakerInvalidPosition);
        PostsAround(st, st1, st', []);
      }
    }
  }

  // ---------- any message ----------

  /** What an accepted message moves, in terms of its own numbers and of what it replied. */
  function Journal(st: State, msg: Msg, env: Env, reply: int): seq<Posting> {
    match msg
    case Deposit(s, b, x, route, n) =>
      [Posting(Coin(DenomOf(st, x)), n),
       Posting(Till(route, MasterFor(st, if b == "" then s else b), x), n * Units(st, x))]
    case Withdraw(_, i, x, route, n) =>
      [Posting(Till(route, i, x), -(n * Units(st, x))), Posting(Coin(DenomOf(st, x)), 0 - n)]
    case Transfer(_, f, t, x, n) =>
      var route := if x == USDC then Perps else Spot;
      [Posting(Till(route, f, x), -(n * Units(st, x))), Posting(Till(route, t, x), n * Units(st, x))]
    case UpdateMargin(_, i, k, action, d) =>
      var into := if action.AddMargin? then d else -d;
      [Posting(Isolated(i, k), into), Posting(Cash(i), -into)]
    case CreatePublicPool(_, i, n, _, _) =>
      [Posting(Cash(st.nextSub), n * 1_000 * 1_000_000), Posting(Cash(i), -(n * 1_000 * 1_000_000))]
    case MintShares(s, p, u) =>
      [Posting(Cash(MasterFor(st, s)), -(u * 1_000_000)), Posting(Cash(p), u * 1_000_000)]
    case BurnShares(s, p, _) =>
      [Posting(Cash(MasterFor(st, s)), reply * 1_000_000), Posting(Cash(p), -(reply * 1_000_000))]
    case ForceBurnShares(_, p, d, _) =>
      [Posting(Cash(d), reply * 1_000_000), Posting(Cash(p), -(reply * 1_000_000))]
    case LockSpot(i, x, d) => [Posting(Lock(i, x), d)]
    case UnlockSpot(i, x, d) => [Posting(Lock(i, x), -Least(d, st.GetRow(i, x).locked))]
    case MoveSpot(f, t, x, d, drain) => MoveJournal(st, f, t, x, d, drain)
    case PerpFill(m) => MatchJournal(st, m, env)
    case CloseOut(m) => MatchJournal(st, m, env)
    case _ => []
  }

  lemma PoolMessagePosts(st: State, msg: Msg, env: Env)
    requires Core(st) && PoolMessage(msg) && Exec(st, msg, env).Ok?
    ensures var r := Exec(st, msg, env).value; Posts(st, r.state, Journal(st, msg, env, r.value))
  {
    hide Core, Posts, ExecBurn, ExecBurnShares, ExecForceBurnShares, ExecMintShares, ExecCreatePublicPool,
         ExecUpdatePublicPool, ExecStrategyTransfer;
    match msg {
      case CreatePublicPool(s, i, n, f, r) => CreatePublicPoolPosts(st, s, i, n, f, r, env);
      case UpdatePublicPool(s, p, c, f, r) => UpdatePublicPoolPosts(st, s, p, c, f, r, env);
      case MintShares(s, p, u) => MintPosts(st, s, p, u, env);
      case BurnShares(s, p, n) =>
        var m, operator := BurnSharesIsBurn(st, s, p, n, env);
        BurnPosts(st, p, m, operator, n, false, env);
      case ForceBurnShares(s, p, d, n) =>
        ForceBurnIsBurn(st, s, p, d, n, env);
        BurnPosts(st, p, st.accounts[d], false, n, true, env);
      case StrategyTransfer(s, p, f, t, d) => StrategyTransferRefused(st, s, p, f, t, d);
    }
  }

  lemma UpdatePublicPoolPosts(st: State, sender: string, p: nat, status: nat, fee: nat, rate: nat, env: Env)
    requires Core(st) && ExecUpdatePublicPool(st, sender, p, status, fee, rate, env).Ok?
    ensures Posts(st, ExecUpdatePublicPool(st, sender, p, status, fee, rate, env).value.state, [])
  {
    hide Core, Posts;
    var a, _ := UpdatePoolWrites(st, sender, p, status, fee, rate, env);
    KeyFacts(st, p);
    PostsNothing(st, ExecUpdatePublicPool(st, sender, p, status, fee, rate, env).value.state);
  }

  lemma SettlementPosts(st: State, msg: Msg, env: Env)
    requires Core(st) && Settlement(msg) && !Fills(msg) && Exec(st, msg, env).Ok?
    ensures var r := Exec(st, msg, env).value; Posts(st, r.state, Journal(st, msg, env, r.value))
  {
    hide Core, Posts, SettlePosition, State.IncreaseLockedBalance, State.DecreaseLockedBalance, MoveJournal,
         State.TransferAccountAssetBalance, Least;
    match msg {
      case LockSpot(i, x, d) => LocksPost(st, i, x, d);
      case UnlockSpot(i, x, d) => LocksPost(st, i, x, d);
      case MoveSpot(f, t, x, d, drain) => MoveSpotPosts(st, f, t, x, d, drain);
      case SettleFunding(i, k) => SettlePosts(st, i, k, env.prefixes);
    }
  }

  /** Settings of accounts, rows and positions move nothing. */
  lemma ConfigPosts(st: State, sender: string, i: nat, x: nat, mode: nat)
    requires Core(st)
    ensures var r := ExecUpdateAccountConfig(st, sender, i, mode); r.Ok? ==> Posts(st, r.value.state, [])
    ensures var r := ExecUpdateAccountAssetConfig(st, sender, i, x, mode); r.Ok? ==> Posts(st, r.value.state, [])
  {
    hide Core, Posts;
    if i in st.accounts {
      KeyFacts(st, i);
      PostsNothing(st, st.UpdateAccount(st.accounts[i].(tradingMode := mode)));
    }
    CoreTables(st);
    GetRowOk(st, i, x);
    var row := st.GetRow(i, x).(marginMode := mode);
    RowWritePosts(st, row);
    StillPosts(st, i, i, x);
    RowUnmoved(st, st.SetRow(row), i, x);
  }

  lemma LeveragePosts(st: State, sender: string, i: nat, k: nat, mode: nat, imf: nat, env: Env)
    requires Core(st)
    ensures var r := ExecUpdateLeverage(st, sender, i, k, mode, imf, env); r.Ok? ==> Posts(st, r.value.state, [])
  {
    hide Core, Posts;
    GetPositionOk(st, i, k);
    PostsNothing(st, st.SetPosition(st.GetPosition(i, k).(marginMode := mode, initialMarginFraction := imf)));
  }

  lemma SubAccountPosts(st: State, sender: string, i: nat, env: Env)
    requires Core(st)
    ensures var r := ExecCreateSubAccount(st, sender, i, env); r.Ok? ==> Posts(st, r.value.state, [])
  {
    hide Core, Posts;
    var r := ExecCreateSubAccount(st, sender, i, env);
    if r.Ok? {
      SubIndexInRange(st);
      SubIndexUnused(st);
      PostsNothing(st, r.value.state);
    }
  }

  lemma AssetsPost(st: State, st': State)
    requires st'.accounts == st.accounts && st'.rows == st.rows && st'.positions == st.positions && st'.coins == st.coins
    ensures Posts(st, st', [])
  {
    hide Posts;
    PostsNothing(st, st');
  }

  lemma SettingsPost(st: State, msg: Msg, env: Env)
    requires Core(st) && Exec(st, msg, env).Ok?
    requires msg.CreateSubAccount? || msg.UpdateAccountConfig? || msg.UpdateAccountAssetConfig? || msg.UpdateLeverage?
             || msg.UpdateParams? || msg.RegisterAsset? || msg.UpdateAsset?
    ensures Posts(st, Exec(st, msg, env).value.state, [])
  {
    hide Core, Posts, ExecCreateSubAccount, ExecUpdateAccountConfig, ExecUpdateAccountAssetConfig, ExecUpdateLeverage,
         ValidDenom, NameTaken, Fold;
    if msg.CreateSubAccount? {
      SubAccountPosts(st, msg.sender, msg.account, env);
    } else if msg.UpdateAccountConfig? {
      ConfigPosts(st, msg.sender, msg.account, 0, msg.tradingMode);
    } else if msg.UpdateAccountAssetConfig? {
      ConfigPosts(st, msg.sender, msg.account, msg.asset, msg.marginMode);
    } else if msg.UpdateLeverage? {
      LeveragePosts(st, msg.sender, msg.account, msg.market, msg.marginMode, msg.imf, env);
    } else {
      AssetsPost(st, Exec(st, msg, env).value.state);
    }
  }

  lemma RowUnmoved(st: State, st': State, i: nat, x: nat)
    requires Posts(st, st', RowJournal(i, x, 0, 0)) && Posts(st, st, RowJournal(i, x, 0, 0))
    ensures Posts(st, st', [])
  {
    hide Held, Moved;
    forall b ensures Held(st', b) == Held(st, b) + Moved([], b) {
      NothingMoved(b);
      assert Held(st, b) == Held(st, b) + Moved(RowJournal(i, x, 0, 0), b);
    }
  }

  lemma LedgerMessagePosts(st: State, msg: Msg, env: Env)
    requires Core(st) && !PoolMessage(msg) && !Settlement(msg) && Exec(st, msg, env).Ok?
    ensures var r := Exec(st, msg, env).value; Posts(st, r.state, Journal(st, msg, env, r.value))
  {
    hide Core, Posts, ExecDeposit, ExecWithdraw, ExecTransfer, ExecCreateSubAccount, ExecUpdateMargin,
         ExecUpdateAccountConfig, ExecUpdateAccountAssetConfig, ExecUpdateLeverage, ExecUpdateParams,
         ExecRegisterAsset, ExecUpdateAsset, MasterFor, Units, DenomOf;
    match msg {
      case Deposit(s, b, x, r, n) => DepositPosts(st, s, b, x, r, n, env);
      case Withdraw(s, i, x, r, n) => WithdrawPosts(st, s, i, x, r, n, env);
      case Transfer(s, f, t, x, n) => TransferPosts(st, s, f, t, x, n, env);
      case UpdateMargin(s, i, k, a, d) => UpdateMarginPosts(st, s, i, k, a, d, env);
      case _ => SettingsPost(st, msg, env);
    }
  }

  /**
   * Every accepted message moves exactly its journal: each book of each account,
   * and each of the module's coins, changes by the amounts the message names and
   * by no other.  A fill, on a branch or in place, posts its journal in order,
   * all of it when it finishes.
   */
  lemma DeliverPosts(st: State, msg: Msg, env: Env)
    requires Core(st) && Exec(st, msg, env).Ok?
    ensures var r := Exec(st, msg, env).value;
            PostsSome(st, r.state, Journal(st, msg, env, r.value),
                      msg.CloseOut? ==> ApplyMatch(st, msg.fill, env).Made?)
  {
    hide Core, Posts, PostsSome, Exec, Journal, MatchJournal, ApplyMatch;
    var r := Exec(st, msg, env).value;
    if Fills(msg) {
      FillState(st, msg, env);
      MatchPosts(st, msg.fill, env);
      FillsJournal(st, msg, env, r.value);
    } else {
      if Settlement(msg) {
        SettlementPosts(st, msg, env);
      } else if PoolMessage(msg) {
        PoolMessagePosts(st, msg, env);
      } else {
        LedgerMessagePosts(st, msg, env);
      }
      PostsAll(st, r.state, Journal(st, msg, env, r.value));
    }
  }

  lemma FillsJournal(st: State, msg: Msg, env: Env, reply: int)
    requires Fills(msg)
    ensures Journal(st, msg, env, reply) == MatchJournal(st, msg.fill, env)
  {
    hide MatchJournal;
  }
}

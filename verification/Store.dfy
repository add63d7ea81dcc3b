// The stores of the account and asset modules as one value, with the keeper's
// read-modify-write primitives.  A message that fails leaves no trace, so the
// primitives return the new store or an error.
module Store {
  import opened Types
  import opened Pools

  /** What a perp fill reads of the market and of the risk keeper. */
  datatype TradeEnv = TradeEnv(
    mark: Option<nat>,       // the gated mark price
    defaultImf: nat,         // the market's default initial margin fraction
    makerAvail: int,         // available cross collateral of either side
    takerAvail: int,
    snapshotOk: bool,        // the pre-trade risk snapshots could be taken
    makerOk: bool,           // verdicts of the post-trade risk checks
    takerOk: bool,
    openInterestOk: bool)    // the market accepts the new open interest

  /** What a message reads from outside the two modules: clock, markets, risk keeper and bank. */
  datatype Env = Env(
    now: int,
    pnl: int,                // signed unrealised PnL of the pool the message addresses
    avail: int,              // the pool's available collateral
    riskOk: bool,            // verdict of the post-state risk check
    healthy: bool,           // HEALTHY classification, read by the freeze gate
    bankOk: bool,            // the sender's bank balance covers the deposit
    minImf: Option<nat>,     // the addressed market's minimum initial margin fraction
    prefixes: map<nat, int>, // funding prefix sum of every known market
    trade: TradeEnv)

  // ---------- share entries of one account ----------

  /** Position of the entry for `pool`, or the length of the list. */
  function FindShareEntry(shares: seq<Share>, pool: nat): (i: nat)
    ensures i <= |shares|
    ensures i < |shares| ==> shares[i].pool == pool
    ensures forall j :: 0 <= j < i ==> shares[j].pool != pool
  {
    if shares == [] || shares[0].pool == pool then 0 else 1 + FindShareEntry(shares[1..], pool)
  }

  function UpsertEntry(shares: seq<Share>, pool: nat, amount: int, principal: int, time: int): Result<seq<Share>> {
    var i := FindShareEntry(shares, pool);
    if i < |shares| then
      Ok(shares[i := Share(pool, shares[i].amount + amount, shares[i].principal + principal, time)])
    else if |shares| >= SHARES_LIST_SIZE then Err(SharesListFull)
    else Ok(shares + [Share(pool, amount, principal, time)])
  }

  /** Debits shares and their part of the principal; an emptied entry is removed. */
  function ReduceEntry(shares: seq<Share>, pool: nat, amount: int): Result<seq<Share>> {
    var i := FindShareEntry(shares, pool);
    if i == |shares| || shares[i].amount < amount then Err(InsufficientShares)
    else if shares[i].amount == 0 then Err(DivisionByZero)
    else
      var e := shares[i];
      var e' := e.(amount := e.amount - amount, principal := e.principal - PrincipalOf(e, amount));
      if e'.amount == 0 then Ok(shares[..i] + shares[i + 1..]) else Ok(shares[i := e'])
  }

  // ---------- the stores ----------

  datatype State = State(
    authority: string,
    accounts: map<nat, Account>,
    owners: map<string, nat>,
    subs: set<(nat, nat)>,
    rows: map<(nat, nat), AssetRow>,
    positions: map<(nat, nat), Position>,
    metas: map<nat, Meta>,
    params: Params,
    nextMaster: nat,
    nextSub: nat,
    coins: map<string, int>,     // bank balance of the account module, by denom
    assets: map<nat, Asset>,
    denoms: map<string, nat>,
    nextAsset: nat,
    maxAsset: nat)
  {
    // ----- accounts -----

    function GetAccount(i: nat): Result<Account> {
      if i in accounts then Ok(accounts[i]) else Err(AccountNotFound)
    }

    function UpdateAccount(a: Account): State {
      this.(accounts := accounts[a.index := a])
    }

    /** Writes the row and both secondary indices. */
    function CreateAccount(a: Account): State {
      this.(accounts := accounts[a.index := a],
            owners := if a.owner != "" && a.kind.Master? then owners[a.owner := a.index] else owners,
            subs := if !a.kind.Master? && a.master != NIL_MASTER then subs + {(a.master, a.index)} else subs)
    }

    function MasterByOwner(owner: string): Result<Account> {
      if owner in owners then GetAccount(owners[owner]) else Err(AccountNotFound)
    }

    /** The owner's master account, created on first use. */
    function EnsureMasterAccount(owner: string, now: int): Result<(State, Account)> {
      if MasterByOwner(owner).Ok? then Ok((this, MasterByOwner(owner).value))
      else
        var i := if nextMaster < FIRST_USER_MASTER then FIRST_USER_MASTER else nextMaster;
        if i > MAX_MASTER_INDEX then Err(AccountIndexExceed)
        else
          var a := Account(i, NIL_MASTER, owner, Master, 0, 0, 0, now, [], None);
          Ok((this.(nextMaster := i + 1).CreateAccount(a), a))
    }

    function AllocateSubIndex(): Result<(State, nat)> {
      var i := if nextSub < MIN_SUB_INDEX then MIN_SUB_INDEX else nextSub;
      if i > MAX_ACCOUNT_INDEX then Err(AccountIndexExceed)
      else Ok((this.(nextSub := i + 1), i))
    }

    function AddCollateral(i: nat, delta: int): Result<State> {
      var a :- GetAccount(i);
      Ok(UpdateAccount(a.(collateral := a.collateral + delta)))
    }

    function IsAuthorized(signer: string, i: nat): Result<bool> {
      var a :- GetAccount(i);
      Ok(a.owner != "" && a.owner == signer)
    }

    /** Pool and insurance-fund accounts are closed to the generic messages. */
    function RejectPoolAccount(i: nat): Outcome {
      if i !in accounts then Fail(AccountNotFound)
      else Need(!accounts[i].IsPoolType(), PoolGenericMsg)
    }

    // ----- public pools -----

    function UpdatePoolInfo(i: nat, info: PoolInfo): Result<State> {
      var a :- GetAccount(i);
      :- Need(a.info.Some?, InvalidPoolAccount);
      Ok(UpdateAccount(a.(info := Some(info))))
    }

    function UpsertPublicPoolShare(m: nat, pool: nat, amount: int, principal: int, time: int): Result<State> {
      var a :- GetAccount(m);
      var shares :- UpsertEntry(a.shares, pool, amount, principal, time);
      Ok(UpdateAccount(a.(shares := shares)))
    }

    function ReducePublicPoolShare(m: nat, pool: nat, amount: int): Result<State> {
      var a :- GetAccount(m);
      var shares :- ReduceEntry(a.shares, pool, amount);
      Ok(UpdateAccount(a.(shares := shares)))
    }

    /** The insurance fund is operated by governance, any other pool by its master's owner. */
    function IsPoolOperator(pool: Account, sender: string): Result<bool> {
      if pool.kind.InsuranceFund? && pool.index == INSURANCE_FUND then Ok(sender == authority)
      else
        var m :- GetAccount(pool.master);
        Ok(m.owner != "" && m.owner == sender)
    }

    // ----- spot rows -----

    function GetRow(i: nat, x: nat): AssetRow {
      if (i, x) in rows then rows[(i, x)] else AssetRow(i, x, 0, 0, 0)
    }

    function SetRow(r: AssetRow): State {
      this.(rows := rows[(r.account, r.asset) := r])
    }

    function AddAccountAssetBalance(i: nat, x: nat, delta: int): Result<State> {
      var r := GetRow(i, x);
      :- Need(delta < 0 ==> r.balance - r.locked >= -delta, InsufficientFunds);
      :- Need(r.balance + delta >= 0, InsufficientFunds);
      Ok(SetRow(r.(balance := r.balance + delta)))
    }

    /** Both rows are read before either is written. */
    function TransferAccountAssetBalance(from: nat, to: nat, x: nat, amount: int, drain: bool): Result<State> {
      if amount == 0 then Ok(this)
      else
        :- Need(amount > 0, InsufficientFunds);
        var src, dst := GetRow(from, x), GetRow(to, x);
        :- Need((if drain then src.balance else src.balance - src.locked) >= amount, InsufficientFunds);
        var released := if !drain then 0 else if amount > src.locked then src.locked else amount;
        Ok(SetRow(src.(balance := src.balance - amount, locked := src.locked - released))
           .SetRow(dst.(balance := dst.balance + amount)))
    }

    function IncreaseLockedBalance(i: nat, x: nat, amount: int): Result<State> {
      if amount == 0 then Ok(this)
      else
        :- Need(amount > 0, InsufficientFunds);
        var r := GetRow(i, x);
        :- Need(r.balance - r.locked >= amount, InsufficientFunds);
        Ok(SetRow(r.(locked := r.locked + amount)))
    }

    function DecreaseLockedBalance(i: nat, x: nat, amount: int): Result<State> {
      if amount == 0 then Ok(this)
      else
        :- Need(amount > 0, InsufficientFunds);
        var r := GetRow(i, x);
        Ok(SetRow(r.(locked := r.locked - if amount > r.locked then r.locked else amount)))
    }

    /** Balance not reserved by resting orders; an underflow is clamped to zero. */
    function AvailableBalance(i: nat, x: nat): int {
      var r := GetRow(i, x);
      if r.balance - r.locked < 0 then 0 else r.balance - r.locked
    }

    // ----- positions -----

    function GetPosition(i: nat, k: nat): Position {
      if (i, k) in positions then positions[(i, k)] else Position(i, k, 0, 0, 0, 0, CROSS_MARGIN, 0)
    }

    function SetPosition(p: Position): State {
      this.(positions := positions[(p.account, p.market) := p])
    }

    // ----- bank and assets -----

    function Coins(denom: string): int {
      if denom in coins then coins[denom] else 0
    }

    function MoveCoins(denom: string, delta: int): State {
      this.(coins := coins[denom := Coins(denom) + delta])
    }

    function GetAsset(x: nat): Result<Asset> {
      if x in assets then Ok(assets[x]) else Err(AssetNotFound)
    }

    /** Refuses to reuse an index or a denom. */
    function CreateAsset(a: Asset): Result<State> {
      if a.index == 0 then Err(InvalidAssetParams) else
      :- Need(a.index !in assets && a.denom !in denoms, AssetExists);
      Ok(this.(assets := assets[a.index := a], denoms := denoms[a.denom := a.index]))
    }

    /** The denom is an asset's permanent identity. */
    function UpdateAsset(a: Asset): Result<State> {
      if a.index == 0 then Err(InvalidAssetParams) else
      var prev :- GetAsset(a.index);
      :- Need(prev.denom == a.denom, InvalidAssetParams);
      Ok(this.(assets := assets[a.index := a]))
    }
  }

  function Max(a: nat, b: nat): nat {
    if a > b then a else b
  }
}

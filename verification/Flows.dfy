// What a message lets flow across the ledger's totals: funding into entry
// quotes, realised amounts out of them, and amounts no coin backs.
module Flows {
  import opened Types
  import opened Store
  import opened Sums
  import opened Funding
  import opened Trades
  import opened Messages
  import P = Positions

  // ---------- funding ----------

  function PaymentAt(st: State, i: nat, k: nat, prefixes: map<nat, int>): int {
    if k in prefixes then Payment(st.GetPosition(i, k), prefixes[k]) else 0
  }

  function PaymentTable(st: State, i: nat, prefixes: map<nat, int>): map<(nat, nat), int> {
    map key | key in st.positions ::
      if Due(key, st.positions[key], i) && key.1 in prefixes then Payment(st.positions[key], prefixes[key.1]) else 0
  }

  /** What the open positions of an account pay together. */
  ghost function SweepPaid(st: State, i: nat, prefixes: map<nat, int>): int {
    Sum(PaymentTable(st, i, prefixes))
  }

  function MasterIndex(st: State, owner: string): nat {
    if owner in st.owners then st.owners[owner] else 0
  }

  predicate Margin(st: State, x: nat) {
    x in st.assets && st.assets[x].margin
  }

  /** Funding that a message makes positions pay into their entry quotes. */
  ghost function FundingPaid(st: State, msg: Msg, env: Env): int {
    if Exec(st, msg, env).Err? then 0
    else
      match msg
      case Withdraw(_, i, _, route, _) => if route.Perps? then SweepPaid(st, i, env.prefixes) else 0
      case Transfer(_, f, _, x, _) => if Margin(st, x) then SweepPaid(st, f, env.prefixes) else 0
      case UpdateMargin(_, i, k, _, _) => PaymentAt(st, i, k, env.prefixes)
      case CreatePublicPool(_, i, _, _, _) => SweepPaid(st, i, env.prefixes)
      case MintShares(s, _, _) => SweepPaid(st, MasterIndex(st, s), env.prefixes)
      case SettleFunding(i, k) => PaymentAt(st, i, k, env.prefixes)
      case PerpFill(m) => MatchPaid(st, m, env.prefixes)
      case CloseOut(m) => MatchPaid(st, m, env.prefixes)
      case _ => 0
  }

  /** The maker pays first, which matters when both sides are one account. */
  function MatchPaid(st: State, m: Match, prefixes: map<nat, int>): int {
    var st1 := SettlePosition(st, m.maker, m.market, prefixes);
    PaymentAt(st, m.maker, m.market, prefixes)
    + if st1.Ok? then PaymentAt(st1.value, m.taker, m.market, prefixes) else 0
  }

  // ---------- routing ----------

  function Reached(r: Result<State>, amount: int): int {
    if r.Ok? then amount else 0
  }

  /** What of a cross side's amounts reaches its collateral. */
  function CrossRouted(st: State, s: Side, fee: int, isMaker: bool, liqFee: int): int {
    var first := Credit(st, s.account, s.realized - fee);
    if first.Err? then 0
    else s.realized - fee + Reached(Credit(first.value, s.account, Charge(isMaker, liqFee)), Charge(isMaker, liqFee))
  }

  /** A re-margining that tops up the margin and then fails to debit the collateral. */
  function RebalanceRouted(st: State, s: Side, fee: int, isMaker: bool, m: Match, env: TradeEnv): int {
    match MarginDelta(s, fee, env)
    case Err(_) => 0
    case Ok(delta) =>
      if delta == 0 || ShortOf(delta, isMaker, m, env) then 0
      else delta + Reached(FoldMargin(st, s, delta).0.AddCollateral(s.account, -delta), -delta)
  }

  function IsolatedRouted(st: State, s: Side, fee: int, isMaker: bool, liqFee: int, m: Match, env: TradeEnv): int {
    var (st1, s1) := FoldMargin(st, s, s.realized - fee);
    var (st2, s2) := FoldMargin(st1, s1, Charge(isMaker, liqFee));
    s.realized - fee + Charge(isMaker, liqFee) + RebalanceRouted(st2, s2, fee, isMaker, m, env)
  }

  /** What of one side's amounts reaches collateral or margin, whether or not the step succeeds. */
  function AccountRouted(st: State, s: Side, fee: int, isMaker: bool, liqFee: int, m: Match, env: TradeEnv): int {
    if s.before.marginMode == ISOLATED_MARGIN then IsolatedRouted(st, s, fee, isMaker, liqFee, m, env)
    else CrossRouted(st, s, fee, isMaker, liqFee)
  }

  function FeesRouted(st: State, m: Match): int {
    var fees, liq := TakerFee(m) + MakerFee(m), Positive(LiquidationFee(m));
    var first := Credit(st, TREASURY, fees);
    if first.Err? then 0 else fees + Reached(Credit(first.value, m.Recipient(), liq), liq)
  }

  function SidesRouted(st: State, m: Match, maker: Side, taker: Side, env: TradeEnv): int {
    var first := ApplyAccount(st, taker, TakerFee(m), false, 0, m, env);
    AccountRouted(st, taker, TakerFee(m), false, 0, m, env)
    + if first.Stuck? then 0
      else AccountRouted(first.value, maker, MakerFee(m), true, LiquidationFee(m), m, env)
  }

  /** What of both sides' amounts and fees reaches collateral or margin. */
  function Routed(st: State, m: Match, maker: Side, taker: Side, env: TradeEnv): int {
    var sides := RouteSides(st, m, maker, taker, env);
    SidesRouted(st, m, maker, taker, env) + if sides.Stuck? then 0 else FeesRouted(sides.value, m)
  }

  // ---------- fills ----------

  /** What of a fill stays in the stores: the sides whose positions were written, and what was routed. */
  datatype Trace = Trace(maker: Option<Side>, taker: Option<Side>, routed: int)

  const NO_TRACE := Trace(None, None, 0)

  function TraceOf(st: State, m: Match, env: Env): Trace {
    var settled := SettleBoth(st, m, env.prefixes);
    if settled.Stuck? || SnapshotFails(m, env.trade) then NO_TRACE
    else
      match ChangeMaker(settled.value, m)
      case Err(_) => NO_TRACE
      case Ok((st1, maker)) =>
        match ChangeTaker(st1, m)
        case Err(_) => Trace(Some(maker), None, 0)
        case Ok((st2, taker)) => Trace(Some(maker), Some(taker), Routed(st2, m, maker, taker, env.trade))
  }

  /** A fill on a branch leaves a trace only when it is accepted. */
  function FillTrace(st: State, msg: Msg, env: Env): Trace {
    if msg.CloseOut? || (msg.PerpFill? && Exec(st, msg, env).Ok?) then TraceOf(st, msg.fill, env) else NO_TRACE
  }

  function Gain(s: Option<Side>): int { if s.Some? then s.value.realized else 0 }

  function Count(b: bool): nat { if b then 1 else 0 }

  function Shrunk(s: Option<Side>, d: int): nat { Count(s.Some? && P.PartialDecrease(s.value.before, d)) }

  function Sized(s: Option<Side>, d: int): int { if s.Some? then d else 0 }

  function DeltaOf(msg: Msg): int {
    if msg.PerpFill? || msg.CloseOut? then msg.fill.MakerDelta() else 0
  }

  function PriceOf(msg: Msg): nat {
    if msg.PerpFill? || msg.CloseOut? then msg.fill.price else 0
  }

  function MarketOf(msg: Msg): nat {
    if msg.PerpFill? || msg.CloseOut? then msg.fill.market else 0
  }

  /** What the written sides of a fill realise. */
  function Realized(st: State, msg: Msg, env: Env): int {
    var t := FillTrace(st, msg, env);
    Gain(t.maker) + Gain(t.taker)
  }

  /** How many of the written sides shrink without closing. */
  function Shrinks(st: State, msg: Msg, env: Env): nat {
    var t := FillTrace(st, msg, env);
    Shrunk(t.maker, DeltaOf(msg)) + Shrunk(t.taker, -DeltaOf(msg))
  }

  /** The size a fill adds to its market: none, unless only the maker's side was written. */
  function Unpaired(st: State, msg: Msg, env: Env): int {
    var t := FillTrace(st, msg, env);
    Sized(t.maker, DeltaOf(msg)) + Sized(t.taker, -DeltaOf(msg))
  }

  /** What a fill left unpaired or did not route. */
  function Stray(st: State, msg: Msg, env: Env): int {
    FillTrace(st, msg, env).routed - Realized(st, msg, env) + Unpaired(st, msg, env) * PriceOf(msg)
  }

  // ---------- leaks ----------

  /** What a message adds to the debts of an asset without a coin behind it. */
  function Leak(st: State, msg: Msg, env: Env, x: nat): int {
    if msg.MoveSpot? && msg.from == msg.to && msg.asset == x && Exec(st, msg, env).Ok? then msg.delta
    else if x == USDC then FillTrace(st, msg, env).routed
    else 0
  }
}

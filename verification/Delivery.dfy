// Perp fills, delivery of any message, and whole runs: the invariant is kept,
// and the books move by exactly what is routed, realised, paid in funding or truncated.
module Delivery {
  import opened Types
  import opened Arith
  import opened Store
  import opened Funding
  import opened Trades
  import opened Messages
  import opened Invariants
  import opened Flows
  import opened Preservation

  // ---------- one side of a fill ----------

  /** How a fill moved the totals: the USDC gap, all entry quotes together, and the signed size of market `k`. */
  ghost predicate Shifts(st: State, st': State, gap: int, entry: int, k: nat, d: int) {
    && (forall y :: Gap(st', y) == Gap(st, y) + if y == USDC then gap else 0)
    && TotalEntry(st'.positions) == TotalEntry(st.positions) + entry
    && Resizes(st, st', k, d)
  }

  lemma ShiftsOn(st: State, st1: State, st2: State, g1: int, e1: int, g2: int, e2: int, k: nat, d1: int, d2: int)
    requires Shifts(st, st1, g1, e1, k, d1) && Shifts(st1, st2, g2, e2, k, d2)
    ensures Shifts(st, st2, g1 + g2, e1 + e2, k, d1 + d2)
  {
    hide Gap, TotalEntry, MarketSize;
  }

  lemma MovesShift(st: State, st': State, gap: int, entry: int, k: nat)
    requires Moves(st, st', USDC, gap, entry)
    ensures Shifts(st, st', gap, entry, k, 0)
  {
    hide Gap, TotalEntry, MarketSize;
  }

  /** A position change moves no gap, and the entry quote by the notional less what is realised and truncated. */
  lemma ChangePositionStep(st: State, i: nat, k: nat, d: int, price: nat, error: Error)
    returns (st': State, s: Side, r: int)
    requires Core(st) && ChangePosition(st, i, k, d, price, error).Ok?
    ensures ChangePosition(st, i, k, d, price, error) == Ok((st', s)) && st' == st.(positions := st'.positions)
    ensures s.account == i && s.market == k && s.before == st.GetPosition(i, k)
    ensures Core(st') && Shifts(st, st', 0, d * price - s.realized - r, k, d)
    ensures Abs(r) <= Count(P.PartialDecrease(s.before, d))
  {
    hide Core, Moves, P.ApplyFill, P.PartialDecrease;
    var p := st.GetPosition(i, k);
    GetPositionOk(st, i, k);
    r := P.EntryIdentity(p, d, price);
    var res := ChangePosition(st, i, k, d, price, error).value;
    st', s := res.0, res.1;
    FillKeepsRest(p, d, price);
    hide Gap, TotalEntry, MarketSize;
    SetPositionMoves(st, s.after);
  }

  lemma FillKeepsRest(p: Position, d: int, price: nat)
    ensures var q := P.ApplyFill(p, d, price).position;
            q == p.(baseSize := p.baseSize + d, entryQuote := q.entryQuote)
  {
  }

  /** A credit happens whole or not at all. */
  lemma CreditStep(st: State, i: nat, amount: int) returns (st': State)
    requires Core(st)
    ensures st' == Kept(At(st, Credit(st, i, amount))) && Core(st')
    ensures Moves(st, st', USDC, Reached(Credit(st, i, amount), amount), 0)
  {
    hide Core, Moves;
    MovesNothing(st);
    if amount == 0 || i !in st.accounts { st' := st; } else { st' := AddCollateralStep(st, i, amount); }
  }

  lemma CrossStep(st: State, s: Side, fee: int, isMaker: bool, liqFee: int)
    requires Core(st)
    ensures var r := ApplyCross(st, s, fee, isMaker, liqFee);
            && Core(Kept(r)) && Moves(st, Kept(r), USDC, CrossRouted(st, s, fee, isMaker, liqFee), 0)
            && (r.Made? ==> CrossRouted(st, s, fee, isMaker, liqFee) == s.realized - fee + Charge(isMaker, liqFee))
  {
    hide Core, Moves, Credit, Charge;
    var charge := Charge(isMaker, liqFee);
    var st1 := CreditStep(st, s.account, s.realized - fee);
    var st2 := CreditStep(st1, s.account, charge);
    MovesOn(st, st1, st2, USDC, Reached(Credit(st, s.account, s.realized - fee), s.realized - fee), 0,
            Reached(Credit(st1, s.account, charge), charge), 0);
  }

  lemma FoldMarginStep(st: State, s: Side, delta: int)
    requires Core(st)
    ensures var (st', s') := FoldMargin(st, s, delta);
            && Core(st') && Moves(st, st', USDC, delta, 0) && st'.accounts == st.accounts
            && s' == s.(after := s'.after)
  {
    hide Core, Moves;
    if delta == 0 {
      MovesNothing(st);
    } else {
      var p := st.GetPosition(s.account, s.market);
      GetPositionOk(st, s.account, s.market);
      SetPositionStep(st, p.(allocatedMargin := p.allocatedMargin + delta));
    }
  }

  /** Re-margining moves an amount between cross collateral and isolated margin, unless it fails between the two. */
  lemma RebalanceStep(st: State, s: Side, fee: int, isMaker: bool, m: Match, env: TradeEnv)
    requires Core(st)
    ensures var r := Rebalance(st, s, fee, isMaker, m, env);
            && Core(Kept(r)) && Moves(st, Kept(r), USDC, RebalanceRouted(st, s, fee, isMaker, m, env), 0)
            && (r.Made? ==> RebalanceRouted(st, s, fee, isMaker, m, env) == 0)
  {
    hide Core, Moves, MarginDelta, FoldMargin, ShortOf;
    MovesNothing(st);
    if MarginDelta(s, fee, env).Ok? {
      var delta := MarginDelta(s, fee, env).value;
      if delta != 0 && !ShortOf(delta, isMaker, m, env) {
        FoldMarginStep(st, s, delta);
        var st1 := FoldMargin(st, s, delta).0;
        var st2 := CreditStep(st1, s.account, -delta);
        MovesOn(st, st1, st2, USDC, delta, 0, Reached(Credit(st1, s.account, -delta), -delta), 0);
      }
    }
  }

  lemma IsolatedStep(st: State, s: Side, fee: int, isMaker: bool, liqFee: int, m: Match, env: TradeEnv)
    requires Core(st)
    ensures var r := ApplyIsolated(st, s, fee, isMaker, liqFee, m, env);
            var routed := IsolatedRouted(st, s, fee, isMaker, liqFee, m, env);
            && Core(Kept(r)) && Moves(st, Kept(r), USDC, routed, 0)
            && (r.Made? ==> routed == s.realized - fee + Charge(isMaker, liqFee))
  {
    hide Core, Moves, FoldMargin, Rebalance, RebalanceRouted, Charge;
    var charge := Charge(isMaker, liqFee);
    FoldMarginStep(st, s, s.realized - fee);
    var (st1, s1) := FoldMargin(st, s, s.realized - fee);
    FoldMarginStep(st1, s1, charge);
    var (st2, s2) := FoldMargin(st1, s1, charge);
    MovesOn(st, st1, st2, USDC, s.realized - fee, 0, charge, 0);
    RebalanceStep(st2, s2, fee, isMaker, m, env);
    MovesOn(st, st2, Kept(Rebalance(st2, s2, fee, isMaker, m, env)), USDC, s.realized - fee + charge, 0,
            RebalanceRouted(st2, s2, fee, isMaker, m, env), 0);
  }

  /** Whatever the margin mode, a side that is routed whole adds its realised amount to the debts, less its fees. */
  lemma AccountStep(st: State, s: Side, fee: int, isMaker: bool, liqFee: int, m: Match, env: TradeEnv)
    requires Core(st)
    ensures var r := ApplyAccount(st, s, fee, isMaker, liqFee, m, env);
            var routed := AccountRouted(st, s, fee, isMaker, liqFee, m, env);
            && Core(Kept(r)) && Moves(st, Kept(r), USDC, routed, 0)
            && (r.Made? ==> routed == s.realized - fee + Charge(isMaker, liqFee))
  {
    hide Core, Moves, ApplyCross, ApplyIsolated, CrossRouted, IsolatedRouted;
    if s.before.marginMode == ISOLATED_MARGIN {
      IsolatedStep(st, s, fee, isMaker, liqFee, m, env);
    } else {
      CrossStep(st, s, fee, isMaker, liqFee);
    }
  }

  lemma FeesStep(st: State, m: Match)
    requires Core(st)
    ensures var r := CreditFees(st, m);
            && Core(Kept(r)) && Moves(st, Kept(r), USDC, FeesRouted(st, m), 0)
            && (r.Made? ==> FeesRouted(st, m) == TakerFee(m) + MakerFee(m) + Positive(LiquidationFee(m)))
  {
    hide Core, Moves, Credit, TakerFee, MakerFee, LiquidationFee, Positive;
    var fees, liq := TakerFee(m) + MakerFee(m), Positive(LiquidationFee(m));
    var st1 := CreditStep(st, TREASURY, fees);
    var st2 := CreditStep(st1, m.Recipient(), liq);
    MovesOn(st, st1, st2, USDC, Reached(Credit(st, TREASURY, fees), fees), 0,
            Reached(Credit(st1, m.Recipient(), liq), liq), 0);
  }

  // ---------- both sides ----------

  lemma SidesStep(st: State, m: Match, maker: Side, taker: Side, env: TradeEnv)
    requires Core(st)
    ensures var r := RouteSides(st, m, maker, taker, env);
            && Core(Kept(r)) && Moves(st, Kept(r), USDC, SidesRouted(st, m, maker, taker, env), 0)
            && (r.Made? ==> SidesRouted(st, m, maker, taker, env)
                            == maker.realized + taker.realized - TakerFee(m) - MakerFee(m) - Positive(LiquidationFee(m)))
  {
    hide Core, Moves, ApplyAccount, AccountRouted, TakerFee, MakerFee, LiquidationFee;
    var tf, mf, lf := TakerFee(m), MakerFee(m), LiquidationFee(m);
    var r1, a1 := ApplyAccount(st, taker, tf, false, 0, m, env), AccountRouted(st, taker, tf, false, 0, m, env);
    AccountStep(st, taker, tf, false, 0, m, env);
    if r1.Made? {
      var st1 := r1.value;
      AccountStep(st1, maker, mf, true, lf, m, env);
      MovesOn(st, st1, Kept(ApplyAccount(st1, maker, mf, true, lf, m, env)), USDC, a1, 0,
              AccountRouted(st1, maker, mf, true, lf, m, env), 0);
    }
  }

  /** Fees only change hands, so a match that is routed whole adds to the debts what both sides realise. */
  lemma RouteStep(st: State, m: Match, maker: Side, taker: Side, env: TradeEnv)
    requires Core(st)
    ensures var r := RouteBoth(st, m, maker, taker, env);
            && Core(Kept(r)) && Moves(st, Kept(r), USDC, Routed(st, m, maker, taker, env), 0)
            && (r.Made? ==> Routed(st, m, maker, taker, env) == maker.realized + taker.realized)
  {
    hide Core, Moves, RouteSides, SidesRouted, CreditFees, FeesRouted, TakerFee, MakerFee, LiquidationFee, Positive;
    var sides, routed := RouteSides(st, m, maker, taker, env), SidesRouted(st, m, maker, taker, env);
    SidesStep(st, m, maker, taker, env);
    if sides.Made? {
      FeesStep(sides.value, m);
      MovesOn(st, sides.value, Kept(CreditFees(sides.value, m)), USDC, routed, 0, FeesRouted(sides.value, m), 0);
    }
  }

  lemma SettleBothStep(st: State, m: Match, prefixes: map<nat, int>) returns (st': State)
    requires Core(st)
    ensures st' == Kept(SettleBoth(st, m, prefixes)) && Keeps(st, st', MatchPaid(st, m, prefixes))
  {
    hide Core, Moves, SettlePosition, PaymentAt;
    if m.market in prefixes {
      KnownMarket(st, m.maker, m.market, prefixes);
      var st1 := SettlePositionStep(st, m.maker, m.market, prefixes);
      KnownMarket(st1, m.taker, m.market, prefixes);
      st' := SettlePositionStep(st1, m.taker, m.market, prefixes);
      MovesOn(st, st1, st', USDC, 0, PaymentAt(st, m.maker, m.market, prefixes),
              0, PaymentAt(st1, m.taker, m.market, prefixes));
    } else {
      KnownMarket(st, m.maker, m.market, prefixes);
      st' := st;
      MovesNothing(st);
    }
  }

  lemma KnownMarket(st: State, i: nat, k: nat, prefixes: map<nat, int>)
    ensures SettlePosition(st, i, k, prefixes).Ok? <==> k in prefixes
    ensures k !in prefixes ==> PaymentAt(st, i, k, prefixes) == 0
  {
    hide Settled, Payment;
  }

  /** What remains of a match after its position changes: the written sides shift entry quotes and sizes. */
  lemma ChangeBothStep(st: State, m: Match) returns (st': State, r: int)
    requires Core(st)
    ensures var d, first := m.MakerDelta(), ChangeMaker(st, m);
            match first
            case Err(_) => st' == st && r == 0 && ChangeBoth(st, m).Stuck? && ChangeBoth(st, m).state == st
            case Ok((st1, maker)) =>
              match ChangeTaker(st1, m)
              case Err(_) =>
                && st' == st1 && ChangeBoth(st, m).Stuck? && ChangeBoth(st, m).state == st1
                && Shifts(st, st', 0, d * m.price - maker.realized - r, m.market, d)
                && Abs(r) <= Count(P.PartialDecrease(maker.before, d))
              case Ok((st2, taker)) =>
                && st' == st2 && ChangeBoth(st, m) == Made((st2, maker, taker))
                && Shifts(st, st', 0, -maker.realized - taker.realized - r, m.market, 0)
                && Abs(r) <= Count(P.PartialDecrease(maker.before, d)) + Count(P.PartialDecrease(taker.before, -d))
    ensures Core(st')
  {
    hide Core, Moves, Shifts, ChangePosition, P.PartialDecrease;
    var d := m.MakerDelta();
    st', r := st, 0;
    if ChangeMaker(st, m).Ok? {
      var st1, s1, r1 := ChangePositionStep(st, m.maker, m.market, d, m.price, MakerInvalidPosition);
      st', r := st1, r1;
      if ChangeTaker(st1, m).Ok? {
        var st2, s2, r2 := ChangePositionStep(st1, m.taker, m.market, -d, m.price, TakerInvalidPosition);
        assert -d * m.price == -(d * m.price);
        ShiftsOn(st, st1, st2, 0, d * m.price - s1.realized - r1, 0, -d * m.price - s2.realized - r2, m.market, d, -d);
        st', r := st2, r1 + r2;
      }
    }
  }

  lemma ApproveKeeps(st: State, m: Match, env: TradeEnv)
    ensures Kept(Approve(st, m, env)) == st
  {
    hide RiskCheck;
  }

  /**
   * What a match leaves behind, finished or not: its trace adds to the debts in
   * USDC what was routed, to the entry quotes the unpaired notional less what
   * the written sides realise, up to one unit for each of them that shrinks, and
   * to the market the unpaired size.  A finished match leaves both sides written
   * and routes exactly what they realise.
   */
  lemma FillMoves(st: State, m: Match, env: Env) returns (st': State, r: int)
    requires Core(st)
    ensures st' == Kept(ApplyMatch(st, m, env)) && Core(st')
    ensures var t, d := TraceOf(st, m, env), m.MakerDelta();
            var size := Sized(t.maker, d) + Sized(t.taker, -d);
            && Shifts(st, st', t.routed,
                      MatchPaid(st, m, env.prefixes) + size * m.price - Gain(t.maker) - Gain(t.taker) - r, m.market, size)
            && Abs(r) <= Shrunk(t.maker, d) + Shrunk(t.taker, -d)
            && (ApplyMatch(st, m, env).Made? ==>
                  t.maker.Some? && t.taker.Some? && t.routed == t.maker.value.realized + t.taker.value.realized)
  {
    hide Core, Moves, Shifts, SettleBoth, ChangeMaker, ChangeTaker, RouteBoth, Routed, Approve, MatchPaid,
         SnapshotFails, P.PartialDecrease;
    var paid, d := MatchPaid(st, m, env.prefixes), m.MakerDelta();
    var st1 := SettleBothStep(st, m, env.prefixes);
    MovesShift(st, st1, 0, paid, m.market);
    st', r := st1, 0;
    if SettleBoth(st, m, env.prefixes).Made? && !SnapshotFails(m, env.trade) && ChangeMaker(st1, m).Ok? {
      var st2, r2 := ChangeBothStep(st1, m);
      st', r := st2, r2;
      var (stm, maker) := ChangeMaker(st1, m).value;
      if ChangeTaker(stm, m).Err? {
        ShiftsOn(st, st1, st2, 0, paid, 0, d * m.price - maker.realized - r, m.market, 0, d);
      } else {
        var taker := ChangeTaker(stm, m).value.1;
        ShiftsOn(st, st1, st2, 0, paid, 0, -maker.realized - taker.realized - r, m.market, 0, 0);
        RouteStep(st2, m, maker, taker, env.trade);
        var routed := Routed(st2, m, maker, taker, env.trade);
        st' := Kept(RouteBoth(st2, m, maker, taker, env.trade));
        MovesShift(st2, st', routed, 0, m.market);
        ShiftsOn(st, st2, st', 0, paid - maker.realized - taker.realized - r, routed, 0, m.market, 0, 0);
        ApproveKeeps(st', m, env.trade);
      }
    }
  }

  // ---------- any message ----------

  /** What matching and funding do between messages. */
  predicate Settlement(msg: Msg) {
    msg.LockSpot? || msg.UnlockSpot? || msg.MoveSpot? || msg.SettleFunding? || Fills(msg)
  }

  predicate Fills(msg: Msg) {
    msg.PerpFill? || msg.CloseOut?
  }

  predicate PoolMessage(msg: Msg) {
    msg.CreatePublicPool? || msg.UpdatePublicPool? || msg.MintShares? || msg.BurnShares?
    || msg.ForceBurnShares? || msg.StrategyTransfer?
  }

  /** The books after one message: what leaked, what funding was paid, what stayed unpaired and what truncation lost. */
  ghost predicate Booked(st: State, msg: Msg, env: Env, st': State) {
    && (forall x :: Gap(st', x) == Gap(st, x) + Leak(st, msg, env, x))
    && Abs(TotalEntry(st'.positions) - TotalEntry(st.positions) - FundingPaid(st, msg, env)
           - Unpaired(st, msg, env) * PriceOf(msg) + Realized(st, msg, env)) <= Shrinks(st, msg, env)
    && Resizes(st, st', MarketOf(msg), Unpaired(st, msg, env))
  }

  lemma KeptIsBooked(st: State, msg: Msg, env: Env, st': State)
    requires !Fills(msg) && !msg.MoveSpot? && Keeps(st, st', FundingPaid(st, msg, env))
    ensures Booked(st, msg, env, st')
  {
    hide Core, Gap, TotalEntry, MarketSize, FundingPaid, Exec;
  }

  lemma PoolMessageKeeps(st: State, msg: Msg, env: Env)
    requires Core(st) && PoolMessage(msg) && Exec(st, msg, env).Ok?
    ensures Keeps(st, Exec(st, msg, env).value.state, FundingPaid(st, msg, env))
  {
    hide Core, Keeps, ExecBurn, ExecBurnShares, ExecForceBurnShares, ExecMintShares, ExecCreatePublicPool,
         ExecUpdatePublicPool, ExecStrategyTransfer, SweepPaid;
    match msg {
      case CreatePublicPool(s, i, n, f, r) => CreatePublicPoolKeeps(st, s, i, n, f, r, env);
      case UpdatePublicPool(s, p, c, f, r) => UpdatePublicPoolKeeps(st, s, p, c, f, r, env);
      case MintShares(s, p, u) => MintKeeps(st, s, p, u, env);
      case BurnShares(s, p, n) =>
        var m, operator := BurnSharesIsBurn(st, s, p, n, env);
        BurnKeeps(st, p, m, operator, n, false, env);
      case ForceBurnShares(s, p, d, n) =>
        ForceBurnIsBurn(st, s, p, d, n, env);
        BurnKeeps(st, p, st.accounts[d], false, n, true, env);
      case StrategyTransfer(s, p, f, t, d) => StrategyTransferRefused(st, s, p, f, t, d);
    }
  }

  lemma LedgerMessageKeeps(st: State, msg: Msg, env: Env)
    requires Core(st) && !PoolMessage(msg) && !Settlement(msg) && Exec(st, msg, env).Ok?
    ensures Keeps(st, Exec(st, msg, env).value.state, FundingPaid(st, msg, env))
  {
    hide Core, Keeps, ExecDeposit, ExecWithdraw, ExecTransfer, ExecCreateSubAccount, ExecUpdateMargin,
         ExecRegisterAsset, ExecUpdateAsset, SweepPaid, PaymentAt;
    match msg {
      case Deposit(s, b, x, r, n) => DepositKeeps(st, s, b, x, r, n, env);
      case Withdraw(s, i, x, r, n) => WithdrawKeeps(st, s, i, x, r, n, env);
      case Transfer(s, f, t, x, n) => TransferKeeps(st, s, f, t, x, n, env);
      case CreateSubAccount(s, i) => CreateSubAccountKeeps(st, s, i, env);
      case UpdateAccountConfig(s, i, m) =>
        KeyFacts(st, i);
        TradingModeKeeps(st, i, m);
      case UpdateAccountAssetConfig(s, i, x, m) =>
        CoreTables(st);
        GetRowOk(st, i, x);
        RowSettingKeeps(st, st.GetRow(i, x).(marginMode := m));
      case UpdateMargin(s, i, k, a, d) => UpdateMarginKeeps(st, s, i, k, a, d, env);
      case UpdateLeverage(s, i, k, m, f) =>
        GetPositionOk(st, i, k);
        PositionSettingKeeps(st, i, k, st.GetPosition(i, k).(marginMode := m, initialMarginFraction := f));
      case UpdateParams(s, p) => ParamsKeep(st, p);
      case RegisterAsset(s, d, name, c, m, t, w, g) => RegisterAssetKeeps(st, s, d, name, c, m, t, w, g);
      case UpdateAsset(s, x, t, w, e) => UpdateAssetKeeps(st, s, x, t, w, e);
    }
  }

  lemma SettlementKeeps(st: State, msg: Msg, env: Env)
    requires Core(st) && Settlement(msg) && !Fills(msg) && Exec(st, msg, env).Ok?
    ensures var st' := Exec(st, msg, env).value.state; Core(st') && Booked(st, msg, env, st')
  {
    hide Core, Moves, SettlePosition, PaymentAt, Booked, State.IncreaseLockedBalance, State.DecreaseLockedBalance,
         State.TransferAccountAssetBalance;
    match msg {
      case LockSpot(i, x, d) =>
        LockKeeps(st, i, x, d);
        KeptIsBooked(st, msg, env, Exec(st, msg, env).value.state);
      case UnlockSpot(i, x, d) =>
        LockKeeps(st, i, x, d);
        KeptIsBooked(st, msg, env, Exec(st, msg, env).value.state);
      case MoveSpot(f, t, x, d, drain) =>
        MoveSpotMoves(st, f, t, x, d, drain);
        MoveIsBooked(st, msg, env, Exec(st, msg, env).value.state);
      case SettleFunding(i, k) =>
        var st' := SettlePositionStep(st, i, k, env.prefixes);
        KeptIsBooked(st, msg, env, st');
    }
  }

  /** A fill on a branch that is accepted, and any close-out, leave what the engine wrote. */
  lemma FillState(st: State, msg: Msg, env: Env)
    requires Fills(msg) && Exec(st, msg, env).Ok?
    ensures Exec(st, msg, env).value.state == Kept(ApplyMatch(st, msg.fill, env))
    ensures msg.PerpFill? ==> ApplyMatch(st, msg.fill, env).Made?
  {
    hide ApplyMatch;
  }

  lemma FillKeeps(st: State, msg: Msg, env: Env)
    requires Core(st) && Fills(msg) && Exec(st, msg, env).Ok?
    ensures var st' := Exec(st, msg, env).value.state; Core(st') && Booked(st, msg, env, st')
  {
    hide Core, Exec, ApplyMatch, MatchPaid, TraceOf, Booked, Shifts;
    FillState(st, msg, env);
    var st', r := FillMoves(st, msg.fill, env);
    FillIsBooked(st, msg, env, st', r);
  }

  lemma MoveIsBooked(st: State, msg: Msg, env: Env, st': State)
    requires msg.MoveSpot? && Exec(st, msg, env).Ok?
    requires Moves(st, st', msg.asset, if msg.from == msg.to then msg.delta else 0, 0)
    ensures Booked(st, msg, env, st')
  {
    hide Gap, TotalEntry, MarketSize, Exec;
  }

  lemma FillIsBooked(st: State, msg: Msg, env: Env, st': State, r: int)
    requires Fills(msg) && Exec(st, msg, env).Ok?
    requires var m := msg.fill;
             var t, d := TraceOf(st, m, env), m.MakerDelta();
             var size := Sized(t.maker, d) + Sized(t.taker, -d);
             && Shifts(st, st', t.routed,
                       MatchPaid(st, m, env.prefixes) + size * m.price - Gain(t.maker) - Gain(t.taker) - r, m.market, size)
             && Abs(r) <= Shrunk(t.maker, d) + Shrunk(t.taker, -d)
    ensures Booked(st, msg, env, st')
  {
    hide Gap, TotalEntry, MarketSize, Exec, TraceOf, Gain, Shrunk, Sized, MatchPaid;
  }

  /** Every message, accepted or refused, keeps the invariant and is booked exactly. */
  lemma DeliverKeeps(st: State, msg: Msg, env: Env)
    requires Core(st)
    ensures Core(Deliver(st, msg, env)) && Booked(st, msg, env, Deliver(st, msg, env))
  {
    hide Core, Exec, Booked, FundingPaid, Moves;
    if Exec(st, msg, env).Err? {
      RefusedIsBooked(st, msg, env);
    } else if Fills(msg) {
      FillKeeps(st, msg, env);
    } else if Settlement(msg) {
      SettlementKeeps(st, msg, env);
    } else {
      if PoolMessage(msg) { PoolMessageKeeps(st, msg, env); } else { LedgerMessageKeeps(st, msg, env); }
      KeptIsBooked(st, msg, env, Exec(st, msg, env).value.state);
    }
  }

  lemma RefusedIsBooked(st: State, msg: Msg, env: Env)
    requires Exec(st, msg, env).Err?
    ensures Booked(st, msg, env, st)
  {
    hide Gap, TotalEntry, MarketSize, Exec, TraceOf, P.PartialDecrease;
    NeverRefused(st, msg, env);
    assert FillTrace(st, msg, env) == NO_TRACE;
  }

  lemma NeverRefused(st: State, msg: Msg, env: Env)
    ensures msg.CloseOut? ==> Exec(st, msg, env).Ok?
  {
    hide ApplyMatch;
  }

  // ---------- runs ----------

  /** The invariant survives every run of messages, perp fills included. */
  lemma {:induction false} RunKeeps(st: State, txs: seq<Tx>)
    requires Core(st)
    ensures Core(Run(st, txs))
    decreases |txs|
  {
    hide Core, Deliver;
    if txs != [] {
      RunKeeps(st, txs[..|txs| - 1]);
      DeliverKeeps(Run(st, txs[..|txs| - 1]), txs[|txs| - 1].msg, txs[|txs| - 1].env);
    }
  }

  /** What leaked over a run, asset by asset. */
  function Leaked(st: State, txs: seq<Tx>, x: nat): int {
    if txs == [] then 0
    else
      var front, last := txs[..|txs| - 1], txs[|txs| - 1];
      Leaked(st, front, x) + Leak(Run(st, front), last.msg, last.env, x)
  }

  /** Funding paid over a run. */
  ghost function Paid(st: State, txs: seq<Tx>): int {
    if txs == [] then 0
    else
      var front, last := txs[..|txs| - 1], txs[|txs| - 1];
      Paid(st, front) + FundingPaid(Run(st, front), last.msg, last.env)
  }

  /** What the written sides of a run's fills realised. */
  function Gains(st: State, txs: seq<Tx>): int {
    if txs == [] then 0
    else
      var front, last := txs[..|txs| - 1], txs[|txs| - 1];
      Gains(st, front) + Realized(Run(st, front), last.msg, last.env)
  }

  /** How often a fill of the run shrank a position without closing it. */
  function Shrinkings(st: State, txs: seq<Tx>): nat {
    if txs == [] then 0
    else
      var front, last := txs[..|txs| - 1], txs[|txs| - 1];
      Shrinkings(st, front) + Shrinks(Run(st, front), last.msg, last.env)
  }

  /** Unpaired sizes that the close-outs of a run left in a market. */
  function Orphaned(st: State, txs: seq<Tx>, market: nat): int {
    if txs == [] then 0
    else
      var front, last := txs[..|txs| - 1], txs[|txs| - 1];
      Orphaned(st, front, market)
      + if MarketOf(last.msg) == market then Unpaired(Run(st, front), last.msg, last.env) else 0
  }

  /** The notional of everything left unpaired. */
  function OrphanedNotional(st: State, txs: seq<Tx>): int {
    if txs == [] then 0
    else
      var front, last := txs[..|txs| - 1], txs[|txs| - 1];
      OrphanedNotional(st, front) + Unpaired(Run(st, front), last.msg, last.env) * PriceOf(last.msg)
  }

  /**
   * The books over any run: every asset's gap moves by exactly what leaked, the
   * entry quotes by the funding paid and the unpaired notional less what was
   * realised, up to one unit for each position that shrank, and every market's
   * signed size by exactly what was left unpaired in it.
   */
  lemma {:induction false} RunIsBooked(st: State, txs: seq<Tx>)
    requires Core(st)
    ensures forall x :: Gap(Run(st, txs), x) == Gap(st, x) + Leaked(st, txs, x)
    ensures Abs(TotalEntry(Run(st, txs).positions) - TotalEntry(st.positions) - Paid(st, txs)
                - OrphanedNotional(st, txs) + Gains(st, txs)) <= Shrinkings(st, txs)
    ensures forall k :: MarketSize(Run(st, txs).positions, k) == MarketSize(st.positions, k) + Orphaned(st, txs, k)
    decreases |txs|
  {
    hide Core, Deliver, Gap, TotalEntry, MarketSize, Leak, FundingPaid, Realized, Shrinks, Unpaired, PriceOf, MarketOf;
    if txs != [] {
      var front, last := txs[..|txs| - 1], txs[|txs| - 1];
      RunIsBooked(st, front);
      RunKeeps(st, front);
      DeliverKeeps(Run(st, front), last.msg, last.env);
    }
  }

  // ---------- when a fill leaks ----------

  /** The two positions a match fills, as they stand once funding is settled. */
  function MakerBefore(st: State, m: Match, prefixes: map<nat, int>): Position
    requires m.market in prefixes
  {
    Settled(st.GetPosition(m.maker, m.market), prefixes[m.market])
  }

  function TakerBefore(st: State, m: Match, prefixes: map<nat, int>): Position
    requires m.market in prefixes
  {
    if m.taker == m.maker then P.ApplyFill(MakerBefore(st, m, prefixes), m.MakerDelta(), m.price).position
    else Settled(st.GetPosition(m.taker, m.market), prefixes[m.market])
  }

  /**
   * Exactly when an accepted match leaves the debts in USDC as they were: the
   * entry quote released on its closing sides is the notional they close, which
   * the two positions and the match show beforehand.
   */
  lemma FillLeaksNothingIff(st: State, m: Match, env: Env)
    requires Core(st) && ApplyMatch(st, m, env).Made?
    ensures m.market in env.prefixes
    ensures var p, q, d := MakerBefore(st, m, env.prefixes), TakerBefore(st, m, env.prefixes), m.MakerDelta();
            (Gap(Deliver(st, PerpFill(m), env), USDC) == Gap(st, USDC)
             <==> P.Released(p, d) + P.Released(q, -d) == -((P.ClosedDelta(p, d) + P.ClosedDelta(q, -d)) * m.price))
  {
    hide Core, Gap, TotalEntry, MarketSize, ApplyMatch, TraceOf, MatchPaid, P.ApplyFill, P.Released, P.ClosedDelta,
         MakerBefore, TakerBefore;
    var st', r := FillMoves(st, m, env);
    AcceptedSides(st, m, env);
    var p, q, d := MakerBefore(st, m, env.prefixes), TakerBefore(st, m, env.prefixes), m.MakerDelta();
    P.RealizedIsClosedNotional(p, d, m.price);
    P.RealizedIsClosedNotional(q, -d, m.price);
    Distributes(P.ClosedDelta(p, d), P.ClosedDelta(q, -d), m.price);
  }

  /** The sides of an accepted match realise what their settled positions realise. */
  lemma AcceptedSides(st: State, m: Match, env: Env)
    requires Core(st) && ApplyMatch(st, m, env).Made?
    ensures m.market in env.prefixes
    ensures var t, d := TraceOf(st, m, env), m.MakerDelta();
            && t.maker.Some? && t.taker.Some?
            && t.maker.value.realized == P.ApplyFill(MakerBefore(st, m, env.prefixes), d, m.price).realized
            && t.taker.value.realized == P.ApplyFill(TakerBefore(st, m, env.prefixes), -d, m.price).realized
  {
    hide Core, RouteBoth, Routed, Approve, SnapshotFails, P.ApplyFill, Payment;
    KnownMarket(st, m.maker, m.market, env.prefixes);
    GetPositionOk(st, m.maker, m.market);
    GetPositionOk(st, m.taker, m.market);
    var x := env.prefixes[m.market];
    var p := st.GetPosition(m.maker, m.market);
    SettledTwice(p, x);
    FillKeepsRest(Settled(p, x), m.MakerDelta(), m.price);
  }

  lemma SettledTwice(p: Position, prefix: int)
    ensures Settled(Settled(p, prefix), prefix) == Settled(p, prefix)
  {
    assert p.baseSize * (prefix - prefix) == 0;
  }

  // ---------- torn fills ----------

  /** The guard of the branch that tears a fill: the maker's new position is within bounds, the taker's is not. */
  predicate TakerOutOfBounds(st: State, m: Match, env: Env) {
    var settled := SettleBoth(st, m, env.prefixes);
    && settled.Made? && !SnapshotFails(m, env.trade)
    && var mine := P.ApplyFill(settled.value.GetPosition(m.maker, m.market), m.MakerDelta(), m.price).position;
       && WithinBounds(mine)
       && var st1 := settled.value.SetPosition(mine.(account := m.maker, market := m.market));
          !WithinBounds(P.ApplyFill(st1.GetPosition(m.taker, m.market), -m.MakerDelta(), m.price).position)
  }

  /** Exactly when a close-out changes the signed size of its market: its maker fits, its taker does not. */
  lemma CloseOutOrphansIff(st: State, m: Match, env: Env)
    requires Core(st)
    ensures MarketSize(Deliver(st, CloseOut(m), env).positions, m.market) != MarketSize(st.positions, m.market)
       <==> TakerOutOfBounds(st, m, env) && 0 < m.base
    ensures TakerOutOfBounds(st, m, env) ==>
              MarketSize(Deliver(st, CloseOut(m), env).positions, m.market)
              == MarketSize(st.positions, m.market) + m.MakerDelta()
  {
    hide Core, MarketSize, Gap, TotalEntry, SettleBoth, SnapshotFails, WithinBounds, P.ApplyFill, ApplyMatch, Routed,
         Shifts, MatchPaid;
    var st', r := FillMoves(st, m, env);
    ShiftsResize(st, st', m, env, r);
    TornTrace(st, m, env);
  }

  lemma ShiftsResize(st: State, st': State, m: Match, env: Env, r: int)
    requires var t, d := TraceOf(st, m, env), m.MakerDelta();
             var size := Sized(t.maker, d) + Sized(t.taker, -d);
             Shifts(st, st', t.routed,
                    MatchPaid(st, m, env.prefixes) + size * m.price - Gain(t.maker) - Gain(t.taker) - r, m.market, size)
    ensures var t, d := TraceOf(st, m, env), m.MakerDelta();
            MarketSize(st'.positions, m.market)
            == MarketSize(st.positions, m.market) + Sized(t.maker, d) + Sized(t.taker, -d)
  {
    hide MarketSize, Gap, TotalEntry, TraceOf, MatchPaid;
  }

  lemma TornTrace(st: State, m: Match, env: Env)
    ensures var t := TraceOf(st, m, env);
            (t.maker.Some? && t.taker.None? <==> TakerOutOfBounds(st, m, env)) && (t.taker.Some? ==> t.maker.Some?)
  {
    hide SettleBoth, SnapshotFails, P.ApplyFill, Routed;
  }

  /** A fill is torn when a position was written and its amounts were not all routed. */
  predicate Torn(st: State, msg: Msg, env: Env) {
    && msg.CloseOut?
    && var settled := SettleBoth(st, msg.fill, env.prefixes);
       && settled.Made? && !SnapshotFails(msg.fill, env.trade) && ChangeMaker(settled.value, msg.fill).Ok?
       && match ChangeBoth(settled.value, msg.fill)
          case Stuck(_, _) => true
          case Made((st2, maker, taker)) => RouteBoth(st2, msg.fill, maker, taker, env.trade).Stuck?
  }

  /** A fill that is not torn leaves nothing unpaired and routes exactly what it realises, refused or not. */
  lemma OnlyTornFillsStray(st: State, msg: Msg, env: Env)
    requires Core(st) && !Torn(st, msg, env)
    ensures Unpaired(st, msg, env) == 0 && Stray(st, msg, env) == 0
  {
    hide Core, Moves, SettleBoth, SnapshotFails, ChangeMaker, ChangeTaker, RouteBoth, Routed, Approve;
    if Fills(msg) && FillTrace(st, msg, env) != NO_TRACE {
      var m := msg.fill;
      var st1 := SettleBothStep(st, m, env.prefixes);
      var st2, r := ChangeBothStep(st1, m);
      var (stm, maker) := ChangeMaker(st1, m).value;
      var taker := ChangeTaker(stm, m).value.1;
      RouteStep(st2, m, maker, taker, env.trade);
    }
  }
}

// The perp trade engine as an object over the account keeper, and the
// application that routes messages and rolls failed ones back.
module Engines {
  import opened Types
  import opened Arith
  import opened Positions
  import opened Store
  import opened Funding
  import opened Trades
  import opened Messages
  import opened Invariants
  import opened Delivery
  import opened Exits
  import opened Keepers

  /** A method did what an attempt says, and left the stores where the attempt left them even when it failed. */
  predicate Tried(r: Result<()>, after: State, spec: Attempt<State>) {
    && after == Kept(spec)
    && match spec
       case Made(_) => r == Ok(())
       case Stuck(_, e) => r == Err(e)
  }

  // ---------- x/trade/keeper/perp ----------

  class Engine {
    const keeper: Keeper

    constructor (keeper: Keeper)
      ensures this.keeper == keeper
    {
      this.keeper := keeper;
    }

    /** Rewrites one side's position and reports what the later steps need. */
    method ApplyPositionChange(i: nat, k: nat, price: nat, d: int, error: Error) returns (r: Result<Side>)
      modifies keeper
      ensures match ChangePosition(old(keeper.Stores()), i, k, d, price, error)
              case Ok((st, s)) => r == Ok(s) && keeper.Stores() == st
              case Err(e) => r == Err(e) && keeper.Stores() == old(keeper.Stores())
    {
      hide ApplyFill;
      var before := keeper.GetPosition(i, k);
      var fill := ApplyFill(before, d, price);
      var p := fill.position.(account := i, market := k);
      if !WithinBounds(p) { return Err(error); }
      keeper.SetPosition(p);
      var oiDelta := Abs(p.baseSize) - Abs(before.baseSize);
      return Ok(Side(i, k, before, p, oiDelta, fill.flipped, fill.realized));
    }

    /** The improvement over the zero price, capped by the liquidation fee rate. */
    method LiquidationImprovementFee(m: Match) returns (fee: int)
      ensures fee == ImprovementFee(m)
    {
      if m.liquidationBps == 0 || m.base == 0 || m.price == 0 { return 0; }
      var improvement: int;
      if m.takerAsk {
        improvement := m.price - m.zeroPrice;
      } else {
        improvement := m.zeroPrice - m.price;
      }
      if improvement <= 0 { return 0; }
      var rate := Quo(improvement * FEE_TICK, m.price);
      if m.liquidationBps < rate { rate := m.liquidationBps; }
      if rate <= 0 { return 0; }
      return Quo(m.base * m.price * rate, FEE_TICK);
    }

    method ApplyCrossAccount(s: Side, fee: int, isMaker: bool, liqFee: int) returns (r: Result<()>)
      modifies keeper
      ensures Tried(r, keeper.Stores(), ApplyCross(old(keeper.Stores()), s, fee, isMaker, liqFee))
    {
      hide State.AddCollateral;
      var delta := s.realized;
      if fee != 0 { delta := delta - fee; }
      if delta != 0 {
        var _ :- keeper.AddCollateral(s.account, delta);
      }
      if isMaker && liqFee > 0 {
        r := keeper.AddCollateral(s.account, -liqFee);
        return;
      }
      return Ok(());
    }

    /** Folds an amount into the stored isolated margin and reloads the side from it. */
    method AddAllocatedMargin(s: Side, delta: int) returns (s': Side)
      modifies keeper
      ensures (keeper.Stores(), s') == FoldMargin(old(keeper.Stores()), s, delta)
    {
      if delta == 0 { return s; }
      var p := keeper.GetPosition(s.account, s.market);
      p := p.(account := s.account, market := s.market);
      p := p.(allocatedMargin := p.allocatedMargin + delta);
      keeper.SetPosition(p);
      return s.(after := p);
    }

    /** The release of a shrinking position, step by step. */
    method ReleaseExcess(s: Side, mark: nat, required: int) returns (excess: int)
      ensures excess == Release(s, mark, required)
    {
      hide MarketValue;
      var oldValue := MarketValue(s.before, mark);
      var newValue := MarketValue(s.after, mark);
      var target := required;
      if oldValue > 0 && s.before.baseSize != 0 {
        target := CeilDiv(oldValue * Abs(s.after.baseSize), Abs(s.before.baseSize));
        if target < required { target := required; }
      }
      excess := newValue - target;
      if excess < 0 { excess := 0; }
      var held := s.after.allocatedMargin;
      if held < 0 { held := 0; }
      if excess > held { excess := held; }
    }

    method CalculateIsolatedMarginDelta(s: Side, fee: int, env: TradeEnv) returns (r: Result<int>)
      ensures r == MarginDelta(s, fee, env)
    {
      hide MarketValue, UnrealizedPnL, InitialMargin, Release;
      var held := s.after.allocatedMargin;
      if s.after.baseSize == 0 {
        if held > 0 { return Ok(-held); }
        return Ok(0);
      }
      if env.mark.None? { return Err(MissingPrice); }
      var mark := env.mark.value;
      var required := InitialMargin(Abs(s.after.baseSize), mark, env.defaultImf);
      if s.flipped { return Ok(required - MarketValue(s.after, mark)); }
      if s.oiDelta < 0 {
        var excess := ReleaseExcess(s, mark, required);
        return Ok(-excess);
      }
      if s.oiDelta == 0 { return Ok(0); }
      var tradePnl := UnrealizedPnL(s.after, mark) - UnrealizedPnL(s.before, mark) - fee;
      var delta := InitialMargin(s.oiDelta, mark, env.defaultImf) - tradePnl;
      if delta < 0 { return Ok(0); }
      return Ok(delta);
    }

    method RebalanceIsolatedMargin(s: Side, fee: int, isMaker: bool, m: Match, env: TradeEnv) returns (r: Result<()>)
      modifies keeper
      ensures Tried(r, keeper.Stores(), Rebalance(old(keeper.Stores()), s, fee, isMaker, m, env))
    {
      hide MarginDelta, FoldMargin, State.AddCollateral;
      var delta :- CalculateIsolatedMarginDelta(s, fee, env);
      if delta == 0 { return Ok(()); }
      if delta > 0 && !(m.noRiskCheck || (isMaker && m.skipMaker)) {
        if isMaker {
          if env.makerAvail < delta { return Err(MakerInsufficientCollateral); }
        } else {
          if env.takerAvail < delta { return Err(TakerInsufficientCollateral); }
        }
      }
      var _ := AddAllocatedMargin(s, delta);
      r := keeper.AddCollateral(s.account, -delta);
    }

    method ApplyIsolatedAccount(s: Side, fee: int, isMaker: bool, liqFee: int, m: Match, env: TradeEnv)
        returns (r: Result<()>)
      modifies keeper
      ensures Tried(r, keeper.Stores(), ApplyIsolated(old(keeper.Stores()), s, fee, isMaker, liqFee, m, env))
    {
      hide FoldMargin, Rebalance;
      var delta := s.realized;
      if fee != 0 { delta := delta - fee; }
      var s1 := AddAllocatedMargin(s, delta);
      var charged := 0;
      if isMaker && liqFee > 0 { charged := -liqFee; }
      var s2 := AddAllocatedMargin(s1, charged);
      r := RebalanceIsolatedMargin(s2, fee, isMaker, m, env);
    }

    method ApplyAccount(s: Side, fee: int, isMaker: bool, liqFee: int, m: Match, env: TradeEnv) returns (r: Result<()>)
      modifies keeper
      ensures Tried(r, keeper.Stores(), Trades.ApplyAccount(old(keeper.Stores()), s, fee, isMaker, liqFee, m, env))
    {
      hide ApplyIsolated, ApplyCross;
      if s.before.marginMode == ISOLATED_MARGIN {
        r := ApplyIsolatedAccount(s, fee, isMaker, liqFee, m, env);
      } else {
        r := ApplyCrossAccount(s, fee, isMaker, liqFee);
      }
    }

    /** Steps 4 to 6: realised amounts, fees and isolated margin of both sides. */
    method RouteSides(m: Match, maker: Side, taker: Side, env: TradeEnv) returns (r: Result<()>)
      modifies keeper
      ensures Tried(r, keeper.Stores(), RouteBoth(old(keeper.Stores()), m, maker, taker, env))
    {
      hide Trades.ApplyAccount, ImprovementFee, FeeOf, State.AddCollateral;
      var notional := m.base * m.price;
      var takerFee, makerFee, liqFee := 0, 0, 0;
      if !m.noFee {
        takerFee := FeeOf(notional, m.takerFee);
        makerFee := FeeOf(notional, m.makerFee);
      }
      if !m.noFee && m.liquidationBps > 0 { liqFee := LiquidationImprovementFee(m); }
      var _ :- ApplyAccount(taker, takerFee, false, 0, m, env);
      var _ :- ApplyAccount(maker, makerFee, true, liqFee, m, env);
      if !m.noFee {
        var treasuryFee := takerFee + makerFee;
        if treasuryFee != 0 {
          var _ :- keeper.AddCollateral(TREASURY, treasuryFee);
        }
        if liqFee > 0 {
          var recipient := m.liquidationRecipient;
          if recipient == 0 { recipient := INSURANCE_FUND; }
          var _ :- keeper.AddCollateral(recipient, liqFee);
        }
      }
      return Ok(());
    }

    /** The post-trade checks, the taker's first. */
    method CheckRisk(m: Match, env: TradeEnv) returns (r: Outcome)
      ensures r == RiskCheck(m, env)
    {
      if m.noRiskCheck { return Pass; }
      var sides := [(m.taker, env.takerOk), (m.maker, env.makerOk)];
      for n := 0 to 2
        invariant forall j :: 0 <= j < n ==>
          (m.skipMaker && sides[j].0 == m.maker) || (m.skipTaker && sides[j].0 == m.taker) || sides[j].1
      {
        if m.skipMaker && sides[n].0 == m.maker { continue; }
        if m.skipTaker && sides[n].0 == m.taker { continue; }
        if !sides[n].1 {
          assert sides[0] == (m.taker, env.takerOk);
          return Fail(if sides[n].0 == m.maker then MakerRiskRegression else TakerRiskRegression);
        }
      }
      assert sides[0] == (m.taker, env.takerOk) && sides[1] == (m.maker, env.makerOk);
      return Pass;
    }

    method SettleFunding(m: Match, prefixes: map<nat, int>) returns (r: Result<()>)
      modifies keeper
      ensures Tried(r, keeper.Stores(), SettleBoth(old(keeper.Stores()), m, prefixes))
    {
      hide SettlePosition;
      var _ :- keeper.SettlePositionFunding(m.maker, m.market, prefixes);
      r := keeper.SettlePositionFunding(m.taker, m.market, prefixes);
    }

    /** Both positions, the maker's first; a taker that does not fit leaves the maker's written. */
    method ChangeSides(m: Match) returns (r: Result<(Side, Side)>)
      modifies keeper
      ensures match ChangeBoth(old(keeper.Stores()), m)
              case Made((st, maker, taker)) => r == Ok((maker, taker)) && keeper.Stores() == st
              case Stuck(st, e) => r == Err(e) && keeper.Stores() == st
    {
      hide ChangePosition;
      var makerDelta: int := m.base;
      if !m.takerAsk { makerDelta := -makerDelta; }
      var maker :- ApplyPositionChange(m.maker, m.market, m.price, makerDelta, MakerInvalidPosition);
      var taker :- ApplyPositionChange(m.taker, m.market, m.price, -makerDelta, TakerInvalidPosition);
      return Ok((maker, taker));
    }

    /** The whole pipeline. */
    method Apply(m: Match, env: Env) returns (r: Result<()>)
      modifies keeper
      ensures Tried(r, keeper.Stores(), ApplyMatch(old(keeper.Stores()), m, env))
    {
      hide SettleBoth, ChangeBoth, RouteBoth, RiskCheck;
      var _ :- SettleFunding(m, env.prefixes);
      if !m.noRiskCheck {
        if !m.skipMaker && !env.trade.snapshotOk { return Err(RiskUnavailable); }
        if !m.skipTaker && !env.trade.snapshotOk { return Err(RiskUnavailable); }
      }
      var sides :- ChangeSides(m);
      var _ :- RouteSides(m, sides.0, sides.1, env.trade);
      :- Need(env.trade.openInterestOk, OpenInterestLimit);
      :- CheckRisk(m, env.trade);
      return Ok(());
    }
  }

  // ---------- the application ----------

  /** The reply of an entry point that returns nothing. */
  function Silent(r: Result<()>): Result<int> {
    if r.Ok? then Ok(0) else Err(r.error)
  }

  lemma DidIsQuiet(r: Result<()>, after: State, spec: Result<State>)
    requires Did(r, after, spec)
    ensures Replied(Silent(r), after, Quiet(spec))
  {
  }

  lemma TriedOnBranch(r: Result<()>, after: State, spec: Attempt<State>)
    requires Tried(r, after, spec)
    ensures Replied(Silent(r), after, Quiet(Branched(spec)))
  {
  }

  /** Nobody rolls back: the outcome is lost and the stores stay as they are. */
  lemma TriedInPlace(r: Result<()>, after: State, spec: Attempt<State>)
    requires Tried(r, after, spec)
    ensures after == Kept(spec) && Replied(Silent(Ok(())), after, Ok(Reply(Kept(spec), 0)))
  {
  }

  class App {
    const keeper: Keeper
    const engine: Engine

    ghost predicate Wired() {
      engine.keeper == keeper
    }

    /** Boots from the default genesis documents. */
    constructor (authority: string)
      ensures Wired() && fresh(keeper) && keeper.Stores() == Genesis.Boot(authority)
      ensures Core(keeper.Stores()) && Solvent(keeper.Stores())
    {
      var k := new Keeper(authority);
      var e := new Engine(k);
      keeper, engine := k, e;
    }

    /** Routes a message to its handler. */
    method Route(msg: Msg, env: Env) returns (r: Result<int>)
      requires Wired()
      modifies keeper
      ensures Replied(r, keeper.Stores(), Exec(old(keeper.Stores()), msg, env))
    {
      hide Exec, Replied;
      if PoolMessage(msg) {
        r := RoutePool(msg, env);
      } else if Fills(msg) {
        r := RouteFill(msg, env);
      } else if Settlement(msg) {
        r := RouteSettlement(msg, env);
      } else {
        r := RouteLedger(msg, env);
      }
    }

    method RoutePool(msg: Msg, env: Env) returns (r: Result<int>)
      requires PoolMessage(msg)
      modifies keeper
      ensures Replied(r, keeper.Stores(), Exec(old(keeper.Stores()), msg, env))
    {
      hide ExecCreatePublicPool, ExecUpdatePublicPool, ExecMintShares, ExecBurnShares, ExecForceBurnShares,
           ExecStrategyTransfer, Replied;
      match msg {
        case CreatePublicPool(s, i, n, f, t) => r := keeper.CreatePublicPool(s, i, n, f, t, env);
        case UpdatePublicPool(s, p, c, f, t) => r := keeper.UpdatePublicPool(s, p, c, f, t, env);
        case MintShares(s, p, u) => r := keeper.MintShares(s, p, u, env);
        case BurnShares(s, p, n) => r := keeper.BurnShares(s, p, n, env);
        case ForceBurnShares(s, p, d, n) => r := keeper.ForceBurnShares(s, p, d, n, env);
        case StrategyTransfer(s, p, f, t, d) => r := keeper.StrategyTransfer(s, p, f, t, d);
      }
    }

    method RouteSettlement(msg: Msg, env: Env) returns (r: Result<int>)
      requires Settlement(msg) && !Fills(msg)
      modifies keeper
      ensures Replied(r, keeper.Stores(), Exec(old(keeper.Stores()), msg, env))
    {
      hide SettlePosition, State.IncreaseLockedBalance, State.DecreaseLockedBalance,
           State.TransferAccountAssetBalance, Did, Replied, Quiet;
      ghost var st := keeper.Stores();
      var done: Result<()>;
      match msg {
        case LockSpot(i, x, d) =>
          done := keeper.IncreaseLockedBalance(i, x, d);
          DidIsQuiet(done, keeper.Stores(), st.IncreaseLockedBalance(i, x, d));
        case UnlockSpot(i, x, d) =>
          done := keeper.DecreaseLockedBalance(i, x, d);
          DidIsQuiet(done, keeper.Stores(), st.DecreaseLockedBalance(i, x, d));
        case MoveSpot(f, t, x, d, drain) =>
          done := keeper.TransferAccountAssetBalance(f, t, x, d, drain);
          DidIsQuiet(done, keeper.Stores(), st.TransferAccountAssetBalance(f, t, x, d, drain));
        case SettleFunding(i, k) =>
          done := keeper.SettlePositionFunding(i, k, env.prefixes);
          DidIsQuiet(done, keeper.Stores(), SettlePosition(st, i, k, env.prefixes));
      }
      return Silent(done);
    }

    /** Matching reports a failed fill, to be rolled back; an end-blocker drops the error and goes on. */
    method RouteFill(msg: Msg, env: Env) returns (r: Result<int>)
      requires Wired() && Fills(msg)
      modifies keeper
      ensures Replied(r, keeper.Stores(), Exec(old(keeper.Stores()), msg, env))
    {
      hide ApplyMatch, Tried, Replied, Quiet;
      ghost var st := keeper.Stores();
      var done := engine.Apply(msg.fill, env);
      TriedOnBranch(done, keeper.Stores(), ApplyMatch(st, msg.fill, env));
      TriedInPlace(done, keeper.Stores(), ApplyMatch(st, msg.fill, env));
      if msg.CloseOut? { done := Ok(()); }
      return Silent(done);
    }

    /** Closes one account's position against the insurance fund; a close that fails is passed over. */
    method ExitAccount(v: Visit, k: nat, mark: nat)
      requires Wired()
      modifies keeper
      ensures keeper.Stores() == Run(old(keeper.Stores()), ExitTx(old(keeper.Stores()), v, k, mark))
    {
      hide ApplyMatch, Messages.Deliver, Tried;
      ghost var st := keeper.Stores();
      var p := keeper.GetPosition(v.account, k);
      var base := Abs(p.baseSize);
      if v.account == INSURANCE_FUND || base == 0 { return; }
      var takerAsk := p.baseSize < 0;
      var m := Match(v.account, INSURANCE_FUND, k, mark, base, takerAsk, 0, 0, true, true, false, false, 0, 0, 0);
      var r := engine.Apply(m, v.env);
      TriedInPlace(r, keeper.Stores(), ApplyMatch(st, m, v.env));
      CloseOutState(st, m, v.env);
      RunOn(st, [], Tx(CloseOut(m), v.env));
      assert [] + [Tx(CloseOut(m), v.env)] == ExitTx(st, v, k, mark);
    }

    /** Closes every open position of a market, account by account, unless its mark price is unset. */
    method ExitMarket(k: nat, mark: nat, visits: seq<Visit>)
      requires Wired()
      modifies keeper
      ensures keeper.Stores()
           == if mark == 0 then old(keeper.Stores())
              else Run(old(keeper.Stores()), ExitTxs(old(keeper.Stores()), visits, k, mark))
    {
      hide Messages.Deliver, ExitTx;
      if mark == 0 { return; }
      ghost var st := keeper.Stores();
      for n := 0 to |visits|
        invariant keeper.Stores() == Run(st, ExitTxs(st, visits[..n], k, mark))
      {
        assert visits[..n + 1][..n] == visits[..n];
        VisitRuns(st, ExitTxs(st, visits[..n], k, mark), visits[n], k, mark);
        ExitAccount(visits[n], k, mark);
      }
      assert visits[..|visits|] == visits;
    }

    method RouteLedger(msg: Msg, env: Env) returns (r: Result<int>)
      requires !PoolMessage(msg) && !Settlement(msg)
      modifies keeper
      ensures Replied(r, keeper.Stores(), Exec(old(keeper.Stores()), msg, env))
    {
      hide ExecDeposit, ExecWithdraw, ExecTransfer, ExecCreateSubAccount, ExecUpdateAccountConfig,
           ExecUpdateAccountAssetConfig, ExecUpdateMargin, ExecUpdateLeverage, ExecUpdateParams,
           ExecRegisterAsset, ExecUpdateAsset, Replied;
      match msg {
        case Deposit(s, b, x, t, n) => r := keeper.Deposit(s, b, x, t, n, env);
        case Withdraw(s, i, x, t, n) => r := keeper.Withdraw(s, i, x, t, n, env);
        case Transfer(s, f, t, x, n) => r := keeper.Transfer(s, f, t, x, n, env);
        case CreateSubAccount(s, i) => r := keeper.CreateSubAccount(s, i, env);
        case UpdateAccountConfig(s, i, m) => r := keeper.UpdateAccountConfig(s, i, m);
        case UpdateAccountAssetConfig(s, i, x, m) => r := keeper.UpdateAccountAssetConfig(s, i, x, m);
        case UpdateMargin(s, i, k, a, d) => r := keeper.UpdateMargin(s, i, k, a, d, env);
        case UpdateLeverage(s, i, k, m, f) => r := keeper.UpdateLeverage(s, i, k, m, f, env);
        case UpdateParams(s, p) => r := keeper.UpdateParams(s, p);
        case RegisterAsset(s, d, name, c, m, t, w, g) => r := keeper.RegisterAsset(s, d, name, c, m, t, w, g);
        case UpdateAsset(s, x, t, w, e) => r := keeper.UpdateAsset(s, x, t, w, e);
      }
    }

    /** Runs a message; an error discards everything it wrote. */
    method Deliver(msg: Msg, env: Env) returns (r: Result<int>)
      requires Wired()
      modifies keeper
      ensures keeper.Stores() == Messages.Deliver(old(keeper.Stores()), msg, env)
      ensures r.Ok? <==> Exec(old(keeper.Stores()), msg, env).Ok?
      ensures old(Core(keeper.Stores())) ==> Core(keeper.Stores())
    {
      hide Exec, Core;
      if Core(keeper.Stores()) { DeliverKeeps(keeper.Stores(), msg, env); }
      var before := keeper.Stores();
      r := Route(msg, env);
      if r.Err? { keeper.Restore(before); }
    }
  }
}

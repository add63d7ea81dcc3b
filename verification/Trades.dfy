// The perp trade engine: both positions change, then realised amounts and fees
// are routed into cross collateral or isolated margin.  A step that fails leaves
// what was written before it, which not every caller rolls back.
module Trades {
  import opened Types
  import opened Arith
  import opened Positions
  import opened Store
  import opened Funding

  /** One perp match between a maker and a taker. */
  datatype Match = Match(
    maker: nat,
    taker: nat,
    market: nat,
    price: nat,
    base: nat,
    takerAsk: bool,
    takerFee: nat,
    makerFee: nat,
    noFee: bool,
    noRiskCheck: bool,
    skipMaker: bool,
    skipTaker: bool,
    zeroPrice: nat,
    liquidationBps: nat,
    liquidationRecipient: nat)
  {
    /** The maker buys what an asking taker sells. */
    function MakerDelta(): int { if takerAsk then base else 0 - base }

    /** The account credited with a liquidation fee. */
    function Recipient(): nat { if liquidationRecipient == 0 then INSURANCE_FUND else liquidationRecipient }
  }

  /** One side of a match, as the later steps see it. */
  datatype Side = Side(
    account: nat,
    market: nat,
    before: Position,
    after: Position,
    oiDelta: int,
    flipped: bool,
    realized: int)

  // ---------- attempts ----------

  /** A step that succeeded, or the stores as they stood when it failed. */
  datatype Attempt<+T> = Made(value: T) | Stuck(state: State, error: Error) {
    predicate IsFailure() { Stuck? }
    function PropagateFailure<U>(): Attempt<U>
      requires Stuck?
    { Stuck(state, error) }
    function Extract(): T
      requires Made?
    { value }
  }

  /** A single write, tried in `st`: it either happens or leaves `st`. */
  function At<T>(st: State, r: Result<T>): Attempt<T> {
    if r.Ok? then Made(r.value) else Stuck(st, r.error)
  }

  /** The stores after an attempt that nobody rolls back. */
  function Kept(a: Attempt<State>): State {
    if a.Made? then a.value else a.state
  }

  /** What a caller that works on a branch of the stores sees. */
  function Branched(a: Attempt<State>): Result<State> {
    if a.Made? then Ok(a.value) else Err(a.error)
  }

  // ---------- fees ----------

  function FeeOf(notional: int, bps: nat): int {
    if bps == 0 || notional == 0 then 0 else Quo(notional * bps, FEE_TICK)
  }

  /** The fee on a fill better than the victim's zero price. */
  function ImprovementFee(m: Match): int {
    if m.liquidationBps == 0 || m.base == 0 || m.price == 0 then 0
    else
      var improvement := if m.takerAsk then m.price - m.zeroPrice else m.zeroPrice - m.price;
      if improvement <= 0 then 0
      else
        var rate := Quo(improvement * FEE_TICK, m.price);
        var effective := if m.liquidationBps < rate then m.liquidationBps else rate;
        if effective <= 0 then 0 else Quo(m.base * m.price * effective, FEE_TICK)
  }

  function TakerFee(m: Match): int { if m.noFee then 0 else FeeOf(m.base * m.price, m.takerFee) }

  function MakerFee(m: Match): int { if m.noFee then 0 else FeeOf(m.base * m.price, m.makerFee) }

  function LiquidationFee(m: Match): int {
    if m.noFee || m.liquidationBps == 0 then 0 else ImprovementFee(m)
  }

  // ---------- positions ----------

  predicate WithinBounds(p: Position) {
    Abs(p.baseSize) <= MAX_POSITION_SIZE && Abs(p.entryQuote) <= MAX_ENTRY_QUOTE
  }

  function ChangePosition(st: State, i: nat, k: nat, d: int, price: nat, error: Error): Result<(State, Side)> {
    var p := st.GetPosition(i, k);
    var f := ApplyFill(p, d, price);
    var p' := f.position.(account := i, market := k);
    if !WithinBounds(p') then Err(error)
    else Ok((st.SetPosition(p'), Side(i, k, p, p', Abs(p'.baseSize) - Abs(p.baseSize), f.flipped, f.realized)))
  }

  /** Funding of both sides is settled. */
  function SettleBoth(st: State, m: Match, prefixes: map<nat, int>): Attempt<State> {
    var st1 :- At(st, SettlePosition(st, m.maker, m.market, prefixes));
    At(st1, SettlePosition(st1, m.taker, m.market, prefixes))
  }

  /** Both positions change, the maker's first. */
  function ChangeBoth(st: State, m: Match): Attempt<(State, Side, Side)> {
    var (st1, maker) :- At(st, ChangeMaker(st, m));
    var (st2, taker) :- At(st1, ChangeTaker(st1, m));
    Made((st2, maker, taker))
  }

  function ChangeMaker(st: State, m: Match): Result<(State, Side)> {
    ChangePosition(st, m.maker, m.market, m.MakerDelta(), m.price, MakerInvalidPosition)
  }

  function ChangeTaker(st: State, m: Match): Result<(State, Side)> {
    ChangePosition(st, m.taker, m.market, -m.MakerDelta(), m.price, TakerInvalidPosition)
  }

  // ---------- routing ----------

  function Credit(st: State, i: nat, amount: int): Result<State> {
    if amount == 0 then Ok(st) else st.AddCollateral(i, amount)
  }

  /** What the liquidation fee takes from a side. */
  function Charge(isMaker: bool, liqFee: int): int {
    if isMaker && liqFee > 0 then -liqFee else 0
  }

  function ApplyCross(st: State, s: Side, fee: int, isMaker: bool, liqFee: int): Attempt<State> {
    var st1 :- At(st, Credit(st, s.account, s.realized - fee));
    At(st1, Credit(st1, s.account, Charge(isMaker, liqFee)))
  }

  /** Folds an amount into the stored isolated margin, which the side then reflects. */
  function FoldMargin(st: State, s: Side, delta: int): (State, Side) {
    if delta == 0 then (st, s)
    else
      var p := st.GetPosition(s.account, s.market);
      var p' := p.(allocatedMargin := p.allocatedMargin + delta, account := s.account, market := s.market);
      (st.SetPosition(p'), s.(after := p'))
  }

  function InitialMargin(size: nat, mark: nat, imf: nat): int {
    if size == 0 || mark == 0 || imf == 0 then 0 else Quo(size * mark * imf, MARGIN_TICK)
  }

  function CeilDiv(a: nat, b: nat): int {
    if b == 0 then 0 else if a % b == 0 then a / b else a / b + 1
  }

  function Positive(x: int): int { if x < 0 then 0 else x }

  /** What a shrinking position releases: its value above the larger of its share of the old value and its margin. */
  function Release(s: Side, mark: nat, required: int): int {
    var oldValue, newValue := MarketValue(s.before, mark), MarketValue(s.after, mark);
    var proportional := if oldValue > 0 && s.before.baseSize != 0
                        then CeilDiv(oldValue * Abs(s.after.baseSize), Abs(s.before.baseSize)) else required;
    var target := if proportional < required then required else proportional;
    var excess, held := Positive(newValue - target), Positive(s.after.allocatedMargin);
    if excess > held then held else excess
  }

  /** The amount to move from cross collateral into isolated margin; negative to release. */
  function MarginDelta(s: Side, fee: int, env: TradeEnv): Result<int> {
    if s.after.baseSize == 0 then Ok(-Positive(s.after.allocatedMargin))
    else if env.mark.None? then Err(MissingPrice)
    else
      var mark := env.mark.value;
      var required := InitialMargin(Abs(s.after.baseSize), mark, env.defaultImf);
      if s.flipped then Ok(required - MarketValue(s.after, mark))
      else if s.oiDelta < 0 then Ok(-Release(s, mark, required))
      else if s.oiDelta == 0 then Ok(0)
      else
        var tradePnl := UnrealizedPnL(s.after, mark) - UnrealizedPnL(s.before, mark) - fee;
        Ok(Positive(InitialMargin(s.oiDelta, mark, env.defaultImf) - tradePnl))
  }

  /** Cross collateral does not cover a top-up that is not exempt from the check. */
  predicate ShortOf(delta: int, isMaker: bool, m: Match, env: TradeEnv) {
    && delta > 0 && !(m.noRiskCheck || (isMaker && m.skipMaker))
    && (if isMaker then env.makerAvail else env.takerAvail) < delta
  }

  function Rebalance(st: State, s: Side, fee: int, isMaker: bool, m: Match, env: TradeEnv): Attempt<State> {
    var delta :- At(st, MarginDelta(s, fee, env));
    if delta == 0 then Made(st)
    else if ShortOf(delta, isMaker, m, env)
    then Stuck(st, if isMaker then MakerInsufficientCollateral else TakerInsufficientCollateral)
    else
      var st1 := FoldMargin(st, s, delta).0;
      At(st1, st1.AddCollateral(s.account, -delta))
  }

  function ApplyIsolated(st: State, s: Side, fee: int, isMaker: bool, liqFee: int, m: Match, env: TradeEnv):
    Attempt<State>
  {
    var (st1, s1) := FoldMargin(st, s, s.realized - fee);
    var (st2, s2) := FoldMargin(st1, s1, Charge(isMaker, liqFee));
    Rebalance(st2, s2, fee, isMaker, m, env)
  }

  /** The mode before the fill decides. */
  function ApplyAccount(st: State, s: Side, fee: int, isMaker: bool, liqFee: int, m: Match, env: TradeEnv):
    Attempt<State>
  {
    if s.before.marginMode == ISOLATED_MARGIN then ApplyIsolated(st, s, fee, isMaker, liqFee, m, env)
    else ApplyCross(st, s, fee, isMaker, liqFee)
  }

  /** Realised amounts and fees of both sides, the taker's first, then the fees' recipients. */
  function RouteBoth(st: State, m: Match, maker: Side, taker: Side, env: TradeEnv): Attempt<State> {
    var st1 :- RouteSides(st, m, maker, taker, env);
    CreditFees(st1, m)
  }

  function RouteSides(st: State, m: Match, maker: Side, taker: Side, env: TradeEnv): Attempt<State> {
    var st1 :- ApplyAccount(st, taker, TakerFee(m), false, 0, m, env);
    ApplyAccount(st1, maker, MakerFee(m), true, LiquidationFee(m), m, env)
  }

  function CreditFees(st: State, m: Match): Attempt<State> {
    var st1 :- At(st, Credit(st, TREASURY, TakerFee(m) + MakerFee(m)));
    At(st1, Credit(st1, m.Recipient(), Positive(LiquidationFee(m))))
  }

  // ---------- x/trade/keeper/perp/engine.go ----------

  /** Whether the post-trade checks let the match stand. */
  function RiskCheck(m: Match, env: TradeEnv): Outcome {
    var skipTaker := (m.skipMaker && m.taker == m.maker) || m.skipTaker;
    var skipMaker := m.skipMaker || (m.skipTaker && m.maker == m.taker);
    if m.noRiskCheck then Pass
    else if !skipTaker && !env.takerOk
    then Fail(if m.taker == m.maker then MakerRiskRegression else TakerRiskRegression)
    else if !skipMaker && !env.makerOk then Fail(MakerRiskRegression)
    else Pass
  }

  /** A risk snapshot was needed and could not be taken. */
  predicate SnapshotFails(m: Match, env: TradeEnv) {
    !m.noRiskCheck && !(m.skipMaker && m.skipTaker) && !env.snapshotOk
  }

  /** The checks once everything is written. */
  function Approve(st: State, m: Match, env: TradeEnv): Attempt<State> {
    if !env.openInterestOk then Stuck(st, OpenInterestLimit)
    else
      match RiskCheck(m, env)
      case Pass => Made(st)
      case Fail(e) => Stuck(st, e)
  }

  function ApplyMatch(st: State, m: Match, env: Env): Attempt<State> {
    var st1 :- SettleBoth(st, m, env.prefixes);
    if SnapshotFails(m, env.trade) then Stuck(st1, RiskUnavailable)
    else
      var (st2, maker, taker) :- ChangeBoth(st1, m);
      var st3 :- RouteBoth(st2, m, maker, taker, env.trade);
      Approve(st3, m, env.trade)
  }

  // ---------- what the fees and the margin steps achieve ----------

  /** A fee is its rate of the notional, rounded down. */
  lemma RateIsFloor(notional: nat, bps: nat)
    ensures 0 <= FeeOf(notional, bps)
    ensures FeeOf(notional, bps) * FEE_TICK <= notional * bps < (FeeOf(notional, bps) + 1) * FEE_TICK
  {
    if bps == 0 || notional == 0 {
      assert notional * bps == 0;
    } else {
      var _ := QuoFloor(notional * bps, FEE_TICK);
    }
  }

  /** Each side pays its own rate of the notional, rounded down; a match free of fees pays none of the three. */
  lemma SidesPayTheirRates(m: Match)
    ensures m.noFee ==> TakerFee(m) == MakerFee(m) == LiquidationFee(m) == 0
    ensures !m.noFee ==>
              && TakerFee(m) * FEE_TICK <= m.base * m.price * m.takerFee < (TakerFee(m) + 1) * FEE_TICK
              && MakerFee(m) * FEE_TICK <= m.base * m.price * m.makerFee < (MakerFee(m) + 1) * FEE_TICK
  {
    RateIsFloor(m.base * m.price, m.takerFee);
    RateIsFloor(m.base * m.price, m.makerFee);
  }

  /**
   * The liquidation fee is its rate of the notional where the improvement allows
   * it, and otherwise the whole improvement to within one tick of the price;
   * without an improvement there is none.
   */
  lemma ImprovementFeeIsFloor(m: Match)
    ensures var improvement := if m.takerAsk then m.price - m.zeroPrice else m.zeroPrice - m.price;
            var f := ImprovementFee(m);
            if improvement <= 0 then f == 0
            else if m.liquidationBps * m.price <= improvement * FEE_TICK then
              f * FEE_TICK <= m.base * m.price * m.liquidationBps < (f + 1) * FEE_TICK
            else m.base * (improvement * FEE_TICK - m.price) < (f + 1) * FEE_TICK && f <= m.base * improvement
  {
    var improvement := if m.takerAsk then m.price - m.zeroPrice else m.zeroPrice - m.price;
    FeeWithinImprovement(m);
    if 0 < improvement && m.base != 0 && m.price != 0 && m.liquidationBps != 0 {
      var rate := QuoFloor(improvement * FEE_TICK, m.price);
      CapOnRate(m.liquidationBps, m.price, improvement * FEE_TICK, rate);
      var effective := if m.liquidationBps < rate then m.liquidationBps else rate;
      var f := QuoFloor(m.base * m.price * effective, FEE_TICK);
      RateOfNotional(m.base, m.price, improvement * FEE_TICK, rate);
    } else if 0 < improvement {
      assert m.base * m.price * m.liquidationBps == 0;
      assert m.base == 0 ==> m.base * (improvement * FEE_TICK - m.price) == 0;
    }
  }

  lemma CapOnRate(bps: nat, price: nat, most: int, rate: int)
    requires rate * price <= most < (rate + 1) * price
    ensures bps * price <= most <==> bps <= rate
  {
    if bps <= rate { MulMono(bps, rate, price); } else { MulMono(rate + 1, bps, price); }
  }

  lemma RateOfNotional(base: nat, price: nat, most: int, rate: int)
    requires 0 < base && most < (rate + 1) * price
    ensures base * (most - price) < base * price * rate
  {
    assert (rate + 1) * price == rate * price + price;
    ScaleLt(most - price, rate * price, base);
    assert base * (rate * price) == base * price * rate;
  }

  /** The initial margin is its fraction of the marked size, rounded down. */
  lemma InitialMarginIsFloor(size: nat, mark: nat, imf: nat)
    ensures var r := InitialMargin(size, mark, imf);
            0 <= r && r * MARGIN_TICK <= size * mark * imf < (r + 1) * MARGIN_TICK
  {
    if size == 0 || mark == 0 || imf == 0 {
      assert size * mark * imf == 0;
    } else {
      var _ := QuoFloor(size * mark * imf, MARGIN_TICK);
    }
  }

  /** The liquidation fee never exceeds the improvement it is charged on, nor its rate of the notional. */
  lemma FeeWithinImprovement(m: Match)
    ensures 0 <= ImprovementFee(m)
    ensures 0 < ImprovementFee(m) ==>
              var improvement := if m.takerAsk then m.price - m.zeroPrice else m.zeroPrice - m.price;
              ImprovementFee(m) <= m.base * improvement
              && ImprovementFee(m) * FEE_TICK <= m.base * m.price * m.liquidationBps
  {
    var improvement := if m.takerAsk then m.price - m.zeroPrice else m.zeroPrice - m.price;
    if m.liquidationBps != 0 && m.base != 0 && m.price != 0 && 0 < improvement {
      var rate := QuoFloor(improvement * FEE_TICK, m.price);
      var effective := if m.liquidationBps < rate then m.liquidationBps else rate;
      if 0 < effective {
        FeeCore(m.base, m.price, improvement, rate, effective, m.liquidationBps);
      }
    }
  }

  lemma FeeCore(base: nat, price: nat, improvement: nat, rate: int, effective: nat, bps: nat)
    requires 0 < base && 0 < price && rate * price <= improvement * FEE_TICK && effective <= rate && effective <= bps
    ensures var fee := Quo(base * price * effective, FEE_TICK);
            0 <= fee <= base * improvement && fee * FEE_TICK <= base * price * bps
  {
    var fee := QuoFloor(base * price * effective, FEE_TICK);
    Scale(effective, rate, price);
    Scale(effective * price, improvement * FEE_TICK, base);
    assert base * price * effective == effective * price * base;
    assert improvement * FEE_TICK * base == base * improvement * FEE_TICK;
    CancelLe(fee, base * improvement, FEE_TICK);
    Scale(effective, bps, base * price);
  }

  /** The side with an amount moved into its isolated margin. */
  function Margined(s: Side, delta: int): Position {
    s.after.(allocatedMargin := s.after.allocatedMargin + delta)
  }

  /**
   * What re-margining achieves.  A closed position keeps no positive margin; a
   * flipped one is worth exactly its initial margin; one that shrank releases no
   * more than it holds and never falls below its requirement, nor below its
   * share of the old value, because of the release, and releases all it can; one
   * that grew is topped up by exactly its added requirement less what the fill
   * earned, if that is positive.
   */
  lemma RebalanceMargins(s: Side, fee: int, env: TradeEnv)
    requires MarginDelta(s, fee, env).Ok?
    ensures var delta := MarginDelta(s, fee, env).value;
            var held := s.after.allocatedMargin;
            if s.after.baseSize == 0 then held + delta == (if held < 0 then held else 0)
            else
              var mark := env.mark.value;
              var required := InitialMargin(Abs(s.after.baseSize), mark, env.defaultImf);
              if s.flipped then MarketValue(Margined(s, delta), mark) == required
              else if s.oiDelta < 0 then
                && 0 <= -delta <= Positive(held)
                && (delta < 0 ==> required <= MarketValue(Margined(s, delta), mark))
                && (delta < 0 && 0 < MarketValue(s.before, mark) && s.before.baseSize != 0 ==>
                      MarketValue(s.before, mark) * Abs(s.after.baseSize)
                      <= MarketValue(Margined(s, delta), mark) * Abs(s.before.baseSize))
                && (-delta == Positive(held) || !Spares(s, mark, required, 1 - delta))
              else if s.oiDelta == 0 then delta == 0
              else
                var short := InitialMargin(s.oiDelta, mark, env.defaultImf)
                             - (UnrealizedPnL(s.after, mark) - UnrealizedPnL(s.before, mark) - fee);
                delta == if short < 0 then 0 else short
  {
    if s.after.baseSize != 0 {
      var mark, delta := env.mark.value, MarginDelta(s, fee, env).value;
      assert MarketValue(Margined(s, delta), mark) == MarketValue(s.after, mark) + delta;
      if !s.flipped && s.oiDelta < 0 {
        ReleaseKeeps(s, mark, InitialMargin(Abs(s.after.baseSize), mark, env.defaultImf));
        ReleaseIsMost(s, mark, InitialMargin(Abs(s.after.baseSize), mark, env.defaultImf));
      }
    }
  }

  /** The position can give up `r` and keep its requirement and its share of the old value. */
  predicate Spares(s: Side, mark: nat, required: int, r: int) {
    && required <= MarketValue(s.after, mark) - r
    && (0 < MarketValue(s.before, mark) && s.before.baseSize != 0 ==>
          MarketValue(s.before, mark) * Abs(s.after.baseSize) <= (MarketValue(s.after, mark) - r) * Abs(s.before.baseSize))
  }

  /** A release stops short of what is held only because one unit more cannot be spared. */
  lemma ReleaseIsMost(s: Side, mark: nat, required: int)
    ensures var r := Release(s, mark, required);
            r == Positive(s.after.allocatedMargin) || !Spares(s, mark, required, r + 1)
  {
    hide MarketValue, CeilDiv;
    var r, v := Release(s, mark, required), MarketValue(s.after, mark);
    var before, size := MarketValue(s.before, mark), Abs(s.before.baseSize);
    if r != Positive(s.after.allocatedMargin) && 0 < before && s.before.baseSize != 0 && required <= v - (r + 1) {
      CeilIsLeast(before * Abs(s.after.baseSize), size, v - (r + 1));
    }
  }

  lemma CeilIsLeast(a: nat, b: nat, q: int)
    requires b != 0 && q < CeilDiv(a, b)
    ensures q * b < a
  {
    assert a == a / b * b + a % b;
    if a % b == 0 { MulMono(q, a / b - 1, b); } else { MulMono(q, a / b, b); }
    assert (a / b - 1) * b == a / b * b - b;
  }

  lemma ReleaseKeeps(s: Side, mark: nat, required: int)
    ensures var r, v := Release(s, mark, required), MarketValue(s.after, mark);
            && 0 <= r <= Positive(s.after.allocatedMargin)
            && (0 < r ==> required <= v - r)
            && (0 < r && 0 < MarketValue(s.before, mark) && s.before.baseSize != 0 ==>
                  MarketValue(s.before, mark) * Abs(s.after.baseSize) <= (v - r) * Abs(s.before.baseSize))
  {
    hide MarketValue, CeilDiv;
    var r, v := Release(s, mark, required), MarketValue(s.after, mark);
    var before, size := MarketValue(s.before, mark), Abs(s.before.baseSize);
    if 0 < r && 0 < before && s.before.baseSize != 0 {
      var share := CeilDiv(before * Abs(s.after.baseSize), size);
      CeilCovers(before * Abs(s.after.baseSize), size);
      assert share <= v - r;
      Scale(share, v - r, size);
    }
  }

  lemma CeilCovers(a: nat, b: nat)
    requires b != 0
    ensures a <= CeilDiv(a, b) * b
  {
    assert a == a / b * b + a % b;
    assert (a / b + 1) * b == a / b * b + b;
  }
}

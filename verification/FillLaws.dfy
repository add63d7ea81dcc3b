// What one match does to the positions and to the collateral of its sides.
module FillLaws {
  import opened Types
  import opened Store
  import opened Funding
  import opened Trades
  import opened Invariants
  import opened Flows
  import opened Preservation
  import opened Delivery
  import opened Journals

  // ---------- what a fill does to sizes ----------

  /** The position sizes moved by `a` for the maker and by `b` for the taker, in the match's market only. */
  ghost predicate Sizes(st: State, st': State, m: Match, a: int, b: int) {
    forall i, k :: st'.GetPosition(i, k).baseSize
      == st.GetPosition(i, k).baseSize
         + (if k == m.market && i == m.maker then a else 0) + (if k == m.market && i == m.taker then b else 0)
  }

  lemma SizesOn(st: State, st1: State, st2: State, m: Match, a1: int, b1: int, a2: int, b2: int)
    requires Sizes(st, st1, m, a1, b1) && Sizes(st1, st2, m, a2, b2)
    ensures Sizes(st, st2, m, a1 + a2, b1 + b2)
  {
    hide State.GetPosition;
    forall i, k ensures st2.GetPosition(i, k).baseSize
      == st.GetPosition(i, k).baseSize + (if k == m.market && i == m.maker then a1 + a2 else 0)
         + (if k == m.market && i == m.taker then b1 + b2 else 0)
    {
      assert st1.GetPosition(i, k).baseSize
        == st.GetPosition(i, k).baseSize + (if k == m.market && i == m.maker then a1 else 0)
           + (if k == m.market && i == m.taker then b1 else 0);
    }
  }

  lemma SettleSizes(st: State, i: nat, k: nat, prefixes: map<nat, int>, m: Match)
    ensures Sizes(st, Kept(At(st, SettlePosition(st, i, k, prefixes))), m, 0, 0)
  {
    hide Payment;
  }

  lemma SettleBothSizes(st: State, m: Match, prefixes: map<nat, int>)
    ensures Sizes(st, Kept(SettleBoth(st, m, prefixes)), m, 0, 0)
  {
    hide SettlePosition, Sizes;
    SettleSizes(st, m.maker, m.market, prefixes, m);
    var st1 := Kept(At(st, SettlePosition(st, m.maker, m.market, prefixes)));
    SettleSizes(st1, m.taker, m.market, prefixes, m);
    SizesOn(st, st1, Kept(At(st1, SettlePosition(st1, m.taker, m.market, prefixes))), m, 0, 0, 0, 0);
  }

  lemma MakerSizes(st: State, m: Match)
    requires ChangeMaker(st, m).Ok?
    ensures Sizes(st, ChangeMaker(st, m).value.0, m, m.MakerDelta(), 0)
  {
    hide P.ApplyFill;
    FillKeepsRest(st.GetPosition(m.maker, m.market), m.MakerDelta(), m.price);
  }

  lemma TakerSizes(st: State, m: Match)
    requires ChangeTaker(st, m).Ok?
    ensures Sizes(st, ChangeTaker(st, m).value.0, m, 0, -m.MakerDelta())
  {
    hide P.ApplyFill;
    FillKeepsRest(st.GetPosition(m.taker, m.market), -m.MakerDelta(), m.price);
  }

  /** Everything of a position but its isolated margin. */
  function Terms(p: Position): (int, int, int, nat, nat) {
    (p.baseSize, p.entryQuote, p.lastFundingPrefix, p.marginMode, p.initialMarginFraction)
  }

  /** No position changed but in its isolated margin. */
  ghost predicate SameTerms(st: State, st': State) {
    forall i, k :: Terms(st'.GetPosition(i, k)) == Terms(st.GetPosition(i, k))
  }

  lemma TermsOn(st: State, st1: State, st2: State)
    requires SameTerms(st, st1) && SameTerms(st1, st2)
    ensures SameTerms(st, st2)
  {
    hide State.GetPosition, Terms;
    forall i, k ensures Terms(st2.GetPosition(i, k)) == Terms(st.GetPosition(i, k)) {
      assert Terms(st1.GetPosition(i, k)) == Terms(st.GetPosition(i, k));
    }
  }

  lemma CreditTerms(st: State, i: nat, amount: int)
    ensures SameTerms(st, Kept(At(st, Credit(st, i, amount))))
  {
  }

  lemma FoldTerms(st: State, s: Side, delta: int)
    ensures SameTerms(st, FoldMargin(st, s, delta).0)
  {
  }

  lemma RebalanceTerms(st: State, s: Side, fee: int, isMaker: bool, m: Match, env: TradeEnv)
    ensures SameTerms(st, Kept(Rebalance(st, s, fee, isMaker, m, env)))
  {
    hide SameTerms, FoldMargin, MarginDelta, ShortOf;
    CreditTerms(st, s.account, 0);
    if MarginDelta(s, fee, env).Ok? && MarginDelta(s, fee, env).value != 0 {
      var delta := MarginDelta(s, fee, env).value;
      var st1 := FoldMargin(st, s, delta).0;
      FoldTerms(st, s, delta);
      CreditTerms(st1, s.account, -delta);
      TermsOn(st, st1, Kept(At(st1, Credit(st1, s.account, -delta))));
    }
  }

  lemma AccountTerms(st: State, s: Side, fee: int, isMaker: bool, liqFee: int, m: Match, env: TradeEnv)
    ensures SameTerms(st, Kept(ApplyAccount(st, s, fee, isMaker, liqFee, m, env)))
  {
    hide SameTerms, FoldMargin, Rebalance, Credit, Charge;
    if s.before.marginMode == ISOLATED_MARGIN {
      var (st1, s1) := FoldMargin(st, s, s.realized - fee);
      FoldTerms(st, s, s.realized - fee);
      var (st2, s2) := FoldMargin(st1, s1, Charge(isMaker, liqFee));
      FoldTerms(st1, s1, Charge(isMaker, liqFee));
      TermsOn(st, st1, st2);
      RebalanceTerms(st2, s2, fee, isMaker, m, env);
      TermsOn(st, st2, Kept(Rebalance(st2, s2, fee, isMaker, m, env)));
    } else {
      CreditTwice(st, s.account, s.realized - fee, s.account, Charge(isMaker, liqFee));
    }
  }

  lemma CreditTwice(st: State, i: nat, a: int, j: nat, b: int)
    ensures SameTerms(st, Kept(At(st, Credit(st, i, a))))
    ensures Credit(st, i, a).Ok? ==>
              var st1 := Credit(st, i, a).value; SameTerms(st, Kept(At(st1, Credit(st1, j, b))))
  {
    hide SameTerms, Credit;
    CreditTerms(st, i, a);
    if Credit(st, i, a).Ok? {
      var st1 := Credit(st, i, a).value;
      CreditTerms(st1, j, b);
      TermsOn(st, st1, Kept(At(st1, Credit(st1, j, b))));
    }
  }

  /** Routing moves money only. */
  lemma RouteTerms(st: State, m: Match, maker: Side, taker: Side, env: TradeEnv)
    ensures SameTerms(st, Kept(RouteBoth(st, m, maker, taker, env)))
  {
    hide SameTerms, Trades.ApplyAccount, Credit, TakerFee, MakerFee, LiquidationFee;
    var first := ApplyAccount(st, taker, TakerFee(m), false, 0, m, env);
    AccountTerms(st, taker, TakerFee(m), false, 0, m, env);
    if first.Made? {
      var second := ApplyAccount(first.value, maker, MakerFee(m), true, LiquidationFee(m), m, env);
      AccountTerms(first.value, maker, MakerFee(m), true, LiquidationFee(m), m, env);
      TermsOn(st, first.value, Kept(second));
      if second.Made? {
        CreditTwice(second.value, TREASURY, TakerFee(m) + MakerFee(m), m.Recipient(), Positive(LiquidationFee(m)));
        TermsOn(st, second.value, Kept(CreditFees(second.value, m)));
      }
    }
  }

  lemma RouteSizes(st: State, m: Match, maker: Side, taker: Side, env: TradeEnv)
    ensures Sizes(st, Kept(RouteBoth(st, m, maker, taker, env)), m, 0, 0)
  {
    hide RouteBoth, State.GetPosition;
    var st' := Kept(RouteBoth(st, m, maker, taker, env));
    RouteTerms(st, m, maker, taker, env);
    forall i, k ensures st'.GetPosition(i, k).baseSize == st.GetPosition(i, k).baseSize {
      assert Terms(st'.GetPosition(i, k)) == Terms(st.GetPosition(i, k));
    }
  }

  /** An accepted match leaves both positions as its fills make them out of the settled ones. */
  lemma FillPositions(st: State, m: Match, env: Env)
    requires Core(st) && ApplyMatch(st, m, env).Made? && m.maker != m.taker
    ensures m.market in env.prefixes
    ensures var st', d, x := ApplyMatch(st, m, env).value, m.MakerDelta(), env.prefixes[m.market];
            var p, q := st.GetPosition(m.maker, m.market), st.GetPosition(m.taker, m.market);
            && Terms(st'.GetPosition(m.maker, m.market)) == Terms(P.ApplyFill(Settled(p, x), d, m.price).position)
            && Terms(st'.GetPosition(m.taker, m.market)) == Terms(P.ApplyFill(Settled(q, x), -d, m.price).position)
  {
    hide Core, RouteBoth, SnapshotFails, P.ApplyFill, Payment;
    KnownMarket(st, m.maker, m.market, env.prefixes);
    GetPositionOk(st, m.maker, m.market);
    GetPositionOk(st, m.taker, m.market);
    var st1 := SettleBoth(st, m, env.prefixes).value;
    var (st2, maker, taker) := ChangeBoth(st1, m).value;
    var r := RouteBoth(st2, m, maker, taker, env.trade);
    RouteTerms(st2, m, maker, taker, env.trade);
    ApproveKeeps(r.value, m, env.trade);
    assert Terms(r.value.GetPosition(m.maker, m.market)) == Terms(st2.GetPosition(m.maker, m.market));
    assert Terms(r.value.GetPosition(m.taker, m.market)) == Terms(st2.GetPosition(m.taker, m.market));
  }

  /** A match, finished or not, moves the sizes of its written sides by their deltas and no other size anywhere. */
  lemma FillSizes(st: State, m: Match, env: Env)
    ensures var t, d := TraceOf(st, m, env), m.MakerDelta();
            Sizes(st, Kept(ApplyMatch(st, m, env)), m, Sized(t.maker, d), Sized(t.taker, -d))
  {
    hide Sizes, SettleBoth, ChangeMaker, ChangeTaker, RouteBoth, Routed, Approve, SnapshotFails;
    SettleBothSizes(st, m, env.prefixes);
    var st1, d := Kept(SettleBoth(st, m, env.prefixes)), m.MakerDelta();
    if SettleBoth(st, m, env.prefixes).Made? && !SnapshotFails(m, env.trade) && ChangeMaker(st1, m).Ok? {
      var (st2, maker) := ChangeMaker(st1, m).value;
      MakerSizes(st1, m);
      SizesOn(st, st1, st2, m, 0, 0, d, 0);
      if ChangeTaker(st2, m).Ok? {
        var (st3, taker) := ChangeTaker(st2, m).value;
        TakerSizes(st2, m);
        SizesOn(st, st2, st3, m, d, 0, 0, -d);
        RouteSizes(st3, m, maker, taker, env.trade);
        SizesOn(st, st3, Kept(RouteBoth(st3, m, maker, taker, env.trade)), m, d, -d, 0, 0);
        ApproveKeeps(Kept(RouteBoth(st3, m, maker, taker, env.trade)), m, env.trade);
      }
    }
  }

  // ---------- what a fill charges ----------

  lemma MovedOne(p: Posting, b: Book)
    ensures Moved([p], b) == if p.book == b then p.amount else 0
  {
    NothingMoved(b);
    assert [p][..0] == [];
  }

  /** The journal of a match between two cross sides, with what each pays in one posting. */
  function CrossJournal(m: Match, rt: int, rm: int, t: int, k: int, l: int): seq<Posting> {
    [Posting(Cash(m.taker), rt - t)] + [Posting(Cash(m.maker), rm - k - l)]
    + [Posting(Cash(TREASURY), t + k)]
    + [Posting(Cash(if m.liquidationRecipient == 0 then INSURANCE_FUND else m.liquidationRecipient), l)]
  }

  lemma CrossMoves(m: Match, rt: int, rm: int, t: int, k: int, l: int, b: Book)
    ensures Moved([Posting(Cash(m.taker), rt - t)] + [Posting(Cash(m.taker), 0)]
                  + ([Posting(Cash(m.maker), rm - k)] + [Posting(Cash(m.maker), -l)])
                  + ([Posting(Cash(TREASURY), t + k)] + [Posting(Cash(m.Recipient()), l)]), b)
         == Moved(CrossJournal(m, rt, rm, t, k, l), b)
  {
    hide Moved;
    var a1, a2 := [Posting(Cash(m.taker), rt - t)], [Posting(Cash(m.taker), 0)];
    var b1, b2, b3 := [Posting(Cash(m.maker), rm - k)], [Posting(Cash(m.maker), -l)], [Posting(Cash(m.maker), rm - k - l)];
    var c1, c2 := [Posting(Cash(TREASURY), t + k)], [Posting(Cash(m.Recipient()), l)];
    MovedOn(a1, a2, b);
    MovedOn(b1, b2, b);
    MovedOn(c1, c2, b);
    MovedOn(a1 + a2, b1 + b2, b);
    MovedOn(a1 + a2 + (b1 + b2), c1 + c2, b);
    MovedOn(a1, b3, b);
    MovedOn(a1 + b3, c1, b);
    MovedOn(a1 + b3 + c1, c2, b);
    MovedOne(a2[0], b);
    MovedOne(b1[0], b);
    MovedOne(b2[0], b);
    MovedOne(b3[0], b);
  }

  lemma SameMoved(st: State, st': State, j: seq<Posting>, j': seq<Posting>)
    requires Posts(st, st', j) && forall b :: Moved(j, b) == Moved(j', b)
    ensures Posts(st, st', j')
  {
    hide Held, Moved;
  }

  /** The sides of an accepted match between cross positions, and its journal. */
  lemma CrossSides(st: State, m: Match, env: Env) returns (rt: int, rm: int)
    requires Core(st) && ApplyMatch(st, m, env).Made?
    requires st.GetPosition(m.maker, m.market).marginMode != ISOLATED_MARGIN
    requires st.GetPosition(m.taker, m.market).marginMode != ISOLATED_MARGIN
    ensures m.market in env.prefixes
    ensures rm == P.ApplyFill(MakerBefore(st, m, env.prefixes), m.MakerDelta(), m.price).realized
    ensures rt == P.ApplyFill(TakerBefore(st, m, env.prefixes), -m.MakerDelta(), m.price).realized
    ensures var t, k, l := TakerFee(m), MakerFee(m), Positive(LiquidationFee(m));
            MatchJournal(st, m, env)
            == [Posting(Cash(m.taker), rt - t)] + [Posting(Cash(m.taker), 0)]
               + ([Posting(Cash(m.maker), rm - k)] + [Posting(Cash(m.maker), -l)])
               + ([Posting(Cash(TREASURY), t + k)] + [Posting(Cash(m.Recipient()), l)])
  {
    hide Core, RouteBoth, Routed, Approve, SnapshotFails, P.ApplyFill, Payment, TakerFee, MakerFee, LiquidationFee,
         MakerBefore, TakerBefore, Trades.ApplyAccount, Folded, RebalanceJournal;
    AcceptedSides(st, m, env);
    CrossModes(st, m, env);
    var trace := TraceOf(st, m, env);
    rt, rm := trace.taker.value.realized, trace.maker.value.realized;
  }

  lemma CrossModes(st: State, m: Match, env: Env)
    requires Core(st) && ApplyMatch(st, m, env).Made?
    requires st.GetPosition(m.maker, m.market).marginMode != ISOLATED_MARGIN
    requires st.GetPosition(m.taker, m.market).marginMode != ISOLATED_MARGIN
    ensures var t := TraceOf(st, m, env);
            && t.maker.Some? && t.taker.Some?
            && t.maker.value.before.marginMode != ISOLATED_MARGIN && t.taker.value.before.marginMode != ISOLATED_MARGIN
            && t.maker.value.account == m.maker && t.taker.value.account == m.taker
  {
    hide Core, RouteBoth, Routed, Approve, SnapshotFails, P.ApplyFill, Payment;
    KnownMarket(st, m.maker, m.market, env.prefixes);
    var x := env.prefixes[m.market];
    FillKeepsRest(Settled(st.GetPosition(m.maker, m.market), x), m.MakerDelta(), m.price);
    GetPositionOk(st, m.maker, m.market);
    SettledTwice(st.GetPosition(m.maker, m.market), x);
  }

  /**
   * What an accepted match between cross positions charges, whoever coincides:
   * each side gets the signed notional it closes and the entry quote it releases,
   * less its own rate of the notional; the maker also pays the liquidation fee;
   * the treasury gets the two fees, the recipient the third, and nobody else
   * anything.
   */
  lemma CrossFillCharges(st: State, m: Match, env: Env) returns (t: int, k: int, l: int)
    requires Core(st) && ApplyMatch(st, m, env).Made?
    requires st.GetPosition(m.maker, m.market).marginMode != ISOLATED_MARGIN
    requires st.GetPosition(m.taker, m.market).marginMode != ISOLATED_MARGIN
    ensures m.noFee ==> t == k == l == 0
    ensures !m.noFee ==>
              && t * FEE_TICK <= m.base * m.price * m.takerFee < (t + 1) * FEE_TICK
              && k * FEE_TICK <= m.base * m.price * m.makerFee < (k + 1) * FEE_TICK
              && (0 < m.liquidationBps ==> l == ImprovementFee(m)) && (m.liquidationBps == 0 ==> l == 0)
    ensures m.market in env.prefixes
    ensures var p, q, d := MakerBefore(st, m, env.prefixes), TakerBefore(st, m, env.prefixes), m.MakerDelta();
            Posts(st, ApplyMatch(st, m, env).value,
                  CrossJournal(m, P.ClosedDelta(q, -d) * m.price + P.Released(q, -d),
                               P.ClosedDelta(p, d) * m.price + P.Released(p, d), t, k, l))
  {
    hide Core, Posts, PostsSome, ApplyMatch, MatchJournal, P.ApplyFill, P.Released, P.ClosedDelta, MakerBefore,
         TakerBefore, ImprovementFee, TakerFee, MakerFee, CrossJournal;
    var rt, rm := CrossSides(st, m, env);
    var d := m.MakerDelta();
    P.RealizedIsClosedNotional(MakerBefore(st, m, env.prefixes), d, m.price);
    P.RealizedIsClosedNotional(TakerBefore(st, m, env.prefixes), -d, m.price);
    t, k, l := TakerFee(m), MakerFee(m), Positive(LiquidationFee(m));
    SidesPayTheirRates(m);
    FeeWithinImprovement(m);
    MatchPosts(st, m, env);
    var st' := ApplyMatch(st, m, env).value;
    PostsAll(st, st', MatchJournal(st, m, env));
    forall b ensures Moved(MatchJournal(st, m, env), b) == Moved(CrossJournal(m, rt, rm, t, k, l), b) {
      CrossMoves(m, rt, rm, t, k, l, b);
    }
    SameMoved(st, st', MatchJournal(st, m, env), CrossJournal(m, rt, rm, t, k, l));
  }
}

// Market expiry: every open position is closed against the insurance fund, on
// the stores themselves, so a close that fails half way stays half done.
module Exits {
  import opened Types
  import opened Arith
  import opened Store
  import opened Funding
  import opened Trades
  import opened Messages
  import opened Invariants
  import opened Flows
  import opened Delivery
  import opened Journals
  import opened FillLaws
  import opened Reachability

  // ---------- x/liquidation/keeper/exit.go ----------

  /** An account the walk meets, and how the environment answers its close. */
  datatype Visit = Visit(account: nat, env: Env)

  /** The whole position, closed against the insurance fund at the mark price, free of fees and checks. */
  function ExitFill(p: Position, i: nat, k: nat, price: nat): Match {
    Match(i, INSURANCE_FUND, k, price, Abs(p.baseSize), p.baseSize < 0, 0, 0, true, true, false, false, 0, 0, 0)
  }

  function ExitTx(st: State, v: Visit, k: nat, price: nat): seq<Tx> {
    var p := st.GetPosition(v.account, k);
    if v.account == INSURANCE_FUND || p.baseSize == 0 then []
    else [Tx(CloseOut(ExitFill(p, v.account, k, price)), v.env)]
  }

  /** The close-outs of a walk: each is decided in the state the earlier ones left. */
  function ExitTxs(st: State, visits: seq<Visit>, k: nat, price: nat): seq<Tx> {
    if visits == [] then []
    else
      var done := ExitTxs(st, visits[..|visits| - 1], k, price);
      done + ExitTx(Run(st, done), visits[|visits| - 1], k, price)
  }

  lemma RunOn(st: State, txs: seq<Tx>, tx: Tx)
    ensures Run(st, txs + [tx]) == Deliver(Run(st, txs), tx.msg, tx.env)
    ensures Run(st, txs + []) == Run(st, txs)
  {
    hide Deliver;
    assert (txs + [tx])[..|txs|] == txs;
    assert txs + [] == txs;
  }

  predicate Knows(visits: seq<Visit>, k: nat) {
    forall n :: 0 <= n < |visits| ==> k in visits[n].env.prefixes
  }

  predicate Meets(visits: seq<Visit>, i: nat) {
    exists n :: 0 <= n < |visits| && visits[n].account == i
  }

  /** A close-out always writes the closed maker, whether or not the insurance fund fits. */
  lemma ExitClosesMaker(st: State, v: Visit, k: nat, price: nat)
    requires k in v.env.prefixes
    ensures TraceOf(st, ExitFill(st.GetPosition(v.account, k), v.account, k, price), v.env).maker.Some?
  {
    hide Routed, ChangeTaker, SettlePosition, P.ApplyFill;
    var p := st.GetPosition(v.account, k);
    var m := ExitFill(p, v.account, k, price);
    KnownMarket(st, m.maker, k, v.env.prefixes);
    KnownMarket(SettlePosition(st, m.maker, k, v.env.prefixes).value, m.taker, k, v.env.prefixes);
    SettleBothSizes(st, m, v.env.prefixes);
    var st1 := SettleBoth(st, m, v.env.prefixes).value;
    ClosedFits(st1.GetPosition(m.maker, k), m.MakerDelta(), price);
  }

  lemma ClosedFits(p: Position, d: int, price: nat)
    requires p.baseSize + d == 0
    ensures WithinBounds(P.ApplyFill(p, d, price).position)
  {
  }

  /** One visit empties the account's position and touches no other but the insurance fund's. */
  lemma VisitFlattens(st: State, v: Visit, k: nat, price: nat, i: nat)
    requires k in v.env.prefixes && i != INSURANCE_FUND
    requires i == v.account || st.GetPosition(i, k).baseSize == 0
    ensures Run(st, ExitTx(st, v, k, price)).GetPosition(i, k).baseSize == 0
  {
    hide Deliver, TraceOf, ApplyMatch, State.GetPosition;
    var p := st.GetPosition(v.account, k);
    if v.account != INSURANCE_FUND && p.baseSize != 0 {
      var m := ExitFill(p, v.account, k, price);
      RunOn(st, [], Tx(CloseOut(m), v.env));
      assert [] + [Tx(CloseOut(m), v.env)] == [Tx(CloseOut(m), v.env)];
      CloseOutState(st, m, v.env);
      FillSizes(st, m, v.env);
      ExitClosesMaker(st, v, k, price);
    }
  }

  lemma CloseOutState(st: State, m: Match, env: Env)
    ensures Deliver(st, CloseOut(m), env) == Kept(ApplyMatch(st, m, env))
  {
    hide ApplyMatch;
  }

  /**
   * A close that succeeds settles at the mark and free of fees: the account gets
   * its settled entry quote less its size at the mark, the insurance fund what
   * its own side closes at that price, and nobody else anything.
   */
  lemma ExitSettlesAtMark(st: State, v: Visit, k: nat, mark: nat)
    requires Core(st) && v.account != INSURANCE_FUND
    requires var p := st.GetPosition(v.account, k);
             && p.baseSize != 0 && p.marginMode != ISOLATED_MARGIN
             && st.GetPosition(INSURANCE_FUND, k).marginMode != ISOLATED_MARGIN
             && ApplyMatch(st, ExitFill(p, v.account, k, mark), v.env).Made?
    ensures k in v.env.prefixes
    ensures var p, q := st.GetPosition(v.account, k), st.GetPosition(INSURANCE_FUND, k);
            var p', q' := Settled(p, v.env.prefixes[k]), Settled(q, v.env.prefixes[k]);
            var m := ExitFill(p, v.account, k, mark);
            Posts(st, Run(st, ExitTx(st, v, k, mark)),
                  CrossJournal(m, P.ClosedDelta(q', p.baseSize) * mark + P.Released(q', p.baseSize),
                               p'.entryQuote - p.baseSize * mark, 0, 0, 0))
  {
    hide Core, Posts, Deliver, ApplyMatch, CrossJournal, P.ClosedDelta, P.Released, Payment;
    var p := st.GetPosition(v.account, k);
    var m := ExitFill(p, v.account, k, mark);
    var _, _, _ := CrossFillCharges(st, m, v.env);
    WholeCloses(Settled(p, v.env.prefixes[k]), mark);
    CloseOutState(st, m, v.env);
    RunOn(st, [], Tx(CloseOut(m), v.env));
    assert [] + [Tx(CloseOut(m), v.env)] == ExitTx(st, v, k, mark);
  }

  lemma WholeCloses(p: Position, mark: nat)
    requires p.baseSize != 0
    ensures P.ClosedDelta(p, -p.baseSize) * mark + P.Released(p, -p.baseSize) == p.entryQuote - p.baseSize * mark
  {
    QuoExact(p.entryQuote, -p.baseSize);
    assert -p.baseSize * mark == -(p.baseSize * mark);
  }

  /** Every account the walk meets, other than the insurance fund, ends with no position in the market. */
  lemma {:induction false} ExitFlattens(st: State, visits: seq<Visit>, k: nat, price: nat, i: nat)
    requires Knows(visits, k) && i != INSURANCE_FUND
    requires Meets(visits, i) || st.GetPosition(i, k).baseSize == 0
    ensures Run(st, ExitTxs(st, visits, k, price)).GetPosition(i, k).baseSize == 0
    decreases |visits|
  {
    hide Deliver, State.GetPosition, ExitTx;
    if visits != [] {
      var n := |visits| - 1;
      var done := ExitTxs(st, visits[..n], k, price);
      if i != visits[n].account || Meets(visits[..n], i) {
        assert Meets(visits, i) ==> Meets(visits[..n], i);
        ExitFlattens(st, visits[..n], k, price, i);
      }
      VisitFlattens(Run(st, done), visits[n], k, price, i);
      VisitRuns(st, done, visits[n], k, price);
    }
  }

  lemma VisitRuns(st: State, done: seq<Tx>, v: Visit, k: nat, price: nat)
    ensures var now := Run(st, done); Run(st, done + ExitTx(now, v, k, price)) == Run(now, ExitTx(now, v, k, price))
  {
    hide Deliver;
    var now := Run(st, done);
    var txs := ExitTx(now, v, k, price);
    if txs == [] {
      assert done + txs == done;
    } else {
      RunOn(st, done, txs[0]);
      RunOn(now, [], txs[0]);
      assert [] + [txs[0]] == txs == [txs[0]];
    }
  }

  /** Every open position of the market is the insurance fund's or belongs to an account the walk meets. */
  predicate Covers(st: State, visits: seq<Visit>, k: nat) {
    forall key :: key in st.positions && key.1 == k && st.positions[key].baseSize != 0 ==>
      key.0 == INSURANCE_FUND || Meets(visits, key.0)
  }

  /**
   * What expiry leaves of a market: nobody but the insurance fund holds a
   * position, and the fund's size is the market's signed size before the walk
   * plus what its close-outs orphaned.  A market whose longs matched its shorts
   * is therefore closed altogether when every close fits the fund.
   */
  lemma ExitLeavesFund(st: State, visits: seq<Visit>, k: nat, price: nat)
    requires Core(st) && Knows(visits, k) && Covers(st, visits, k)
    ensures var txs := ExitTxs(st, visits, k, price);
            var st' := Run(st, txs);
            && (forall i :: i != INSURANCE_FUND ==> st'.GetPosition(i, k).baseSize == 0)
            && st'.GetPosition(INSURANCE_FUND, k).baseSize == MarketSize(st.positions, k) + Orphaned(st, txs, k)
            && (MarketSize(st.positions, k) == 0 && NoneOrphans(st, txs) ==>
                  forall i :: st'.GetPosition(i, k).baseSize == 0)
  {
    hide Core, Run, ExitTxs, Orphaned, MarketSize, Meets, NoneOrphans;
    var txs := ExitTxs(st, visits, k, price);
    var st' := Run(st, txs);
    forall i | i != INSURANCE_FUND ensures st'.GetPosition(i, k).baseSize == 0 {
      ExitFlattens(st, visits, k, price, i);
    }
    FundIsMarket(st', k);
    RunIsBooked(st, txs);
    if NoneOrphans(st, txs) { NothingOrphaned(st, txs, k); }
  }

  lemma FundIsMarket(st: State, k: nat)
    requires forall i :: i != INSURANCE_FUND ==> st.GetPosition(i, k).baseSize == 0
    ensures MarketSize(st.positions, k) == st.GetPosition(INSURANCE_FUND, k).baseSize
  {
    var sizes := SizeTable(st.positions, k);
    var fund: (nat, nat) := (INSURANCE_FUND, k);
    forall key | key in sizes && key != fund ensures sizes[key] == 0 {
      if key.1 == k { assert st.GetPosition(key.0, k).baseSize == 0; }
    }
    if fund in sizes {
      Sums.SumTake(sizes, fund);
      Sums.SumZero(sizes - {fund});
    } else {
      Sums.SumZero(sizes);
    }
  }

  /** Expiry leads from reachable states to reachable states. */
  lemma ExitIsReachable(st: State, visits: seq<Visit>, k: nat, price: nat)
    requires Reachable(st)
    ensures Reachable(Run(st, ExitTxs(st, visits, k, price)))
  {
    hide Reachable, ExitTxs;
    ReachableRuns(st, ExitTxs(st, visits, k, price));
  }
}

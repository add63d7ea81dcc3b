// Funding settlement: a position pays, in its entry quote, for the rounds that
// passed since it was last settled.
module Funding {
  import opened Types
  import opened Arith
  import opened Store

  /** What a position owes up to the given prefix sum of its market. */
  function Payment(p: Position, prefix: int): int {
    Quo(p.baseSize * (prefix - p.lastFundingPrefix), FUNDING_RATE_TICK)
  }

  function Settled(p: Position, prefix: int): Position {
    p.(entryQuote := p.entryQuote + Payment(p, prefix), lastFundingPrefix := prefix)
  }

  /** A payment is the size times the prefix's rise, in rate ticks, cut toward zero: longs pay when the prefix rises. */
  lemma PaymentIsTruncated(p: Position, prefix: int)
    ensures var due, paid := p.baseSize * (prefix - p.lastFundingPrefix), Payment(p, prefix);
            && Abs(paid) * FUNDING_RATE_TICK <= Abs(due) < (Abs(paid) + 1) * FUNDING_RATE_TICK
            && (paid != 0 ==> Sign(paid) == Sign(due))
  {
    var _ := QuoFloor(Abs(p.baseSize * (prefix - p.lastFundingPrefix)), FUNDING_RATE_TICK);
  }

  /** What a position pays when it is settled at each prefix in turn. */
  function PaidOver(p: Position, prefixes: seq<int>): int
    decreases |prefixes|
  {
    if prefixes == [] then 0 else Payment(p, prefixes[0]) + PaidOver(Settled(p, prefixes[0]), prefixes[1..])
  }

  /** However often a position is settled on the way, it pays its size times the prefix's rise, within a unit a time. */
  lemma {:induction false} SettlingOftenPaysTheSame(p: Position, prefixes: seq<int>)
    requires prefixes != []
    ensures Abs(PaidOver(p, prefixes) * FUNDING_RATE_TICK
                - p.baseSize * (prefixes[|prefixes| - 1] - p.lastFundingPrefix)) < |prefixes| * FUNDING_RATE_TICK
    decreases |prefixes|
  {
    hide Payment;
    var first, last := prefixes[0], prefixes[|prefixes| - 1];
    PaymentIsTruncated(p, first);
    if |prefixes| == 1 {
      assert PaidOver(Settled(p, first), []) == 0 && prefixes[1..] == [];
    } else {
      SettlingOftenPaysTheSame(Settled(p, first), prefixes[1..]);
      assert p.baseSize * (last - p.lastFundingPrefix)
          == p.baseSize * (last - first) + p.baseSize * (first - p.lastFundingPrefix);
    }
  }

  // ---------- x/funding/keeper/keeper.go ----------

  function SettlePosition(st: State, i: nat, k: nat, prefixes: map<nat, int>): Result<State> {
    if k !in prefixes then Err(MarketNotFound)
    else Ok(st.SetPosition(Settled(st.GetPosition(i, k), prefixes[k]).(account := i, market := k)))
  }

  /** One settlement moves the entry quote by the payment, remembers the prefix, and so does nothing the second time. */
  lemma SettleOnce(st: State, i: nat, k: nat, prefixes: map<nat, int>)
    requires k in prefixes
    ensures var r := SettlePosition(st, i, k, prefixes);
            && r.Ok?
            && var p, p' := st.GetPosition(i, k), r.value.GetPosition(i, k);
               var due, paid := p.baseSize * (prefixes[k] - p.lastFundingPrefix), p'.entryQuote - p.entryQuote;
               && Abs(paid) * FUNDING_RATE_TICK <= Abs(due) < (Abs(paid) + 1) * FUNDING_RATE_TICK
               && (paid != 0 ==> Sign(paid) == Sign(due))
               && p' == p.(account := i, market := k, entryQuote := p'.entryQuote, lastFundingPrefix := prefixes[k])
               && SettlePosition(r.value, i, k, prefixes).value.positions == r.value.positions
  {
    hide Payment;
    var p := st.GetPosition(i, k);
    PaymentIsTruncated(p, prefixes[k]);
    NothingDueTwice(Settled(p, prefixes[k]).(account := i, market := k), prefixes[k]);
  }

  lemma NothingDueTwice(p: Position, prefix: int)
    requires p.lastFundingPrefix == prefix
    ensures Payment(p, prefix) == 0 && Settled(p, prefix) == p
  {
    assert p.baseSize * (prefix - p.lastFundingPrefix) == 0;
  }

  // ---------- x/account/keeper/guards.go ----------

  /** The row under `key` is an open position of account `i`. */
  predicate Due(key: (nat, nat), p: Position, i: nat) {
    key.0 == i && p.baseSize != 0
  }

  /** Every open position of account `i` is in a known market. */
  predicate MarketsKnown(st: State, i: nat, prefixes: map<nat, int>) {
    forall key :: key in st.positions && Due(key, st.positions[key], i) ==> key.1 in prefixes
  }

  /** One row of the sweep over account `i`. */
  function SweptRow(key: (nat, nat), p: Position, i: nat, prefixes: map<nat, int>): Position {
    if Due(key, p, i) && key.1 in prefixes
    then Settled(p, prefixes[key.1]).(account := key.0, market := key.1) else p
  }

  /** The table with every open position of account `i` settled. */
  function Sweep(st: State, i: nat, prefixes: map<nat, int>): map<(nat, nat), Position> {
    map key | key in st.positions :: SweptRow(key, st.positions[key], i, prefixes)
  }

  function SettleAll(st: State, i: nat, prefixes: map<nat, int>): Result<State> {
    if MarketsKnown(st, i, prefixes) then Ok(st.(positions := Sweep(st, i, prefixes))) else Err(MarketNotFound)
  }

  /** The sweep settles each open position of the account as a single settlement would, and leaves all others. */
  lemma SweepSettlesEach(st: State, i: nat, prefixes: map<nat, int>, j: nat, k: nat)
    requires SettleAll(st, i, prefixes).Ok?
    ensures var st', p := SettleAll(st, i, prefixes).value, st.GetPosition(j, k);
            && (j == i && p.baseSize != 0 ==>
                  k in prefixes && st'.GetPosition(j, k) == SettlePosition(st, j, k, prefixes).value.GetPosition(j, k))
            && (j != i || p.baseSize == 0 ==> st'.GetPosition(j, k) == p)
  {
    hide Payment;
  }

  // ---------- the sweep, row by row ----------

  /** The rows outside `todo` are swept, the others as they were. */
  ghost predicate SweptBut(st: State, positions: map<(nat, nat), Position>, todo: set<(nat, nat)>, i: nat,
        prefixes: map<nat, int>) {
    && todo <= st.positions.Keys && positions.Keys == st.positions.Keys
    && (forall key :: key in st.positions ==>
          positions[key] == if key in todo then st.positions[key] else SweptRow(key, st.positions[key], i, prefixes))
    && (forall key :: key in st.positions && key !in todo && Due(key, st.positions[key], i) ==> key.1 in prefixes)
  }

  lemma SweepStarts(st: State, i: nat, prefixes: map<nat, int>)
    ensures SweptBut(st, st.positions, st.positions.Keys, i, prefixes)
  {
  }

  lemma SweepCovers(st: State, positions: map<(nat, nat), Position>, todo: set<(nat, nat)>, i: nat,
        prefixes: map<nat, int>)
    requires SweptBut(st, positions, todo, i, prefixes)
    ensures todo <= positions.Keys
  {
  }

  lemma SweepSkips(st: State, positions: map<(nat, nat), Position>, todo: set<(nat, nat)>, key: (nat, nat), i: nat,
        prefixes: map<nat, int>)
    requires SweptBut(st, positions, todo, i, prefixes) && key in todo && !Due(key, positions[key], i)
    ensures SweptBut(st, positions, todo - {key}, i, prefixes)
  {
  }

  lemma SweepSettles(st: State, positions: map<(nat, nat), Position>, todo: set<(nat, nat)>, key: (nat, nat), i: nat,
        prefixes: map<nat, int>)
    requires SweptBut(st, positions, todo, i, prefixes) && key in todo && Due(key, positions[key], i)
    ensures match SettlePosition(st.(positions := positions), i, key.1, prefixes)
            case Ok(st') =>
              st' == st.(positions := st'.positions) && SweptBut(st, st'.positions, todo - {key}, i, prefixes)
            case Err(e) => SettleAll(st, i, prefixes) == Err(e)
  {
    hide Settled;
  }

  lemma SweepEnds(st: State, positions: map<(nat, nat), Position>, i: nat, prefixes: map<nat, int>)
    requires SweptBut(st, positions, {}, i, prefixes)
    ensures SettleAll(st, i, prefixes) == Ok(st.(positions := positions))
  {
    hide SweptRow;
    assert positions == Sweep(st, i, prefixes);
  }
}

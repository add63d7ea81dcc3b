// Perp position arithmetic: one fill, and runs of fills.
module Positions {
  import opened Types
  import opened Arith

  // ---------- x/account/types/position_math.go ----------

  predicate IsSameSide(a: int, b: int) {
    a != 0 && b != 0 && (a < 0) == (b < 0)
  }

  function Notional(p: Position, mark: nat): int {
    if p.baseSize == 0 || mark == 0 then 0 else Abs(p.baseSize) * mark
  }

  function MarginRequirement(p: Position, mark: nat, fraction: nat): int {
    if fraction == 0 || Notional(p, mark) == 0 then 0
    else Quo(Notional(p, mark) * fraction, MARGIN_TICK)
  }

  function UnrealizedPnL(p: Position, mark: nat): int {
    if p.baseSize == 0 || mark == 0 then 0 else p.baseSize * mark - p.entryQuote
  }

  /** Isolated margin plus unrealised PnL. */
  function MarketValue(p: Position, mark: nat): int {
    p.allocatedMargin + UnrealizedPnL(p, mark)
  }

  datatype FillResult = FillResult(position: Position, realized: int, flipped: bool)

  /** Effect of a signed fill of `d` at `price`: open, increase, decrease or close, flip. */
  function ApplyFill(p: Position, d: int, price: nat): FillResult {
    var size, entry := p.baseSize, p.entryQuote;
    var size' := size + d;
    var flipped := size != 0 && size' != 0 && !IsSameSide(size, size');
    var (entry', realized) :=
      if size == 0 then (d * price, 0)
      else if IsSameSide(size, d) then (entry + d * price, 0)
      else if size' == 0 || IsSameSide(size, size') then
        (if size' == 0 then 0 else Quo(entry * size', size), d * price + Quo(entry * d, -size))
      else
        (size' * price, (if d < 0 then -(Abs(size) * price) else Abs(size) * price) + entry);
    FillResult(p.(baseSize := size', entryQuote := entry'), realized, flipped)
  }

  // ---------- one fill ----------

  /** The position's value at a mark, before the zero-size and zero-mark guards. */
  function Value(p: Position, mark: int): int {
    p.baseSize * mark - p.entryQuote
  }

  /** An empty position carries no entry quote. */
  predicate Flat(p: Position) {
    p.baseSize == 0 ==> p.entryQuote == 0
  }

  /** The fill shrinks the position without closing it. */
  predicate PartialDecrease(p: Position, d: int) {
    d != 0 && !IsSameSide(p.baseSize, d) && IsSameSide(p.baseSize, p.baseSize + d)
  }

  /** A multiple of `s` below `2|s|` in size is 0 or ±s, and one below `|s|` is 0. */
  lemma SmallMultiple(r: int, s: int, x: int)
    requires s != 0 && r * s == x && Abs(x) < 2 * Abs(s)
    ensures -1 <= r <= 1 && (r == 0 <==> x == 0)
    ensures Abs(x) < Abs(s) ==> r == 0
    ensures r != 0 ==> x == (if r == 1 then s else -s)
  {
    AbsMul(r, s);
    CancelLt(Abs(r), 2, Abs(s));
  }

  lemma SignOfFactor(e: int, s: int)
    ensures 0 < e * s ==> Sign(e) == Sign(s)
    ensures e * s < 0 ==> Sign(e) == -Sign(s)
  {
  }

  /** Two parts that sum to `e·s` and lie on its side lose at most one unit, toward `e`, when divided by `s`. */
  lemma TruncatedParts(e: int, s: int, x: int, y: int) returns (r: int)
    requires s != 0 && x + y == e * s
    requires (0 <= x && 0 <= y) || (x <= 0 && y <= 0)
    ensures e == Quo(x, s) + Quo(y, s) + r
    ensures r == 0 || r == Sign(e)
    ensures r == 0 <==> Quo(x, s) * s == x
  {
    hide Quo;
    var q1, r1 := QuoTruncates(x, s);
    var q2, r2 := QuoTruncates(y, s);
    r := e - q1 - q2;
    assert r * s == r1 + r2 by { Distribute(e, q1, q2, s); }
    SmallMultiple(r, s, r1 + r2);
    SignOfFactor(e, s);
  }

  lemma Distribute(e: int, q1: int, q2: int, s: int)
    ensures (e - q1 - q2) * s == e * s - q1 * s - q2 * s
  {
  }

  /** Splitting `e` in the proportion `a : b` by truncation loses at most one unit, toward `e`. */
  lemma SplitLoss(e: int, a: int, b: int, s: int) returns (r: int)
    requires s != 0 && a + b == s && IsSameSide(a, s) && IsSameSide(b, s)
    ensures e == Quo(e * a, s) + Quo(e * b, s) + r
    ensures r == 0 || r == Sign(e)
    ensures r == 0 <==> Quo(e * a, s) * s == e * a
  {
    assert e * a + e * b == e * s;
    SameSideProducts(e, a, b);
    r := TruncatedParts(e, s, e * a, e * b);
  }

  lemma SameSideProducts(e: int, a: int, b: int)
    requires IsSameSide(a, b)
    ensures (0 <= e * a && 0 <= e * b) || (e * a <= 0 && e * b <= 0)
  {
  }

  lemma QuoNegBoth(a: int, b: int)
    requires b != 0
    ensures Quo(a, -b) == Quo(-a, b)
  {
    assert Abs(-a) == Abs(a) && Abs(-b) == Abs(b);
    if a == 0 { assert 0 / Abs(b) == 0; }
  }

  /** Closing `-s` of an entry `e` releases all of it. */
  lemma CloseReleasesAll(e: int, s: int)
    requires s != 0
    ensures Quo(e * -s, -s) == e
  {
    QuoExact(e, -s);
  }

  /** The closing leg's notional carries the trade's sign, opposite to the position's. */
  lemma ClosingNotional(s: int, d: int, price: nat)
    requires d != 0 && s != 0 && !IsSameSide(s, d)
    ensures (if d < 0 then -(Abs(s) * price) else Abs(s) * price) == -(s * price)
  {
  }

  /**
   * Value identity of one fill, at every mark: the change in value is the
   * position change marked against the fill price, plus the realised amount,
   * plus a truncation residue.  The residue is zero outside a partial decrease,
   * and in one it is zero exactly when the proportional split is exact and the
   * sign of the entry quote otherwise.
   */
  lemma FillValueIdentity(p: Position, d: int, price: nat, mark: int) returns (r: int)
    requires Flat(p)
    ensures var f := ApplyFill(p, d, price);
            && Flat(f.position)
            && Value(f.position, mark) - Value(p, mark) == d * (mark - price) + f.realized + r
    ensures !PartialDecrease(p, d) ==> r == 0
    ensures PartialDecrease(p, d) ==>
              && (r == 0 || r == Sign(p.entryQuote))
              && (r == 0 <==> Quo(p.entryQuote * -d, p.baseSize) * p.baseSize == p.entryQuote * -d)
  {
    hide Quo;
    r := EntryIdentity(p, d, price);
    var s := p.baseSize;
    assert (s + d) * mark == s * mark + d * mark;
    assert d * (mark - price) == d * mark - d * price;
  }

  /** The mark-free form: the entry quote moves by the notional, less what is realised and truncated. */
  lemma EntryIdentity(p: Position, d: int, price: nat) returns (r: int)
    requires Flat(p)
    ensures var f := ApplyFill(p, d, price);
            Flat(f.position) && f.position.entryQuote == p.entryQuote + d * price - f.realized - r
    ensures !PartialDecrease(p, d) ==> r == 0
    ensures PartialDecrease(p, d) ==>
              && (r == 0 || r == Sign(p.entryQuote))
              && (r == 0 <==> Quo(p.entryQuote * -d, p.baseSize) * p.baseSize == p.entryQuote * -d)
  {
    hide Quo;
    var s, e := p.baseSize, p.entryQuote;
    r := 0;
    if s == 0 || IsSameSide(s, d) {
    } else if PartialDecrease(p, d) {
      r := SplitLoss(e, -d, s + d, s);
      QuoNegBoth(e * d, s);
      assert -(e * d) == e * -d;
    } else if s + d == 0 {
      CloseReleasesAll(e, s);
    } else if d == 0 {
      QuoExact(e, s);
      assert Quo(0, -s) == 0 by { QuoExact(0, -s); }
    } else {
      ClosingNotional(s, d, price);
      assert (s + d) * price == s * price + d * price;
    }
  }

  /** A flip is a full close followed by opening the residual: same position, same total realised. */
  lemma FlipIsCloseThenOpen(p: Position, d: int, price: nat)
    requires ApplyFill(p, d, price).flipped
    ensures var close := ApplyFill(p, -p.baseSize, price);
            var open := ApplyFill(close.position, d + p.baseSize, price);
            var flip := ApplyFill(p, d, price);
            && close.position.baseSize == 0
            && flip.position == open.position
            && flip.realized == close.realized + open.realized
            && IsSameSide(d, flip.position.baseSize)
  {
    hide Quo;
    CloseReleasesAll(p.entryQuote, p.baseSize);
    ClosingNotional(p.baseSize, d, price);
    assert -p.baseSize * price == -(p.baseSize * price);
  }

  /** Fills on one side at one price compose into a single fill that realises nothing. */
  lemma SameSideFillsCompose(p: Position, d1: int, d2: int, price: nat)
    requires IsSameSide(d1, d2) && (p.baseSize == 0 || IsSameSide(p.baseSize, d1))
    ensures var f1 := ApplyFill(p, d1, price);
            var f2 := ApplyFill(f1.position, d2, price);
            f2.position == ApplyFill(p, d1 + d2, price).position
            && f1.realized == f2.realized == ApplyFill(p, d1 + d2, price).realized == 0
  {
    assert (d1 + d2) * price == d1 * price + d2 * price;
  }

  /** A decrease keeps the average entry price within truncation and never raises a margin requirement. */
  lemma DecreaseKeepsAverageEntry(p: Position, d: int, price: nat, mark: nat, fraction: nat)
    requires PartialDecrease(p, d)
    ensures var q := ApplyFill(p, d, price).position;
            && Abs(q.entryQuote * p.baseSize - p.entryQuote * q.baseSize) < Abs(p.baseSize)
            && Abs(q.baseSize) < Abs(p.baseSize)
            && 0 <= MarginRequirement(q, mark, fraction) <= MarginRequirement(p, mark, fraction)
  {
    var q := ApplyFill(p, d, price).position;
    var _, _ := QuoTruncates(p.entryQuote * q.baseSize, p.baseSize);
    if mark != 0 && fraction != 0 {
      MulMono(Abs(q.baseSize), Abs(p.baseSize), mark);
      MulMono(0, Abs(q.baseSize), mark);
      MulMono(0, Notional(q, mark), fraction);
      MulMono(Notional(q, mark), Notional(p, mark), fraction);
      FloorMono(Notional(q, mark) * fraction, Notional(p, mark) * fraction, MARGIN_TICK);
      var _ := QuoFloor(Notional(q, mark) * fraction, MARGIN_TICK);
    }
  }

  /** A position opened at one price and marked at another is worth its margin plus its size times the move. */
  lemma OpenedEarnsTheMove(p: Position, d: int, price: nat, mark: nat)
    requires p.baseSize == 0 && 0 < mark
    ensures var q := ApplyFill(p, d, price).position;
            && UnrealizedPnL(q, mark) == d * (mark - price)
            && MarketValue(q, mark) == p.allocatedMargin + d * (mark - price)
  {
    hide Quo;
    assert d * (mark - price) == d * mark - d * price;
  }

  /** A margin requirement is its fraction of the marked size, rounded down. */
  lemma RequirementIsFloor(p: Position, mark: nat, fraction: nat)
    ensures var r := MarginRequirement(p, mark, fraction);
            0 <= r && r * MARGIN_TICK <= Abs(p.baseSize) * mark * fraction < (r + 1) * MARGIN_TICK
  {
    if fraction == 0 || p.baseSize == 0 || mark == 0 {
      assert Abs(p.baseSize) * mark * fraction == 0;
    } else {
      var _ := QuoFloor(Abs(p.baseSize) * mark * fraction, MARGIN_TICK);
    }
  }

  /** The part of a fill that closes: none of it, all of it, or the whole position of a flip. */
  function ClosedDelta(p: Position, d: int): int {
    if p.baseSize == 0 || IsSameSide(p.baseSize, d) then 0
    else if p.baseSize + d == 0 || IsSameSide(p.baseSize, p.baseSize + d) then d
    else -p.baseSize
  }

  /** The entry quote that the closing part releases. */
  function Released(p: Position, d: int): int {
    if ClosedDelta(p, d) == 0 then 0 else Quo(p.entryQuote * ClosedDelta(p, d), -p.baseSize)
  }

  /** A fill realises the signed notional it closes plus the entry quote it releases, and nothing when it only adds. */
  lemma RealizedIsClosedNotional(p: Position, d: int, price: nat)
    ensures ApplyFill(p, d, price).realized == ClosedDelta(p, d) * price + Released(p, d)
  {
    hide Quo;
    if d == 0 {
      if p.baseSize != 0 { QuoZero(-p.baseSize); }
    } else if p.baseSize != 0 && !IsSameSide(p.baseSize, d) && p.baseSize + d != 0
              && !IsSameSide(p.baseSize, p.baseSize + d) {
      ClosingNotional(p.baseSize, d, price);
      CloseReleasesAll(p.entryQuote, p.baseSize);
      assert -p.baseSize * price == -(p.baseSize * price);
    }
  }

  lemma QuoZero(b: int)
    requires b != 0
    ensures Quo(0, b) == 0
  {
  }

  // ---------- cross-margin routing of a fill ----------

  /** A cross account holding one position: x/risk values it as collateral plus unrealised PnL. */
  datatype CrossAccount = CrossAccount(collateral: int, position: Position)

  function AccountValue(a: CrossAccount, mark: nat): int {
    a.collateral + UnrealizedPnL(a.position, mark)
  }

  /** x/trade adds the realised amount of a fee-free fill to the cross collateral. */
  function ApplyCrossFill(a: CrossAccount, d: int, price: nat): CrossAccount {
    var f := ApplyFill(a.position, d, price);
    CrossAccount(a.collateral + f.realized, f.position)
  }

  /** Filling 4 of a long 10 @ 100 at 150 takes 400 from the account instead of leaving it unchanged. */
  lemma CrossFillCanMoveValue()
    ensures var a := CrossAccount(1000, Position(7, 1, 10, 1000, 0, 0, CROSS_MARGIN, 0));
            AccountValue(a, 150) == 1500 && AccountValue(ApplyCrossFill(a, -4, 150), 150) == 1100
  {
    var a := CrossAccount(1000, Position(7, 1, 10, 1000, 0, 0, CROSS_MARGIN, 0));
    assert Quo(1000 * -4, -10) == 400;
    assert Quo(1000 * 6, 10) == 600;
  }

  /** Routed as coded, a fill moves the account's value at the fill price by twice the realised amount. */
  lemma CrossFillDoublesRealized(a: CrossAccount, d: int, price: nat) returns (r: int)
    requires Flat(a.position) && 0 < price
    ensures AccountValue(ApplyCrossFill(a, d, price), price) - AccountValue(a, price)
         == 2 * ApplyFill(a.position, d, price).realized + r
    ensures -1 <= r <= 1 && (r != 0 ==> PartialDecrease(a.position, d))
    ensures PartialDecrease(a.position, d) ==>
              (r == 0 <==>
               Quo(a.position.entryQuote * -d, a.position.baseSize) * a.position.baseSize
               == a.position.entryQuote * -d)
  {
    hide Quo;
    r := FillValueIdentity(a.position, d, price, price);
    assert d * (price - price) == 0;
  }

  /**
   * Exactly when a fee-free cross fill leaves the account's value at the fill
   * price unchanged: the fill opens, adds to, or does not touch the position,
   * or the position was entered at the fill price on average.
   */
  lemma CrossFillPreservesValueIff(a: CrossAccount, d: int, price: nat)
    requires Flat(a.position) && 0 < price
    ensures AccountValue(ApplyCrossFill(a, d, price), price) == AccountValue(a, price)
       <==> || d == 0
            || a.position.baseSize == 0
            || IsSameSide(a.position.baseSize, d)
            || a.position.entryQuote == a.position.baseSize * price
  {
    hide Quo;
    var s, e := a.position.baseSize, a.position.entryQuote;
    var r := CrossFillDoublesRealized(a, d, price);
    if d != 0 && s != 0 && !IsSameSide(s, d) {
      if PartialDecrease(a.position, d) {
        ExactRelease(e, s, d, price);
      } else if s + d == 0 {
        CloseReleasesAll(e, s);
        assert d * price == -(s * price);
      } else {
        ClosingNotional(s, d, price);
      }
    } else if d == 0 && s != 0 {
      QuoExact(e, s);
      QuoExact(0, -s);
    }
  }

  /** Releasing `-d` of `s` units returns exactly their cost at `price`, untruncated, iff all of `e` was entered there. */
  lemma ExactRelease(e: int, s: int, d: int, price: nat)
    requires s != 0 && d != 0
    ensures (d * price + Quo(e * d, -s) == 0 && Quo(e * -d, s) * s == e * -d) <==> e == s * price
  {
    hide Quo;
    QuoNegBoth(e * d, s);
    assert -(e * d) == e * -d;
    var q := Quo(e * -d, s);
    assert -d * price == -(d * price);
    if e == s * price {
      assert e * -d == (-d * price) * s;
      QuoExact(-d * price, s);
    } else if q == -d * price && q * s == e * -d {
      assert (-d * price) * s == (s * price) * -d;
      SameFactor(e, s * price, -d);
      assert false;
    }
  }

  lemma SameFactor(a: int, b: int, k: int)
    requires k != 0 && a * k == b * k
    ensures a == b
  {
  }

  // ---------- runs of fills on one position ----------

  datatype Fill = Fill(d: int, price: nat)

  function After(p: Position, fills: seq<Fill>): Position
    decreases |fills|
  {
    if fills == [] then p
    else After(ApplyFill(p, fills[0].d, fills[0].price).position, fills[1..])
  }

  function Realized(p: Position, fills: seq<Fill>): int
    decreases |fills|
  {
    if fills == [] then 0
    else
      var f := ApplyFill(p, fills[0].d, fills[0].price);
      f.realized + Realized(f.position, fills[1..])
  }

  function Traded(fills: seq<Fill>): int {
    if fills == [] then 0 else fills[0].d * fills[0].price + Traded(fills[1..])
  }

  function PartialDecreases(p: Position, fills: seq<Fill>): nat
    decreases |fills|
  {
    if fills == [] then 0
    else (if PartialDecrease(p, fills[0].d) then 1 else 0)
         + PartialDecreases(ApplyFill(p, fills[0].d, fills[0].price).position, fills[1..])
  }

  /**
   * Run law: over any sequence of fills the entry quote is what was traded less
   * what was realised, up to one unit for each partial decrease; and a position
   * that ends empty ends with no entry quote.
   */
  lemma {:induction false} EntryIsTradedLessRealized(p: Position, fills: seq<Fill>)
    requires Flat(p)
    ensures Abs(p.entryQuote + Traded(fills) - Realized(p, fills) - After(p, fills).entryQuote)
         <= PartialDecreases(p, fills)
    ensures Flat(After(p, fills))
    decreases |fills|
  {
    if fills != [] {
      var _ := EntryIdentity(p, fills[0].d, fills[0].price);
      EntryIsTradedLessRealized(ApplyFill(p, fills[0].d, fills[0].price).position, fills[1..]);
    }
  }
}

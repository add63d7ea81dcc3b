// Net-asset-value arithmetic of the public-pool share engine, and what it
// guarantees to the holders of shares: no dilution, a bounded operator fee, a
// sufficient burn cap and a fair mint/redeem round trip.
module Pools {
  import opened Types
  import opened Arith

  // ---------- the engine's quotations ----------

  /** USDC for `s` shares at the pool's total account value `tav`. */
  function SharesToUsdcValue(info: PoolInfo, tav: int, s: int): int {
    if s <= 0 then 0
    else if info.totalShares == 0 then s * INITIAL_POOL_SHARE_VALUE
    else if tav <= 0 then 0
    else Quo(s * tav, info.totalShares * USDC_TO_COLLATERAL)
  }

  /** Shares for a deposit of `u` USDC; refused when an inhabited pool is insolvent. */
  function UsdcValueToShares(info: PoolInfo, tav: int, u: int): Result<int> {
    if u <= 0 then Ok(0)
    else if info.totalShares == 0 then Ok(Quo(u, INITIAL_POOL_SHARE_VALUE))
    else if tav <= 0 then Err(PoolNotActive)
    else Ok(Quo(u * info.totalShares * USDC_TO_COLLATERAL, tav))
  }

  /** The cap on shares that may be burned against `avail` collateral. */
  function AvailableSharesToBurn(info: PoolInfo, tav: int, avail: int): int {
    if info.totalShares == 0 || tav <= 0 || avail <= 0 then 0
    else Quo(avail * info.totalShares, tav)
  }

  predicate CheckMinOperatorShareRate(info: PoolInfo) {
    info.totalShares == 0
    || info.totalShares * info.minOperatorShareRate <= info.operatorShares * SHARE_TICK
  }

  predicate BurnAllowed(info: PoolInfo) {
    info.status == ACTIVE || info.status == FROZEN
  }

  /** The part of an entry's principal attributed to `s` of its shares. */
  function PrincipalOf(e: Share, s: int): int
    requires e.amount != 0
  {
    Quo(e.principal * s, e.amount)
  }

  /** What one burn moves: the quote, the operator's fee, the shares destroyed and the USDC paid. */
  datatype BurnTerms = BurnTerms(usdcValue: int, feeShares: int, burned: int, delivered: int)

  /** Fee in shares on a realised profit, clamped to the shares being burned. */
  function OperatorFeeShares(info: PoolInfo, tav: int, profit: int, s: int): int {
    if profit <= 0 || info.operatorFee == 0 || tav <= 0 then 0
    else
      var fee := Quo(profit * info.operatorFee * info.totalShares * USDC_TO_COLLATERAL, FEE_TICK * tav);
      if fee > s then s else fee
  }

  /** Terms of burning `s` shares; `entry` is the LP's entry, `None` when the operator burns. */
  function TermsOfBurn(info: PoolInfo, tav: int, entry: Option<Share>, s: int): BurnTerms
    requires s > 0 && (entry.Some? ==> entry.value.amount != 0)
  {
    var v := SharesToUsdcValue(info, tav, s);
    var fee := if entry.None? then 0
               else OperatorFeeShares(info, tav, v - PrincipalOf(entry.value, s), s);
    BurnTerms(v, fee, s - fee, Quo(v * (s - fee), s))
  }

  // ---------- well-formed pools and priced pools ----------

  predicate InfoOk(info: PoolInfo) {
    && 0 <= info.operatorShares <= info.totalShares
    && info.operatorFee < FEE_TICK
    && info.minOperatorShareRate <= SHARE_TICK
    && BurnAllowed(info)
    && (info.status == ACTIVE ==> CheckMinOperatorShareRate(info))
  }

  /** A pool that can price its shares. */
  predicate Priced(info: PoolInfo, tav: int) {
    InfoOk(info) && 0 < info.totalShares && 0 < tav
  }

  /** A burn request the engine accepts against a pool that can price it. */
  predicate Burnable(info: PoolInfo, tav: int, entry: Option<Share>, s: int) {
    && Priced(info, tav)
    && 0 < s <= info.totalShares
    && (entry.Some? ==> 0 <= entry.value.principal && s <= entry.value.amount)
    && (entry.None? ==> s <= info.operatorShares)
  }

  /** `tav'/total' >= tav/total`, cross-multiplied: a share is worth no less afterwards. */
  predicate NoDilution(total: int, tav: int, total': int, tav': int) {
    tav * total' <= tav' * total
  }

  // ---------- the three floor quotients of a burn ----------

  lemma QuoteBounds(info: PoolInfo, tav: int, s: int) returns (v: int)
    requires Priced(info, tav) && 0 < s
    ensures v == SharesToUsdcValue(info, tav, s) && 0 <= v
    ensures v * (info.totalShares * USDC_TO_COLLATERAL) <= s * tav
    ensures s * tav < (v + 1) * (info.totalShares * USDC_TO_COLLATERAL)
  {
    v := QuoFloor(s * tav, info.totalShares * USDC_TO_COLLATERAL);
  }

  /** The fee's value at NAV is at most `operator_fee / FEE_TICK` of the profit. */
  lemma FeeValueBound(info: PoolInfo, tav: int, profit: int, s: int)
    requires Priced(info, tav) && 0 < s
    ensures var f := OperatorFeeShares(info, tav, profit, s);
            0 <= f <= s && (0 < f ==> 0 < profit)
            && (0 < profit ==>
                  f * tav * FEE_TICK <= profit * info.operatorFee * (info.totalShares * USDC_TO_COLLATERAL))
  {
    var f := OperatorFeeShares(info, tav, profit, s);
    if 0 < profit && info.operatorFee != 0 {
      var pf := profit * info.operatorFee;
      var num := pf * info.totalShares * USDC_TO_COLLATERAL;
      assert num == pf * (info.totalShares * USDC_TO_COLLATERAL);
      assert 0 <= pf * info.totalShares;
      var q := QuoFloor(num, FEE_TICK * tav);
      assert q * (FEE_TICK * tav) == q * tav * FEE_TICK;
      assert f <= q;
      MulMono(f, q, tav * FEE_TICK);
      assert f * (tav * FEE_TICK) == f * tav * FEE_TICK;
      assert q * (tav * FEE_TICK) == q * tav * FEE_TICK;
    } else if 0 < profit {
      assert profit * info.operatorFee * (info.totalShares * USDC_TO_COLLATERAL) == 0;
    }
  }

  /** A fee within its fraction of the profit, priced against the whole quote, stays below the profit. */
  lemma FeeCore(v: int, s: int, tav: int, d: int, f: int, profit: int, fee: int)
    requires 0 < s && 0 < d && 0 <= f && 0 < profit && 0 <= fee < FEE_TICK
    requires v * d <= s * tav && f * tav * FEE_TICK <= profit * fee * d
    ensures v * f < profit * s
  {
    assert f * tav < profit * d by {
      ScaleLt(0, d, profit);
      ScaleLt(fee, FEE_TICK, profit * d);
      assert profit * fee * d == profit * d * fee;
      CancelLt(f * tav, profit * d, FEE_TICK);
    }
    Scale(v * d, s * tav, f);
    ScaleLt(f * tav, profit * d, s);
    assert f * (v * d) == v * f * d;
    assert f * (s * tav) == s * (f * tav);
    assert s * (profit * d) == profit * s * d;
    CancelLt(v * f, profit * s, d);
  }

  lemma FeeBelowProfit(info: PoolInfo, tav: int, profit: int, s: int)
    requires Priced(info, tav) && 0 < s && 0 < profit <= SharesToUsdcValue(info, tav, s)
    ensures var v, f := SharesToUsdcValue(info, tav, s), OperatorFeeShares(info, tav, profit, s);
            v * f < profit * s && f < s
  {
    var v := QuoteBounds(info, tav, s);
    FeeValueBound(info, tav, profit, s);
    var f := OperatorFeeShares(info, tav, profit, s);
    FeeCore(v, s, tav, info.totalShares * USDC_TO_COLLATERAL, f, profit, info.operatorFee);
    MulMono(profit, v, s);
    CancelLt(f, s, v);
  }

  /** `f` shares are the operator's fraction of the profit at the pool's value, rounded down. */
  predicate FeeAt(info: PoolInfo, tav: int, profit: int, f: int) {
    f * tav * FEE_TICK <= profit * info.operatorFee * (info.totalShares * USDC_TO_COLLATERAL) < (f + 1) * tav * FEE_TICK
  }

  /** The clamp never fires on a profit within the quote, so the fee is the floor of its fraction of the profit. */
  lemma FeeIsFloor(info: PoolInfo, tav: int, profit: int, s: int)
    requires Priced(info, tav) && 0 < s && 0 < profit <= SharesToUsdcValue(info, tav, s)
    ensures FeeAt(info, tav, profit, OperatorFeeShares(info, tav, profit, s))
  {
    var f, pf := OperatorFeeShares(info, tav, profit, s), profit * info.operatorFee;
    FeeValueBound(info, tav, profit, s);
    FeeBelowProfit(info, tav, profit, s);
    if info.operatorFee == 0 {
      assert pf * (info.totalShares * USDC_TO_COLLATERAL) == 0;
    } else {
      assert 0 <= pf * info.totalShares;
      var q := QuoFloor(pf * info.totalShares * USDC_TO_COLLATERAL, FEE_TICK * tav);
      assert f == q;
      assert (q + 1) * (FEE_TICK * tav) == (q + 1) * tav * FEE_TICK;
      assert pf * info.totalShares * USDC_TO_COLLATERAL == pf * (info.totalShares * USDC_TO_COLLATERAL);
    }
  }

  // ---------- what a burn guarantees ----------

  lemma PrincipalBounds(e: Share, s: int)
    requires 0 <= e.principal && 0 < s <= e.amount
    ensures 0 <= PrincipalOf(e, s) <= e.principal
    ensures s == e.amount ==> PrincipalOf(e, s) == e.principal
  {
    var q := QuoFloor(e.principal * s, e.amount);
    Scale(s, e.amount, e.principal);
    CancelLe(q, e.principal, e.amount);
    QuoExact(e.principal, e.amount);
  }

  /** The basis of the shares burned is their part of the principal, rounded down. */
  lemma PrincipalIsFloor(e: Share, s: int)
    requires 0 <= e.principal && 0 < s <= e.amount
    ensures PrincipalOf(e, s) * e.amount <= e.principal * s < (PrincipalOf(e, s) + 1) * e.amount
  {
    var _ := QuoFloor(e.principal * s, e.amount);
  }

  lemma QuoteIsPositive(info: PoolInfo, tav: int, s: int)
    requires Priced(info, tav) && 0 < s
    ensures 0 <= SharesToUsdcValue(info, tav, s)
  {
    var _ := QuoteBounds(info, tav, s);
  }

  /**
   * The operator fee never turns a profit into a loss.  The clamp never fires
   * (the fee is strictly below the shares burned), its NAV value is
   * `operator_fee / FEE_TICK` of the profit to within one share, and an LP whose
   * quote exceeds the cost basis of the burned shares is paid at least that
   * basis; otherwise the LP is paid the quote in full.
   */
  lemma FeeNeverTakesPrincipal(info: PoolInfo, tav: int, e: Share, s: int)
    requires Burnable(info, tav, Some(e), s)
    ensures var t := TermsOfBurn(info, tav, Some(e), s);
            var paid := PrincipalOf(e, s);
            && 0 <= t.feeShares < s
            && (t.usdcValue <= paid ==> t.feeShares == 0 && t.delivered == t.usdcValue)
            && (paid < t.usdcValue ==> paid <= t.delivered && FeeAt(info, tav, t.usdcValue - paid, t.feeShares))
  {
    hide OperatorFeeShares, SharesToUsdcValue, PrincipalOf, Quo, FeeAt;
    var t := TermsOfBurn(info, tav, Some(e), s);
    var paid := PrincipalOf(e, s);
    var v := SharesToUsdcValue(info, tav, s);
    PrincipalBounds(e, s);
    QuoteIsPositive(info, tav, s);
    if v <= paid {
      NoProfitNoFee(info, tav, v - paid, s);
      QuoExact(v, s);
    } else {
      ProfitPays(info, tav, paid, s);
    }
  }

  lemma ProfitPays(info: PoolInfo, tav: int, paid: int, s: int)
    requires Priced(info, tav) && 0 < s && 0 <= paid < SharesToUsdcValue(info, tav, s)
    ensures var v := SharesToUsdcValue(info, tav, s);
            var f := OperatorFeeShares(info, tav, v - paid, s);
            0 <= f < s && paid <= Quo(v * (s - f), s) && FeeAt(info, tav, v - paid, f)
  {
    hide OperatorFeeShares, SharesToUsdcValue, Quo, FeeAt;
    var v := SharesToUsdcValue(info, tav, s);
    FeeIsFloor(info, tav, v - paid, s);
    FeeBelowProfit(info, tav, v - paid, s);
    FeeIsPositive(info, tav, v - paid, s);
    PaysBasis(v, paid, s, OperatorFeeShares(info, tav, v - paid, s));
  }

  lemma FeeIsPositive(info: PoolInfo, tav: int, profit: int, s: int)
    requires Priced(info, tav) && 0 < s
    ensures 0 <= OperatorFeeShares(info, tav, profit, s)
  {
    FeeValueBound(info, tav, profit, s);
  }

  lemma NoProfitNoFee(info: PoolInfo, tav: int, profit: int, s: int)
    requires profit <= 0
    ensures OperatorFeeShares(info, tav, profit, s) == 0
  {
  }

  lemma PaysBasis(v: int, paid: int, s: int, f: int)
    requires 0 <= paid && 0 <= v && 0 < s && 0 <= f < s && v * f < (v - paid) * s
    ensures paid <= Quo(v * (s - f), s)
  {
    assert v * (s - f) == v * s - v * f;
    assert (v - paid) * s == v * s - paid * s;
    Scale(0, s - f, v);
    FloorAtLeast(v * (s - f), s, paid);
  }

  /** Every burn destroys between 1 and `s` shares and pays a non-negative amount, whoever burns. */
  lemma TermsBounds(info: PoolInfo, tav: int, entry: Option<Share>, s: int) returns (t: BurnTerms)
    requires Burnable(info, tav, entry, s)
    ensures t == TermsOfBurn(info, tav, entry, s)
    ensures 0 <= t.feeShares < s && t.burned == s - t.feeShares && (entry.None? ==> t.feeShares == 0)
    ensures 0 <= t.delivered && t.delivered * s <= t.usdcValue * t.burned < (t.delivered + 1) * s
  {
    t := TermsOfBurn(info, tav, entry, s);
    var v := QuoteBounds(info, tav, s);
    if entry.Some? { FeeNeverTakesPrincipal(info, tav, entry.value, s); }
    var _ := QuoFloor(v * t.burned, s);
  }

  /** The USDC paid never exceeds the NAV of the shares destroyed. */
  lemma PaidWithinNav(info: PoolInfo, tav: int, entry: Option<Share>, s: int) returns (t: BurnTerms)
    requires Burnable(info, tav, entry, s)
    ensures t == TermsOfBurn(info, tav, entry, s)
    ensures t.delivered * (info.totalShares * USDC_TO_COLLATERAL) <= t.burned * tav
  {
    t := TermsBounds(info, tav, entry, s);
    var v := QuoteBounds(info, tav, s);
    RatioTrans(t.delivered, t.burned, v, s, tav, info.totalShares * USDC_TO_COLLATERAL);
  }

  /**
   * No burn dilutes the holders who stay, and none can overdraw the pool: with
   * PnL unchanged the remaining value per remaining share is no lower and the
   * remaining value is non-negative.
   */
  lemma BurnNeverDilutes(info: PoolInfo, tav: int, entry: Option<Share>, s: int)
    requires Burnable(info, tav, entry, s)
    ensures var t := TermsOfBurn(info, tav, entry, s);
            var tav' := tav - t.delivered * USDC_TO_COLLATERAL;
            NoDilution(info.totalShares, tav, info.totalShares - t.burned, tav') && 0 <= tav'
  {
    var t := PaidWithinNav(info, tav, entry, s);
    var _ := TermsBounds(info, tav, entry, s);
    Dividend(info.totalShares, tav, t.burned, t.delivered);
  }

  lemma Dividend(total: int, tav: int, burned: int, paid: int)
    requires 0 < total && 0 <= burned <= total && 0 <= tav
    requires paid * (total * USDC_TO_COLLATERAL) <= burned * tav
    ensures NoDilution(total, tav, total - burned, tav - paid * USDC_TO_COLLATERAL)
    ensures paid * USDC_TO_COLLATERAL <= tav
  {
    var out := paid * USDC_TO_COLLATERAL;
    assert paid * (total * USDC_TO_COLLATERAL) == out * total;
    assert tav * (total - burned) == tav * total - tav * burned;
    assert (tav - out) * total == tav * total - out * total;
    MulMono(burned, total, tav);
    CancelLe(out, tav, total);
  }

  /** No accepted mint into a pool with shares dilutes the existing holders. */
  lemma MintNeverDilutes(info: PoolInfo, tav: int, u: int)
    requires Priced(info, tav) && 0 < u
    ensures var r := UsdcValueToShares(info, tav, u);
            r.Ok? && 0 <= r.value
            && NoDilution(info.totalShares, tav, info.totalShares + r.value, tav + u * USDC_TO_COLLATERAL)
  {
    var num := u * info.totalShares * USDC_TO_COLLATERAL;
    var sh := QuoFloor(num, tav);
    assert num == u * USDC_TO_COLLATERAL * info.totalShares;
    assert tav * (info.totalShares + sh) == tav * info.totalShares + sh * tav;
    assert (tav + u * USDC_TO_COLLATERAL) * info.totalShares
        == tav * info.totalShares + u * USDC_TO_COLLATERAL * info.totalShares;
  }

  /** Shares are issued at the share price, to within one: the initial price in an empty pool, the value of a share in others. */
  lemma MintIsFloor(info: PoolInfo, tav: int, u: int)
    requires 0 < u && 0 <= info.totalShares
    ensures var r := UsdcValueToShares(info, tav, u);
            if info.totalShares == 0 then
              r.Ok? && r.value * INITIAL_POOL_SHARE_VALUE <= u < (r.value + 1) * INITIAL_POOL_SHARE_VALUE
            else
              && (r.Ok? <==> 0 < tav)
              && (r.Ok? ==> r.value * tav <= u * (info.totalShares * USDC_TO_COLLATERAL) < (r.value + 1) * tav)
  {
    if info.totalShares == 0 {
      var _ := QuoFloor(u, INITIAL_POOL_SHARE_VALUE);
    } else if 0 < tav {
      assert 0 <= u * info.totalShares;
      var _ := QuoFloor(u * info.totalShares * USDC_TO_COLLATERAL, tav);
      assert u * info.totalShares * USDC_TO_COLLATERAL == u * (info.totalShares * USDC_TO_COLLATERAL);
    }
  }

  /** A step that does not dilute leaves every quotation at least as high. */
  lemma QuotesNeverFall(info: PoolInfo, tav: int, info': PoolInfo, tav': int, s: int)
    requires Priced(info, tav) && 0 < info'.totalShares
    requires NoDilution(info.totalShares, tav, info'.totalShares, tav')
    ensures SharesToUsdcValue(info, tav, s) <= SharesToUsdcValue(info', tav', s)
  {
    var tot, tot' := info.totalShares, info'.totalShares;
    if 0 < s {
      assert 0 < tav' by {
        assert 0 < tav * tot';
        if tav' <= 0 { MulMono(tav', 0, tot); }
      }
      var v := QuoteBounds(info, tav, s);
      var d, d' := tot * USDC_TO_COLLATERAL, tot' * USDC_TO_COLLATERAL;
      assert tav * d' <= tav' * d;
      RatioTrans(v, s, tav, d, tav', d');
      FloorAtLeast(s * tav', d', v);
    }
  }

  /** Value per share composes along a run while the pool keeps shares. */
  lemma NoDilutionComposes(t0: int, v0: int, t1: int, v1: int, t2: int, v2: int)
    requires 0 < t1 && 0 <= t0 && 0 <= t2
    requires NoDilution(t0, v0, t1, v1) && NoDilution(t1, v1, t2, v2)
    ensures NoDilution(t0, v0, t2, v2)
  {
    RatioTrans(v0, t0, v1, t1, v2, t2);
  }

  /** The cap is sufficient: a burn within it pays out no more than the available collateral. */
  lemma BurnCapSuffices(info: PoolInfo, tav: int, avail: int, entry: Option<Share>, s: int)
    requires Burnable(info, tav, entry, s)
    requires s <= AvailableSharesToBurn(info, tav, avail)
    ensures TermsOfBurn(info, tav, entry, s).delivered * USDC_TO_COLLATERAL <= avail
  {
    var t := PaidWithinNav(info, tav, entry, s);
    var _ := TermsBounds(info, tav, entry, s);
    var cap := QuoFloor(avail * info.totalShares, tav);
    CapCore(info.totalShares, tav, t.burned, t.delivered, avail, cap);
  }

  /** The cap is exact: it admits every burn whose value the available collateral covers, and no other. */
  lemma CapIsExact(info: PoolInfo, tav: int, avail: int, s: int)
    requires Priced(info, tav) && 0 < s
    ensures s <= AvailableSharesToBurn(info, tav, avail) <==> 0 < avail && s * tav <= avail * info.totalShares
  {
    if 0 < avail {
      var cap := QuoFloor(avail * info.totalShares, tav);
      if s * tav <= avail * info.totalShares { CancelLt(s, cap + 1, tav); }
      if s <= cap { MulMono(s, cap, tav); }
    }
  }

  lemma CapCore(total: int, tav: int, burned: int, paid: int, avail: int, cap: int)
    requires 0 < total && 0 < tav && burned <= cap && cap * tav <= avail * total
    requires paid * (total * USDC_TO_COLLATERAL) <= burned * tav
    ensures paid * USDC_TO_COLLATERAL <= avail
  {
    MulMono(burned, cap, tav);
    assert paid * (total * USDC_TO_COLLATERAL) == paid * USDC_TO_COLLATERAL * total;
    CancelLe(paid * USDC_TO_COLLATERAL, avail, total);
  }

  /** The one-shot payout refines quoting the destroyed shares afresh: never more, at most one unit less. */
  lemma OneShotPayoutRefinesRequote(info: PoolInfo, tav: int, entry: Option<Share>, s: int)
    requires Burnable(info, tav, entry, s)
    ensures var t := TermsOfBurn(info, tav, entry, s);
            var requote := SharesToUsdcValue(info, tav, t.burned);
            requote - 1 <= t.delivered <= requote
  {
    var t := PaidWithinNav(info, tav, entry, s);
    var _ := TermsBounds(info, tav, entry, s);
    var d := info.totalShares * USDC_TO_COLLATERAL;
    FloorAtLeast(t.burned * tav, d, t.delivered);
    var v := QuoteBounds(info, tav, s);
    RequoteCore(v, s, tav, d, t.burned, t.delivered);
    FloorAtMost(t.burned * tav, d, t.delivered + 1);
  }

  /** `tav/d < (v+1)/s` and `(v+1)/s <= (paid+2)/burned` give `tav/d < (paid+2)/burned`. */
  lemma RequoteCore(v: int, s: int, tav: int, d: int, burned: int, paid: int)
    requires 0 < d && 0 < burned <= s
    requires s * tav < (v + 1) * d && v * burned < (paid + 1) * s
    ensures burned * tav < (paid + 2) * d
  {
    assert (v + 1) * burned == v * burned + burned;
    assert (paid + 2) * s == (paid + 1) * s + s;
    ScaleLt(s * tav, (v + 1) * d, burned);
    Scale((v + 1) * burned, (paid + 2) * s, d);
    assert burned * (s * tav) == burned * tav * s;
    assert burned * ((v + 1) * d) == d * ((v + 1) * burned);
    assert d * ((paid + 2) * s) == (paid + 2) * d * s;
    CancelLt(burned * tav, (paid + 2) * d, s);
  }

  // ---------- the mint/redeem round trip ----------

  /**
   * Minting `u` and redeeming the fresh shares at unchanged PnL charges no
   * operator fee, returns at most `u`, and loses less than one share's value
   * plus one unit.
   */
  lemma MintThenRedeem(info: PoolInfo, tav: int, u: int, minted: PoolInfo, sh: int, time: int)
    requires Priced(info, tav) && 0 < u
    requires UsdcValueToShares(info, tav, u) == Ok(sh) && 0 < sh
    requires minted == info.(totalShares := info.totalShares + sh) && InfoOk(minted)
    ensures var tav' := tav + u * USDC_TO_COLLATERAL;
            var t := TermsOfBurn(minted, tav', Some(Share(0, sh, u, time)), sh);
            && t.feeShares == 0 && t.delivered == t.usdcValue <= u
            && (u - t.delivered - 1) * minted.totalShares * USDC_TO_COLLATERAL < tav
  {
    var tav', e := tav + u * USDC_TO_COLLATERAL, Share(0, sh, u, time);
    var _ := QuoFloor(u * info.totalShares * USDC_TO_COLLATERAL, tav);
    var v := QuoteBounds(minted, tav', sh);
    RoundTripCore(info.totalShares, tav, u, sh, v);
    PrincipalBounds(e, sh);
    FeeNeverTakesPrincipal(minted, tav', e, sh);
  }

  /** `v` is the floor quote of `sh` fresh shares, themselves the floor of a deposit `u`. */
  lemma RoundTripCore(total: int, tav: int, u: int, sh: int, v: int)
    requires 0 < total && 0 < tav && 0 < u && 0 < sh
    requires sh * tav <= u * total * USDC_TO_COLLATERAL < (sh + 1) * tav
    requires v * ((total + sh) * USDC_TO_COLLATERAL) <= sh * (tav + u * USDC_TO_COLLATERAL)
                < (v + 1) * ((total + sh) * USDC_TO_COLLATERAL)
    ensures v <= u
    ensures (u - v - 1) * (total + sh) * USDC_TO_COLLATERAL < tav
  {
    var d, w := (total + sh) * USDC_TO_COLLATERAL, u * USDC_TO_COLLATERAL;
    assert u * d == u * total * USDC_TO_COLLATERAL + sh * w by {
      assert u * (total + sh) == u * total + u * sh;
    }
    assert sh * (tav + w) == sh * tav + sh * w;
    assert (sh + 1) * tav == sh * tav + tav;
    assert (u - v - 1) * d == u * d - (v + 1) * d;
    assert (u - v - 1) * (total + sh) * USDC_TO_COLLATERAL == (u - v - 1) * d;
    CancelLe(v, u, d);
  }

  // ---------- the operator floor ----------

  /** An operator mint, which the engine does not check, keeps the floor. */
  lemma OperatorMintKeepsFloor(info: PoolInfo, sh: nat)
    requires InfoOk(info) && CheckMinOperatorShareRate(info)
    ensures CheckMinOperatorShareRate(
              info.(totalShares := info.totalShares + sh, operatorShares := info.operatorShares + sh))
  {
    Scale(info.minOperatorShareRate, SHARE_TICK, sh);
    assert (info.totalShares + sh) * info.minOperatorShareRate
        == info.totalShares * info.minOperatorShareRate + sh * info.minOperatorShareRate;
  }

  /** The engine's defensive re-check after an LP burn can never fire. */
  lemma LpBurnKeepsFloor(info: PoolInfo, burned: nat, fee: nat)
    requires InfoOk(info) && CheckMinOperatorShareRate(info) && burned <= info.totalShares
    ensures CheckMinOperatorShareRate(
              info.(totalShares := info.totalShares - burned, operatorShares := info.operatorShares + fee))
  {
    MulMono(info.totalShares - burned, info.totalShares, info.minOperatorShareRate);
  }
}

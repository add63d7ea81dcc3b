// Integer arithmetic of the ledger.  The source's `math.Int.Quo` truncates
// toward zero; Dafny's `/` is Euclidean, so the operator is written out here.
module Arith {

  function Abs(a: int): (r: nat) {
    if a < 0 then -a else a
  }

  function Sign(a: int): int {
    if a < 0 then -1 else if a == 0 then 0 else 1
  }

  /** Division truncating toward zero. */
  function Quo(a: int, b: int): int
    requires b != 0
  {
    if (a < 0) == (b < 0) then Abs(a) / Abs(b) else -(Abs(a) / Abs(b))
  }

  lemma MulMono(a: int, b: int, c: int)
    requires a <= b && 0 <= c
    ensures a * c <= b * c
  {
  }

  /** A strict comparison of products by one positive factor carries over to the other factors. */
  lemma CancelLt(a: int, b: int, c: int)
    requires 0 < c && a * c < b * c
    ensures a < b
  {
    if b <= a { MulMono(b, a, c); }
  }

  lemma CancelLe(a: int, b: int, c: int)
    requires 0 < c && a * c <= b * c
    ensures a <= b
  {
    if b < a { MulMono(b + 1, a, c); }
  }

  lemma Scale(a: int, b: int, k: int)
    requires a <= b && 0 <= k
    ensures k * a <= k * b
  {
  }

  lemma ScaleLt(a: int, b: int, k: int)
    requires a < b && 0 < k
    ensures k * a < k * b
  {
  }

  /** Ratios compose: `a/b <= v/s` and `v/s <= t/d` give `a/b <= t/d`, all cross-multiplied. */
  lemma RatioTrans(a: int, b: int, v: int, s: int, t: int, d: int)
    requires 0 <= b && 0 < s && 0 <= d
    requires a * s <= v * b && v * d <= t * s
    ensures a * d <= t * b
  {
    Scale(a * s, v * b, d);
    Scale(v * d, t * s, b);
    assert d * (a * s) == (a * d) * s;
    assert d * (v * b) == b * (v * d);
    assert b * (t * s) == (t * b) * s;
    CancelLe(a * d, t * b, s);
  }

  /** On a non-negative numerator and a positive denominator `Quo` is the floor. */
  lemma QuoFloor(a: int, b: int) returns (q: int)
    requires 0 <= a && 0 < b
    ensures q == Quo(a, b)
    ensures 0 <= q && q * b <= a < (q + 1) * b
  {
    q := a / b;
    assert a == q * b + a % b;
  }

  /** The largest integer not above a quotient, recognised by its two bounds. */
  lemma FloorIs(a: int, b: int, q: int)
    requires 0 <= a && 0 < b && q * b <= a < (q + 1) * b
    ensures Quo(a, b) == q
  {
    var f := QuoFloor(a, b);
    CancelLt(f, q + 1, b);
    CancelLt(q, f + 1, b);
  }

  lemma FloorAtLeast(a: int, b: int, q: int)
    requires 0 <= a && 0 < b && q * b <= a
    ensures q <= Quo(a, b)
  {
    var f := QuoFloor(a, b);
    CancelLt(q, f + 1, b);
  }

  lemma FloorAtMost(a: int, b: int, q: int)
    requires 0 <= a && 0 < b && a < (q + 1) * b
    ensures Quo(a, b) <= q
  {
    var f := QuoFloor(a, b);
    CancelLt(f, q + 1, b);
  }

  lemma FloorMono(a: int, a': int, b: int)
    requires 0 <= a <= a' && 0 < b
    ensures Quo(a, b) <= Quo(a', b)
  {
    var q := QuoFloor(a, b);
    FloorAtLeast(a', b, q);
  }

  lemma AbsMul(k: int, b: int)
    ensures Abs(k * b) == Abs(k) * Abs(b)
    ensures k != 0 && b != 0 ==> ((k * b < 0) == (b < 0) <==> 0 < k)
  {
    if 0 < k && 0 < b { ScaleLt(0, b, k); }
    else if 0 < k && b < 0 { ScaleLt(b, 0, k); }
    else if k < 0 && 0 < b { ScaleLt(0, b, -k); }
    else if k < 0 && b < 0 { ScaleLt(b, 0, -k); }
  }

  lemma QuoExact(k: int, b: int)
    requires b != 0
    ensures Quo(k * b, b) == k
  {
    AbsMul(k, b);
    FloorIs(Abs(k) * Abs(b), Abs(b), Abs(k));
  }

  /** Truncation never overshoots, errs by less than the divisor, and errs on the dividend's side. */
  lemma QuoTruncates(a: int, b: int) returns (q: int, r: int)
    requires b != 0
    ensures q == Quo(a, b) && a == q * b + r
    ensures Abs(r) < Abs(b)
    ensures 0 <= a ==> 0 <= r
    ensures a <= 0 ==> r <= 0
  {
    q := Quo(a, b);
    r := a - q * b;
    var f := QuoFloor(Abs(a), Abs(b));
    assert Abs(q) == f;
    assert q * b == (if a < 0 then -(f * Abs(b)) else f * Abs(b));
    assert (f + 1) * Abs(b) == f * Abs(b) + Abs(b);
  }
}

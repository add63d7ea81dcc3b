// The sidecar's cross-provider median: services/oracle/oracle/aggregator.go.
module Medians {
  import opened Types

  // ---------- ranks ----------

  function Below(s: seq<int>, m: int): nat {
    if s == [] then 0 else (if s[0] < m then 1 else 0) + Below(s[1..], m)
  }

  function Above(s: seq<int>, m: int): nat {
    if s == [] then 0 else (if m < s[0] then 1 else 0) + Above(s[1..], m)
  }

  function Within(s: seq<int>, lo: int, hi: int): nat {
    if s == [] then 0 else (if lo <= s[0] <= hi then 1 else 0) + Within(s[1..], lo, hi)
  }

  /** The lower median by rank alone: at most `(n-1)/2` samples below it and at most `n/2` above. */
  predicate IsLowerMedian(s: seq<int>, m: int) {
    m in s && Below(s, m) <= (|s| - 1) / 2 && Above(s, m) <= |s| / 2
  }

  predicate Ordered(s: seq<int>) {
    forall i, j :: 0 <= i < j < |s| ==> s[i] <= s[j]
  }

  /** Everything but one sample is counted twice at most: below the larger or above the smaller of two marks. */
  lemma {:induction false} RanksOverlap(s: seq<int>, m1: int, m2: int)
    requires m1 < m2
    ensures |s| <= Below(s, m2) + Above(s, m1)
  {
    if s != [] { RanksOverlap(s[1..], m1, m2); }
  }

  /** A sequence has at most one lower median. */
  lemma LowerMedianUnique(s: seq<int>, m1: int, m2: int)
    requires IsLowerMedian(s, m1) && IsLowerMedian(s, m2)
    ensures m1 == m2
  {
    if m1 < m2 { RanksOverlap(s, m1, m2); }
    if m2 < m1 { RanksOverlap(s, m2, m1); }
  }

  lemma {:induction false} WithinExcludes(s: seq<int>, lo: int, hi: int, m: int)
    ensures m < lo ==> Within(s, lo, hi) <= Above(s, m)
    ensures hi < m ==> Within(s, lo, hi) <= Below(s, m)
  {
    if s != [] { WithinExcludes(s[1..], lo, hi, m); }
  }

  /** When more than half of the samples lie in a band, so does the median: a minority cannot move it out. */
  lemma MajorityBoundsMedian(s: seq<int>, m: int, lo: int, hi: int)
    requires IsLowerMedian(s, m) && 2 * Within(s, lo, hi) > |s|
    ensures lo <= m <= hi
  {
    WithinExcludes(s, lo, hi, m);
  }

  // ---------- ranks do not depend on order ----------

  lemma {:induction false} RanksAppend(s: seq<int>, t: seq<int>, m: int)
    ensures Below(s + t, m) == Below(s, m) + Below(t, m)
    ensures Above(s + t, m) == Above(s, m) + Above(t, m)
  {
    if s == [] {
      assert s + t == t;
    } else {
      assert (s + t)[1..] == s[1..] + t;
      RanksAppend(s[1..], t, m);
    }
  }

  /** Taking one sample out of a sequence. */
  lemma RanksWithout(t: seq<int>, j: nat, m: int)
    requires j < |t|
    ensures var rest := t[..j] + t[j + 1..];
            && multiset(t) == multiset(rest) + multiset{t[j]}
            && Below(t, m) == Below(rest, m) + (if t[j] < m then 1 else 0)
            && Above(t, m) == Above(rest, m) + (if m < t[j] then 1 else 0)
  {
    assert t == t[..j] + [t[j]] + t[j + 1..];
    RanksAppend(t[..j] + [t[j]], t[j + 1..], m);
    RanksAppend(t[..j], [t[j]], m);
    RanksAppend(t[..j], t[j + 1..], m);
  }

  lemma CancelOne(a: multiset<int>, b: multiset<int>, x: int)
    requires a + multiset{x} == b + multiset{x}
    ensures a == b
  {
    assert a == (a + multiset{x}) - multiset{x};
    assert b == (b + multiset{x}) - multiset{x};
  }

  lemma {:induction false} RanksPermute(s: seq<int>, t: seq<int>, m: int)
    requires multiset(s) == multiset(t)
    ensures Below(s, m) == Below(t, m) && Above(s, m) == Above(t, m)
    decreases |s|
  {
    hide Below, Above;
    assert |s| == |multiset(s)| == |multiset(t)| == |t|;
    if s == [] {
      assert s == t;
    } else {
      assert s[0] in multiset(t);
      var j :| 0 <= j < |t| && t[j] == s[0];
      RanksWithout(s, 0, m);
      RanksWithout(t, j, m);
      var s', t' := s[..0] + s[0 + 1..], t[..j] + t[j + 1..];
      CancelOne(multiset(s'), multiset(t'), s[0]);
      RanksPermute(s', t', m);
    }
  }

  lemma MedianPermutes(s: seq<int>, t: seq<int>, m: int)
    requires multiset(s) == multiset(t)
    ensures IsLowerMedian(s, m) <==> IsLowerMedian(t, m)
  {
    RanksPermute(s, t, m);
    assert |s| == |multiset(s)| == |multiset(t)| == |t|;
    assert m in s <==> m in multiset(s);
    assert m in t <==> m in multiset(t);
  }

  lemma {:induction false} BelowWithin(s: seq<int>, m: int, k: nat)
    requires k <= |s| && forall i :: k <= i < |s| ==> m <= s[i]
    ensures Below(s, m) <= k
  {
    if s != [] {
      assert forall i :: 0 <= i < |s| - 1 ==> s[1..][i] == s[i + 1];
      BelowWithin(s[1..], m, if k == 0 then 0 else k - 1);
    }
  }

  lemma {:induction false} AboveWithin(s: seq<int>, m: int, k: nat)
    requires k <= |s| && forall i :: 0 <= i < k ==> s[i] <= m
    ensures Above(s, m) <= |s| - k
  {
    if s != [] {
      assert forall i :: 0 <= i < |s| - 1 ==> s[1..][i] == s[i + 1];
      AboveWithin(s[1..], m, if k == 0 then 0 else k - 1);
    }
  }

  /** In an ordered sequence the element at `(n-1)/2` is the lower median. */
  lemma MiddleIsMedian(s: seq<int>)
    requires s != [] && Ordered(s)
    ensures IsLowerMedian(s, s[(|s| - 1) / 2])
  {
    var k := (|s| - 1) / 2;
    BelowWithin(s, s[k], k);
    AboveWithin(s, s[k], k + 1);
  }

  // ---------- the code ----------

  method SwapDown(a: array<int>, j: nat)
    requires 0 < j < a.Length
    modifies a
    ensures a[j - 1] == old(a[j]) && a[j] == old(a[j - 1])
    ensures forall i :: 0 <= i < a.Length && i != j - 1 && i != j ==> a[i] == old(a[i])
    ensures multiset(a[..]) == multiset(old(a[..]))
  {
    a[j - 1], a[j] := a[j], a[j - 1];
  }

  /** Moves `a[k]` down into the ordered prefix before it. */
  method InsertLast(a: array<int>, k: nat)
    requires k < a.Length && forall x, y :: 0 <= x < y < k ==> a[x] <= a[y]
    modifies a
    ensures forall x, y :: 0 <= x < y < k + 1 ==> a[x] <= a[y]
    ensures multiset(a[..]) == multiset(old(a[..]))
  {
    var j := k;
    while 0 < j && a[j] < a[j - 1]
      invariant 0 <= j <= k
      invariant forall x, y :: 0 <= x < y <= k && y != j ==> a[x] <= a[y]
      invariant multiset(a[..]) == multiset(old(a[..]))
    {
      SwapDown(a, j);
      j := j - 1;
    }
  }

  method SortInPlace(a: array<int>)
    modifies a
    ensures Ordered(a[..])
    ensures multiset(a[..]) == multiset(old(a[..]))
  {
    for i := 0 to a.Length
      invariant forall x, y :: 0 <= x < y < i ==> a[x] <= a[y]
      invariant multiset(a[..]) == multiset(old(a[..]))
    {
      InsertLast(a, i);
    }
  }

  /** Copies the samples, sorts the copy and takes the lower middle; no samples, no median. */
  method Median(values: seq<int>) returns (m: Option<int>)
    ensures m.None? <==> values == []
    ensures m.Some? ==> IsLowerMedian(values, m.value)
  {
    if |values| == 0 { return None; }
    var cp := new int[|values|](i requires 0 <= i < |values| => values[i]);
    assert cp[..] == values;
    SortInPlace(cp);
    MiddleIsMedian(cp[..]);
    assert |cp[..]| == |values|;
    MedianPermutes(cp[..], values, cp[(cp.Length - 1) / 2]);
    return Some(cp[(cp.Length - 1) / 2]);
  }
}

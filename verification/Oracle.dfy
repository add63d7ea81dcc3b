// The oracle sidecar's orchestrator: one slot per (pair, provider), a freshness
// filter and the published snapshot.
module Oracle {
  import opened Types
  import opened Medians

  datatype Pair = Pair(base: string, quote: string) {
    function Name(): string { base + "/" + quote }
  }

  /** What a lookup of an undeclared pair yields. */
  const ZERO_PAIR := Pair("", "")

  /** One observation; a `None` value stands for a missing integer. */
  datatype Price = Price(pair: Pair, value: Option<int>, time: int, provider: string) {
    function Key(): string { pair.Name() + "@" + provider }
  }

  datatype Config = Config(maxAge: int, minSources: int)

  datatype Input = Input(pair: Pair, samples: seq<Price>)

  // ---------- what is to be published ----------

  /** A sample that is fresh and positive. */
  predicate Eligible(p: Price, cfg: Config, now: int) {
    && !(cfg.maxAge > 0 && now - p.time > cfg.maxAge)
    && p.value.Some? && p.value.value > 0
  }

  function Values(samples: seq<Price>, cfg: Config, now: int): seq<int> {
    if samples == [] then []
    else
      var p := samples[|samples| - 1];
      Values(samples[..|samples| - 1], cfg, now) + if Eligible(p, cfg, now) then [p.value.value] else []
  }

  /** Too few eligible samples to publish a price. */
  predicate Silent(samples: seq<Price>, cfg: Config, now: int) {
    var n := |Values(samples, cfg, now)|;
    n == 0 || (cfg.minSources > 0 && n < cfg.minSources)
  }

  /** `r` is what these samples publish: nothing, or the lower median of the eligible ones. */
  predicate Publishes(samples: seq<Price>, cfg: Config, now: int, r: Option<int>) {
    if Silent(samples, cfg, now) then r.None?
    else r.Some? && IsLowerMedian(Values(samples, cfg, now), r.value)
  }

  /** The samples that carry a positive price and, if ages are bounded, are no older than the bound. */
  ghost function Usable(samples: seq<Price>, cfg: Config, now: int): set<nat> {
    set i | 0 <= i < |samples| && samples[i].value.Some? && 0 < samples[i].value.value
            && (0 < cfg.maxAge ==> now <= samples[i].time + cfg.maxAge)
  }

  lemma {:induction false} ValuesAreUsable(samples: seq<Price>, cfg: Config, now: int)
    ensures |Values(samples, cfg, now)| == |Usable(samples, cfg, now)|
    ensures forall v :: v in Values(samples, cfg, now) ==>
              exists i :: i in Usable(samples, cfg, now) && samples[i].value.value == v
    decreases |samples|
  {
    if samples != [] {
      var n := |samples| - 1;
      ValuesAreUsable(samples[..n], cfg, now);
      var front := Usable(samples[..n], cfg, now);
      if Eligible(samples[n], cfg, now) {
        assert Usable(samples, cfg, now) == front + {n};
      } else {
        assert Usable(samples, cfg, now) == front;
      }
      forall v | v in Values(samples, cfg, now)
        ensures exists i :: i in Usable(samples, cfg, now) && samples[i].value.value == v
      {
        if v in Values(samples[..n], cfg, now) {
          var i :| i in front && samples[..n][i].value.value == v;
          assert i in Usable(samples, cfg, now) && samples[i].value.value == v;
        } else {
          assert n in Usable(samples, cfg, now) && samples[n].value.value == v;
        }
      }
    }
  }

  /** A price is published exactly when enough samples are usable, and is then one of theirs, so positive. */
  lemma PublishesIff(samples: seq<Price>, cfg: Config, now: int, r: Option<int>)
    requires Publishes(samples, cfg, now, r)
    ensures r.Some? <==> 1 <= |Usable(samples, cfg, now)| && cfg.minSources <= |Usable(samples, cfg, now)|
    ensures r.Some? ==> 0 < r.value && exists i :: i in Usable(samples, cfg, now) && samples[i].value.value == r.value
  {
    ValuesAreUsable(samples, cfg, now);
    if r.Some? { assert r.value in Values(samples, cfg, now); }
  }

  function Lookup<T>(m: map<string, T>, k: string): Option<T> {
    if k in m then Some(m[k]) else None
  }

  // ---------- Aggregate ----------

  /** The last input under `name` that publishes decides. */
  predicate AggregatesTo(inputs: seq<Input>, cfg: Config, now: int, name: string, r: Option<int>)
    decreases |inputs|
  {
    if inputs == [] then r.None?
    else
      var last := inputs[|inputs| - 1];
      if last.pair.Name() == name && !Silent(last.samples, cfg, now)
      then Publishes(last.samples, cfg, now, r)
      else AggregatesTo(inputs[..|inputs| - 1], cfg, now, name, r)
  }

  method FreshValues(samples: seq<Price>, cfg: Config, now: int) returns (values: seq<int>)
    ensures values == Values(samples, cfg, now)
  {
    values := [];
    for i := 0 to |samples|
      invariant values == Values(samples[..i], cfg, now)
    {
      var s := samples[i];
      assert samples[..i + 1][..i] == samples[..i];
      if cfg.maxAge > 0 && now - s.time > cfg.maxAge { continue; }
      if s.value.None? || s.value.value <= 0 { continue; }
      values := values + [s.value.value];
    }
    assert samples[..|samples|] == samples;
  }

  method Aggregate(inputs: seq<Input>, cfg: Config, now: int) returns (out: map<string, int>)
    ensures forall name :: AggregatesTo(inputs, cfg, now, name, Lookup(out, name))
  {
    out := map[];
    for i := 0 to |inputs|
      invariant forall name :: AggregatesTo(inputs[..i], cfg, now, name, Lookup(out, name))
    {
      assert inputs[..i + 1][..i] == inputs[..i];
      var values := FreshValues(inputs[i].samples, cfg, now);
      if |values| == 0 { continue; }
      if cfg.minSources > 0 && |values| < cfg.minSources { continue; }
      var m := Median(values);
      ghost var before := out;
      out := out[inputs[i].pair.Name() := m.value];
      forall name ensures AggregatesTo(inputs[..i + 1], cfg, now, name, Lookup(out, name)) {
        assert name != inputs[i].pair.Name() ==> Lookup(out, name) == Lookup(before, name);
      }
    }
    assert inputs[..|inputs|] == inputs;
  }

  /** What a name publishes comes from one of its inputs, and it is silent only when all of them are. */
  lemma {:induction false} SomeInputDecides(inputs: seq<Input>, cfg: Config, now: int, name: string, r: Option<int>)
    requires AggregatesTo(inputs, cfg, now, name, r)
    ensures r.Some? ==> exists i :: 0 <= i < |inputs| && inputs[i].pair.Name() == name
                                    && Publishes(inputs[i].samples, cfg, now, r)
    ensures r.None? ==> forall i :: 0 <= i < |inputs| && inputs[i].pair.Name() == name ==>
                                      Publishes(inputs[i].samples, cfg, now, r)
    decreases |inputs|
  {
    if inputs != [] {
      var last, front := inputs[|inputs| - 1], inputs[..|inputs| - 1];
      if !(last.pair.Name() == name && !Silent(last.samples, cfg, now)) {
        SomeInputDecides(front, cfg, now, name, r);
        assert forall i :: 0 <= i < |front| ==> front[i] == inputs[i];
      }
    }
  }

  // ---------- the slots and their iteration order ----------

  /** One slot per key, holding the last sample ingested under it. */
  function Latest(history: seq<Price>): map<string, Price> {
    if history == [] then map[]
    else var p := history[|history| - 1]; Latest(history[..|history| - 1])[p.Key() := p]
  }

  /** A slot holds a sample exactly when one was ingested under its key, and then the last such one. */
  lemma {:induction false} SlotHoldsLast(history: seq<Price>, i: nat)
    requires i < |history|
    requires forall j :: i < j < |history| ==> history[j].Key() != history[i].Key()
    ensures history[i].Key() in Latest(history) && Latest(history)[history[i].Key()] == history[i]
    decreases |history|
  {
    var front := history[..|history| - 1];
    if i < |front| { SlotHoldsLast(front, i); }
  }

  lemma {:induction false} SlotWasIngested(history: seq<Price>, k: string)
    requires k in Latest(history)
    ensures Latest(history)[k] in history && Latest(history)[k].Key() == k
  {
    if history[|history| - 1].Key() != k { SlotWasIngested(history[..|history| - 1], k); }
  }

  /** Each slot's sample is the last one its provider sent for its pair. */
  lemma {:induction false} SlotIsLastOfSource(history: seq<Price>, k: string)
    requires k in Latest(history)
    ensures exists i :: 0 <= i < |history| && Latest(history)[k] == history[i] && LastOfSource(history, i)
    decreases |history|
  {
    var n := |history| - 1;
    var front := history[..n];
    if history[n].Key() == k {
      assert LastOfSource(history, n);
    } else {
      SlotIsLastOfSource(front, k);
      SlotWasIngested(front, k);
      var i :| 0 <= i < |front| && Latest(front)[k] == front[i] && LastOfSource(front, i);
      assert LastOfSource(history, i);
    }
  }

  /** No later sample comes from the same provider for the same pair. */
  ghost predicate LastOfSource(history: seq<Price>, i: int)
    requires 0 <= i < |history|
  {
    forall j :: i < j < |history| ==> history[j].pair != history[i].pair || history[j].provider != history[i].provider
  }

  /** A provider name without `@`, and a base currency without `/` as pair parsing yields it. */
  predicate Plain(p: Price) {
    '@' !in p.provider && '/' !in p.pair.base
  }

  /** With plain names, the last sample of every provider for every pair is in a slot: the slots are exactly those. */
  lemma LastOfSourceHasSlot(history: seq<Price>, i: nat)
    requires i < |history| && LastOfSource(history, i) && forall j :: 0 <= j < |history| ==> Plain(history[j])
    ensures history[i].Key() in Latest(history) && Latest(history)[history[i].Key()] == history[i]
  {
    forall j | i < j < |history| ensures history[j].Key() != history[i].Key() {
      KeysSeparate(history[j], history[i]);
    }
    SlotHoldsLast(history, i);
  }

  /** How many characters follow the last `c`, and how many precede the first. */
  function AfterLast(s: string, c: char): nat {
    if s == [] || s[|s| - 1] == c then 0 else 1 + AfterLast(s[..|s| - 1], c)
  }

  function BeforeFirst(s: string, c: char): nat {
    if s == [] || s[0] == c then 0 else 1 + BeforeFirst(s[1..], c)
  }

  lemma {:induction false} SuffixFound(a: string, c: char, p: string)
    requires c !in p
    ensures AfterLast(a + [c] + p, c) == |p|
  {
    var s := a + [c] + p;
    if p == [] {
      assert s[|s| - 1] == c;
    } else {
      assert s[|s| - 1] == p[|p| - 1];
      assert s[..|s| - 1] == a + [c] + p[..|p| - 1];
      SuffixFound(a, c, p[..|p| - 1]);
    }
  }

  lemma {:induction false} PrefixFound(a: string, c: char, p: string)
    requires c !in a
    ensures BeforeFirst(a + [c] + p, c) == |a|
  {
    var s := a + [c] + p;
    if a == [] {
      assert s[0] == c;
    } else {
      assert s[0] == a[0];
      assert s[1..] == a[1..] + [c] + p;
      PrefixFound(a[1..], c, p);
    }
  }

  lemma SplitAt(a: string, c: char, p: string, b: string, q: string)
    requires a + [c] + p == b + [c] + q && |a| == |b|
    ensures a == b && p == q
  {
    var s := a + [c] + p;
    assert a == s[..|a|] == b;
    assert p == s[|a| + 1..] == q;
  }

  /** Names built from a slash-free base and keys built from an `@`-free provider do not collide. */
  lemma KeysSeparate(p: Price, q: Price)
    requires Plain(p) && Plain(q)
    ensures p.Key() == q.Key() <==> p.pair == q.pair && p.provider == q.provider
  {
    if p.Key() == q.Key() {
      SuffixFound(p.pair.Name(), '@', p.provider);
      SuffixFound(q.pair.Name(), '@', q.provider);
      SplitAt(p.pair.Name(), '@', p.provider, q.pair.Name(), q.provider);
      PrefixFound(p.pair.base, '/', p.pair.quote);
      PrefixFound(q.pair.base, '/', q.pair.quote);
      SplitAt(p.pair.base, '/', p.pair.quote, q.pair.base, q.pair.quote);
    }
  }

  /** An order in which a map's keys may be visited. */
  ghost predicate Enumerates(ks: seq<string>, keys: set<string>) {
    && (forall i, j :: 0 <= i < j < |ks| ==> ks[i] != ks[j])
    && (forall k :: k in ks <==> k in keys)
  }

  /** The slots' samples under `name`, in the order visited. */
  function SamplesOf(slots: map<string, Price>, ks: seq<string>, name: string): seq<Price>
    requires forall k :: k in ks ==> k in slots
  {
    if ks == [] then []
    else
      var k := ks[|ks| - 1];
      SamplesOf(slots, ks[..|ks| - 1], name) + if slots[k].pair.Name() == name then [slots[k]] else []
  }

  ghost function ValuesIn(slots: map<string, Price>, ks: seq<string>, name: string, cfg: Config,
        now: int): multiset<int>
    requires forall k :: k in ks ==> k in slots
  {
    multiset(Values(SamplesOf(slots, ks, name), cfg, now))
  }

  /** What one slot contributes under `name`. */
  function Contribution(p: Price, name: string, cfg: Config, now: int): multiset<int> {
    if p.pair.Name() == name && Eligible(p, cfg, now) then multiset{p.value.value} else multiset{}
  }

  lemma {:induction false} ContributionAt(slots: map<string, Price>, ks: seq<string>, i: nat, name: string,
        cfg: Config, now: int)
    requires i < |ks| && forall k :: k in ks ==> k in slots
    ensures ValuesIn(slots, ks, name, cfg, now)
         == ValuesIn(slots, ks[..i] + ks[i + 1..], name, cfg, now) + Contribution(slots[ks[i]], name, cfg, now)
    decreases |ks|
  {
    hide ValuesIn, Contribution;
    var n := |ks| - 1;
    LastContribution(slots, ks, name, cfg, now);
    if i == n {
      assert ks[..i] + ks[i + 1..] == ks[..n];
    } else {
      var rest := ks[..i] + ks[i + 1..];
      ContributionAt(slots, ks[..n], i, name, cfg, now);
      assert ks[..n][..i] + ks[..n][i + 1..] == rest[..n - 1];
      assert rest[n - 1] == ks[n];
      LastContribution(slots, rest, name, cfg, now);
    }
  }

  lemma LastContribution(slots: map<string, Price>, ks: seq<string>, name: string, cfg: Config, now: int)
    requires ks != [] && forall k :: k in ks ==> k in slots
    ensures ValuesIn(slots, ks, name, cfg, now)
         == ValuesIn(slots, ks[..|ks| - 1], name, cfg, now) + Contribution(slots[ks[|ks| - 1]], name, cfg, now)
  {
    var k, front := ks[|ks| - 1], SamplesOf(slots, ks[..|ks| - 1], name);
    if slots[k].pair.Name() == name {
      assert (front + [slots[k]])[..|front|] == front;
    } else {
      assert front + [] == front;
    }
  }

  /** The eligible values under a name do not depend on the order in which the slots are visited. */
  lemma {:induction false} OrderIrrelevant(slots: map<string, Price>, keys: set<string>, ks: seq<string>,
        ls: seq<string>, name: string, cfg: Config, now: int)
    requires Enumerates(ks, keys) && Enumerates(ls, keys) && keys <= slots.Keys
    ensures ValuesIn(slots, ks, name, cfg, now) == ValuesIn(slots, ls, name, cfg, now)
    decreases |ks|
  {
    EnumerationLength(ks, keys);
    EnumerationLength(ls, keys);
    if ks != [] {
      var n := |ks| - 1;
      assert ks[n] in ls;
      var j :| 0 <= j < |ls| && ls[j] == ks[n];
      var ks', ls' := ks[..n], ls[..j] + ls[j + 1..];
      EnumeratesWithout(ks, n, keys);
      EnumeratesWithout(ls, j, keys);
      assert ks[..n] + ks[n + 1..] == ks';
      OrderIrrelevant(slots, keys - {ks[n]}, ks', ls', name, cfg, now);
      ContributionAt(slots, ks, n, name, cfg, now);
      ContributionAt(slots, ls, j, name, cfg, now);
    }
  }

  lemma {:induction false} EnumerationLength(ks: seq<string>, keys: set<string>)
    requires Enumerates(ks, keys)
    ensures |ks| == |keys|
    decreases |ks|
  {
    if ks == [] {
      assert keys == {};
    } else {
      assert ks[0] in keys;
      EnumeratesWithout(ks, 0, keys);
      EnumerationLength(ks[..0] + ks[0 + 1..], keys - {ks[0]});
    }
  }

  lemma EnumeratesWithout(ks: seq<string>, i: nat, keys: set<string>)
    requires Enumerates(ks, keys) && i < |ks|
    ensures Enumerates(ks[..i] + ks[i + 1..], keys - {ks[i]})
  {
    var rest := ks[..i] + ks[i + 1..];
    forall k ensures k in rest <==> k in keys - {ks[i]} {
      if k in keys && k != ks[i] {
        var j :| 0 <= j < |ks| && ks[j] == k;
        assert rest[if j < i then j else j - 1] == k;
      }
    }
  }

  lemma OrderKeepsPublication(slots: map<string, Price>, ks: seq<string>, ls: seq<string>, name: string,
        cfg: Config, now: int, r: Option<int>)
    requires Enumerates(ks, slots.Keys) && Enumerates(ls, slots.Keys)
    ensures Publishes(SamplesOf(slots, ks, name), cfg, now, r) <==> Publishes(SamplesOf(slots, ls, name), cfg, now, r)
  {
    OrderIrrelevant(slots, slots.Keys, ks, ls, name, cfg, now);
    var s, t := Values(SamplesOf(slots, ks, name), cfg, now), Values(SamplesOf(slots, ls, name), cfg, now);
    assert |s| == |multiset(s)| == |multiset(t)| == |t|;
    if r.Some? { MedianPermutes(s, t, r.value); }
  }

  // ---------- the snapshot ----------

  /** The name samples of `name` are published under: their own if a provider declared it, the zero pair's if not. */
  function FiledUnder(pairs: set<string>, name: string): string {
    if name in pairs then name else ZERO_PAIR.Name()
  }

  /** `r` is the lower median of a group of slots filed under `name`, or absent because all such groups are silent. */
  ghost predicate Decided(slots: map<string, Price>, pairs: set<string>, cfg: Config, now: int,
        ks: seq<string>, name: string, r: Option<int>)
    requires forall k :: k in ks ==> k in slots
  {
    && (r.Some? ==> exists n :: FiledUnder(pairs, n) == name && Publishes(SamplesOf(slots, ks, n), cfg, now, r))
    && (r.None? ==> forall n :: FiledUnder(pairs, n) == name ==> Publishes(SamplesOf(slots, ks, n), cfg, now, r))
  }

  /** Every name is decided, whatever the order in which the slots are visited. */
  ghost predicate IsSnapshot(slots: map<string, Price>, pairs: set<string>, cfg: Config, now: int,
        snapshot: map<string, int>) {
    forall name, ks :: Enumerates(ks, slots.Keys) ==>
      Decided(slots, pairs, cfg, now, ks, name, Lookup(snapshot, name))
  }

  /** A decision under one visiting order is a decision under all of them. */
  lemma AnyOrderDecides(slots: map<string, Price>, pairs: set<string>, cfg: Config, now: int,
        snapshot: map<string, int>, ks: seq<string>)
    requires Enumerates(ks, slots.Keys)
    requires forall name :: Decided(slots, pairs, cfg, now, ks, name, Lookup(snapshot, name))
    ensures IsSnapshot(slots, pairs, cfg, now, snapshot)
  {
    forall name, ls | Enumerates(ls, slots.Keys)
      ensures Decided(slots, pairs, cfg, now, ls, name, Lookup(snapshot, name))
    {
      var r := Lookup(snapshot, name);
      assert Decided(slots, pairs, cfg, now, ks, name, r);
      forall n
        ensures Publishes(SamplesOf(slots, ks, n), cfg, now, r) <==> Publishes(SamplesOf(slots, ls, n), cfg, now, r)
      {
        OrderKeepsPublication(slots, ks, ls, n, cfg, now, r);
      }
      if r.Some? {
        var n :| FiledUnder(pairs, n) == name && Publishes(SamplesOf(slots, ks, n), cfg, now, r);
        assert Publishes(SamplesOf(slots, ls, n), cfg, now, r);
      }
    }
  }

  /** A declared pair publishes exactly the lower median of its own eligible samples; of other names only the zero pair's appears. */
  lemma DeclaredPairPublishes(slots: map<string, Price>, pairs: set<string>, cfg: Config, now: int,
        snapshot: map<string, int>, ks: seq<string>, name: string)
    requires IsSnapshot(slots, pairs, cfg, now, snapshot) && Enumerates(ks, slots.Keys) && name != ZERO_PAIR.Name()
    ensures name in pairs ==> Publishes(SamplesOf(slots, ks, name), cfg, now, Lookup(snapshot, name))
    ensures name !in pairs ==> name !in snapshot
  {
    assert Decided(slots, pairs, cfg, now, ks, name, Lookup(snapshot, name));
    assert name in pairs ==> FiledUnder(pairs, name) == name;
  }

  /** A published price stays in any band that holds more than half of the pair's eligible samples. */
  lemma MinorityCannotMovePrice(slots: map<string, Price>, pairs: set<string>, cfg: Config, now: int,
        snapshot: map<string, int>, ks: seq<string>, name: string, lo: int, hi: int)
    requires IsSnapshot(slots, pairs, cfg, now, snapshot) && Enumerates(ks, slots.Keys)
    requires name in snapshot && name != ZERO_PAIR.Name()
    requires var vs := Values(SamplesOf(slots, ks, name), cfg, now); 2 * Within(vs, lo, hi) > |vs|
    ensures lo <= snapshot[name] <= hi
  {
    DeclaredPairPublishes(slots, pairs, cfg, now, snapshot, ks, name);
    MajorityBoundsMedian(Values(SamplesOf(slots, ks, name), cfg, now), snapshot[name], lo, hi);
  }

  // ---------- the orchestrator ----------

  /** Groups the slots by pair name, whatever order they are visited in. */
  method Bucket(slots: map<string, Price>) returns (bucket: map<string, seq<Price>>, ghost ks: seq<string>)
    ensures Enumerates(ks, slots.Keys)
    ensures forall n :: n in bucket <==> SamplesOf(slots, ks, n) != []
    ensures forall n :: n in bucket ==> bucket[n] == SamplesOf(slots, ks, n)
  {
    bucket, ks := map[], [];
    var todo := slots.Keys;
    while todo != {}
      invariant todo <= slots.Keys
      invariant Enumerates(ks, slots.Keys - todo)
      invariant forall n :: n in bucket <==> SamplesOf(slots, ks, n) != []
      invariant forall n :: n in bucket ==> bucket[n] == SamplesOf(slots, ks, n)
      decreases todo
    {
      var k :| k in todo;
      var n := slots[k].pair.Name();
      bucket := bucket[n := (if n in bucket then bucket[n] else []) + [slots[k]]];
      EnumeratesOneMore(ks, k, slots.Keys - todo);
      assert (ks + [k])[..|ks|] == ks;
      ks := ks + [k];
      todo := todo - {k};
      assert slots.Keys - todo == slots.Keys - (todo + {k}) + {k};
    }
  }

  lemma EnumeratesOneMore(ks: seq<string>, k: string, keys: set<string>)
    requires Enumerates(ks, keys) && k !in keys
    ensures Enumerates(ks + [k], keys + {k})
  {
  }

  /** One input per bucket, under the declared pair of that name or else the zero pair. */
  method BuildInputs(pairIndex: map<string, Pair>, bucket: map<string, seq<Price>>)
    returns (inputs: seq<Input>, ghost names: seq<string>)
    requires forall n :: n in pairIndex ==> pairIndex[n].Name() == n
    ensures Enumerates(names, bucket.Keys) && |inputs| == |names|
    ensures forall i :: 0 <= i < |inputs| ==>
              inputs[i].pair.Name() == FiledUnder(pairIndex.Keys, names[i]) && inputs[i].samples == bucket[names[i]]
  {
    inputs, names := [], [];
    var todo := bucket.Keys;
    while todo != {}
      invariant todo <= bucket.Keys
      invariant Enumerates(names, bucket.Keys - todo) && |inputs| == |names|
      invariant forall i :: 0 <= i < |inputs| ==>
        && names[i] in bucket && inputs[i].samples == bucket[names[i]]
        && inputs[i].pair.Name() == FiledUnder(pairIndex.Keys, names[i])
      decreases todo
    {
      var k :| k in todo;
      EnumeratesOneMore(names, k, bucket.Keys - todo);
      inputs, names := inputs + [Input(if k in pairIndex then pairIndex[k] else ZERO_PAIR, bucket[k])], names + [k];
      todo := todo - {k};
      assert bucket.Keys - todo == bucket.Keys - (todo + {k}) + {k};
    }
  }

  /** Aggregating one input per bucket publishes the snapshot of the slots. */
  lemma BucketsPublish(slots: map<string, Price>, pairs: set<string>, bucket: map<string, seq<Price>>, ks: seq<string>,
        inputs: seq<Input>, names: seq<string>, cfg: Config, now: int, out: map<string, int>)
    requires Enumerates(ks, slots.Keys)
    requires forall n :: n in bucket <==> SamplesOf(slots, ks, n) != []
    requires forall n :: n in bucket ==> bucket[n] == SamplesOf(slots, ks, n)
    requires Enumerates(names, bucket.Keys) && |inputs| == |names|
    requires forall i :: 0 <= i < |inputs| ==>
               inputs[i].pair.Name() == FiledUnder(pairs, names[i]) && inputs[i].samples == bucket[names[i]]
    requires forall name :: AggregatesTo(inputs, cfg, now, name, Lookup(out, name))
    ensures IsSnapshot(slots, pairs, cfg, now, out)
  {
    forall name ensures Decided(slots, pairs, cfg, now, ks, name, Lookup(out, name)) {
      var r := Lookup(out, name);
      SomeInputDecides(inputs, cfg, now, name, r);
      if r.Some? {
        var i :| 0 <= i < |inputs| && inputs[i].pair.Name() == name && Publishes(inputs[i].samples, cfg, now, r);
        assert Publishes(SamplesOf(slots, ks, names[i]), cfg, now, r);
      } else {
        forall n | FiledUnder(pairs, n) == name ensures Publishes(SamplesOf(slots, ks, n), cfg, now, r) {
          if n in bucket { assert n in names; }
        }
      }
    }
    AnyOrderDecides(slots, pairs, cfg, now, out, ks);
  }

  class Orchestrator {
    const cfg: Config
    const pairIndex: map<string, Pair>
    var latest: map<string, Price>
    var snapshot: map<string, int>
    /** Every sample ingested so far, and how many of them the last tick saw, at what time. */
    ghost var history: seq<Price>
    ghost var seen: nat
    ghost var tickedAt: int

    /** In every interleaving: the slots are the last samples, and the snapshot is that of the last tick. */
    ghost predicate Valid()
      reads this
    {
      && (forall n :: n in pairIndex ==> pairIndex[n].Name() == n)
      && latest == Latest(history)
      && seen <= |history|
      && IsSnapshot(Latest(history[..seen]), pairIndex.Keys, cfg, tickedAt, snapshot)
    }

    constructor (cfg: Config, pairs: seq<Pair>)
      ensures Valid() && this.cfg == cfg && history == [] && snapshot == map[]
      ensures forall n :: n in pairIndex <==> exists p :: p in pairs && p.Name() == n
    {
      var index: map<string, Pair> := map[];
      for i := 0 to |pairs|
        invariant forall n :: n in index ==> index[n].Name() == n
        invariant forall j :: 0 <= j < i ==> pairs[j].Name() in index
        invariant forall n :: n in index ==> exists p :: p in pairs && p.Name() == n
      {
        index := index[pairs[i].Name() := pairs[i]];
      }
      this.cfg := cfg;
      pairIndex := index;
      latest, snapshot := map[], map[];
      history, seen, tickedAt := [], 0, 0;
    }

    /** Stores each sample in its slot. */
    method Ingest(batch: seq<Price>)
      requires Valid()
      modifies this
      ensures Valid()
      ensures history == old(history) + batch
      ensures snapshot == old(snapshot) && seen == old(seen) && tickedAt == old(tickedAt)
    {
      for i := 0 to |batch|
        invariant history == old(history) + batch[..i]
        invariant latest == Latest(history)
        invariant snapshot == old(snapshot) && seen == old(seen) && tickedAt == old(tickedAt)
      {
        var sample := batch[i];
        latest := latest[sample.Key() := sample];
        assert (history + [sample])[..|history|] == history;
        history := history + [sample];
      }
      assert batch[..|batch|] == batch;
      assert history[..seen] == old(history)[..seen];
    }

    /** One aggregation tick at time `now`. */
    method RecomputeSnapshot(now: int)
      requires Valid()
      modifies this
      ensures Valid()
      ensures history == old(history) && latest == old(latest)
      ensures seen == |history| && tickedAt == now
    {
      var bucket, ks := Bucket(latest);
      var inputs, names := BuildInputs(pairIndex, bucket);
      var out := Aggregate(inputs, cfg, now);
      BucketsPublish(latest, pairIndex.Keys, bucket, ks, inputs, names, cfg, now, out);
      snapshot := out;
      seen, tickedAt := |history|, now;
      assert history[..seen] == history;
    }
  }

  // ---------- the snapshot and the history ----------

  /** Some later sample comes from the same provider for the same pair. */
  predicate Superseded(p: Price, later: seq<Price>) {
    exists j :: 0 <= j < |later| && later[j].pair == p.pair && later[j].provider == p.provider
  }

  /** The last sample of every provider for every pair, in the order they came. */
  function LastOnes(history: seq<Price>): seq<Price> {
    if history == [] then []
    else (if Superseded(history[0], history[1..]) then [] else [history[0]]) + LastOnes(history[1..])
  }

  /** The last samples for the pairs called `name`. */
  function LastFor(history: seq<Price>, name: string): seq<Price> {
    Named(LastOnes(history), name)
  }

  function Named(samples: seq<Price>, name: string): seq<Price> {
    if samples == [] then []
    else
      var p := samples[|samples| - 1];
      Named(samples[..|samples| - 1], name) + if p.pair.Name() == name then [p] else []
  }

  function KeysOf(samples: seq<Price>): seq<string> {
    seq(|samples|, i requires 0 <= i < |samples| => samples[i].Key())
  }

  ghost predicate AllPlain(history: seq<Price>) {
    forall i :: 0 <= i < |history| ==> Plain(history[i])
  }

  /** What is listed is the last of its source and stands in the history. */
  lemma {:induction false} ListedIsLast(history: seq<Price>, p: Price)
    requires p in LastOnes(history)
    ensures exists i :: 0 <= i < |history| && history[i] == p && LastOfSource(history, i)
  {
    var rest := history[1..];
    if p in LastOnes(rest) {
      ListedIsLast(rest, p);
      var i :| 0 <= i < |rest| && rest[i] == p && LastOfSource(rest, i);
      assert history[i + 1] == p;
      assert LastOfSource(history, i + 1) by {
        forall j | i + 1 < j < |history|
          ensures history[j].pair != p.pair || history[j].provider != p.provider
        {
          assert history[j] == rest[j - 1];
        }
      }
    } else {
      assert history[0] == p && !Superseded(p, rest);
      assert LastOfSource(history, 0) by {
        forall j | 0 < j < |history| ensures history[j].pair != p.pair || history[j].provider != p.provider {
          assert history[j] == rest[j - 1];
        }
      }
    }
  }

  lemma {:induction false} LastIsListed(history: seq<Price>, i: nat)
    requires i < |history| && LastOfSource(history, i)
    ensures history[i] in LastOnes(history)
  {
    var rest := history[1..];
    if i == 0 {
      assert forall j :: 0 <= j < |rest| ==> rest[j] == history[j + 1];
    } else {
      assert forall j :: 0 <= j < |rest| ==> rest[j] == history[j + 1];
      LastIsListed(rest, i - 1);
    }
  }

  /** No source is listed twice. */
  lemma {:induction false} ListedOnce(history: seq<Price>, i: nat, j: nat)
    requires i < j < |LastOnes(history)|
    ensures var a, b := LastOnes(history)[i], LastOnes(history)[j]; a.pair != b.pair || a.provider != b.provider
    decreases |history|
  {
    var rest := history[1..];
    var l := LastOnes(rest);
    if Superseded(history[0], rest) {
      ListedOnce(rest, i, j);
    } else if i > 0 {
      ListedOnce(rest, i - 1, j - 1);
    } else {
      assert l[j - 1] in l;
      ListedIsLast(rest, l[j - 1]);
      var k :| 0 <= k < |rest| && rest[k] == l[j - 1] && LastOfSource(rest, k);
    }
  }

  /** For plain names the slots' keys are exactly those of the last samples, and the slots hold those samples. */
  lemma SlotsAreLastOnes(history: seq<Price>)
    requires AllPlain(history)
    ensures var slots, last := Latest(history), LastOnes(history);
            && Enumerates(KeysOf(last), slots.Keys)
            && forall i :: 0 <= i < |last| ==> last[i].Key() in slots && slots[last[i].Key()] == last[i]
  {
    var slots, last := Latest(history), LastOnes(history);
    forall i | 0 <= i < |last| ensures last[i].Key() in slots && slots[last[i].Key()] == last[i] && Plain(last[i]) {
      assert last[i] in last;
      ListedIsLast(history, last[i]);
      var k :| 0 <= k < |history| && history[k] == last[i] && LastOfSource(history, k);
      LastOfSourceHasSlot(history, k);
    }
    var ks := KeysOf(last);
    forall i, j | 0 <= i < j < |ks| ensures ks[i] != ks[j] {
      ListedOnce(history, i, j);
      KeysSeparate(last[i], last[j]);
    }
    forall k | k in slots ensures k in ks {
      SlotIsLastOfSource(history, k);
      SlotWasIngested(history, k);
      var i :| 0 <= i < |history| && slots[k] == history[i] && LastOfSource(history, i);
      LastIsListed(history, i);
      var j :| 0 <= j < |last| && last[j] == history[i];
      assert ks[j] == k;
    }
  }

  lemma {:induction false} SamplesAreNamed(slots: map<string, Price>, last: seq<Price>, name: string)
    requires forall i :: 0 <= i < |last| ==> last[i].Key() in slots && slots[last[i].Key()] == last[i]
    requires forall k :: k in KeysOf(last) ==> k in slots
    ensures SamplesOf(slots, KeysOf(last), name) == Named(last, name)
    decreases |last|
  {
    if last != [] {
      var n := |last| - 1;
      assert KeysOf(last)[..n] == KeysOf(last[..n]);
      forall k | k in KeysOf(last[..n]) ensures k in slots {
        assert k in KeysOf(last)[..n];
      }
      SamplesAreNamed(slots, last[..n], name);
    }
  }

  /**
   * At every point of every interleaving of ingestion and ticks: for plain names
   * a declared pair's price is the lower median of the fresh and positive ones
   * among the last samples each provider had sent for it when the last tick ran,
   * and absent exactly when there were too few of them.
   */
  lemma PriceIsMedianOfLastSamples(o: Orchestrator, name: string)
    requires o.Valid() && AllPlain(o.history[..o.seen]) && name in o.pairIndex && name != ZERO_PAIR.Name()
    ensures Publishes(LastFor(o.history[..o.seen], name), o.cfg, o.tickedAt, Lookup(o.snapshot, name))
  {
    hide Publishes, LastOnes, Latest, IsSnapshot;
    var history := o.history[..o.seen];
    var slots, last := Latest(history), LastOnes(history);
    SlotsAreLastOnes(history);
    SamplesAreNamed(slots, last, name);
    DeclaredPairPublishes(slots, o.pairIndex.Keys, o.cfg, o.tickedAt, o.snapshot, KeysOf(last), name);
  }

  /**
   * At every such point a published price lies in any band that holds more than
   * half of the fresh and positive last samples, one for each provider: a
   * minority of providers cannot move it out, whatever they sent before.
   */
  lemma MinorityOfProvidersCannotMovePrice(o: Orchestrator, name: string, lo: int, hi: int)
    requires o.Valid() && AllPlain(o.history[..o.seen]) && name in o.pairIndex && name != ZERO_PAIR.Name()
    requires name in o.snapshot
    requires var vs := Values(LastFor(o.history[..o.seen], name), o.cfg, o.tickedAt); 2 * Within(vs, lo, hi) > |vs|
    ensures lo <= o.snapshot[name] <= hi
  {
    hide LastFor;
    PriceIsMedianOfLastSamples(o, name);
    MajorityBoundsMedian(Values(LastFor(o.history[..o.seen], name), o.cfg, o.tickedAt), o.snapshot[name], lo, hi);
  }

  /**
   * At every such point a price is published exactly when enough providers' last
   * samples are positive and fresh, and it is then the price of one of them.
   */
  lemma PriceIsSomeProviders(o: Orchestrator, name: string)
    requires o.Valid() && AllPlain(o.history[..o.seen]) && name in o.pairIndex && name != ZERO_PAIR.Name()
    ensures var samples := LastFor(o.history[..o.seen], name);
            var usable := Usable(samples, o.cfg, o.tickedAt);
            && (name in o.snapshot <==> 1 <= |usable| && o.cfg.minSources <= |usable|)
            && (name in o.snapshot ==>
                  0 < o.snapshot[name] && exists i :: i in usable && samples[i].value.value == o.snapshot[name])
  {
    hide LastFor, Publishes, Usable;
    PriceIsMedianOfLastSamples(o, name);
    PublishesIff(LastFor(o.history[..o.seen], name), o.cfg, o.tickedAt, Lookup(o.snapshot, name));
  }
}

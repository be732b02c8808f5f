/** In-flight prefill accounting: leases, warm-prefix hints, and load-aware selection. */
module PrefillLoad {
  import opened Options
  import opened Identifiers

  type Caller = string
  type Fingerprint = string
  type Anchor = (nat, string)

  const MAX_HINTS: nat := 50_000

  datatype Knobs = Knobs(
    aware: bool,
    elephantTokens: int,
    elephantLimit: int,
    interveneTokens: int,
    affinityCeiling: int,
    hintTtl: real)
  {
    predicate IsElephant(tokens: int) { tokens >= (if elephantTokens < 1 then 1 else elephantTokens) }
    function Limit(): int { if elephantLimit < 1 then 1 else elephantLimit }
  }

  /** Both thresholds are at least one, whatever is configured, and otherwise as configured. */
  lemma ThresholdsArePositive(k: Knobs, tokens: int)
    ensures k.IsElephant(tokens) <==> tokens >= 1 && tokens >= k.elephantTokens
    ensures k.Limit() >= 1 && k.Limit() >= k.elephantLimit && (k.Limit() == 1 || k.Limit() == k.elephantLimit)
  {
  }

  datatype Hint = Hint(tokens: nat, expiresAt: real, fingerprint: Option<Fingerprint>, anchor: Option<Anchor>)

  datatype HintEntry = HintEntry(caller: Caller, endpoint: EndpointId, hint: Hint)

  /** What a request charged to an endpoint. */
  datatype Lease = Lease(
    endpoint: EndpointId,
    tokens: nat,
    elephant: bool,
    caller: Option<Caller>,
    promptTokens: nat,
    fingerprint: Option<Fingerprint>)

  /** `hints` is ordered oldest first; `hintCallers` indexes the same keys by endpoint. */
  datatype Tracker = Tracker(
    backlog: map<EndpointId, int>,
    elephants: map<EndpointId, int>,
    byCaller: map<(EndpointId, Caller), int>,
    hints: seq<HintEntry>,
    hintCallers: map<EndpointId, set<Caller>>)

  const EMPTY := Tracker(map[], map[], map[], [], map[])

  function Get<K(==)>(m: map<K, int>, k: K): int {
    if k in m then m[k] else 0
  }

  /** Subtract `amount` at `k`, dropping an entry that would not stay positive. */
  function Settle<K(==)>(m: map<K, int>, k: K, amount: int): map<K, int> {
    var left := Get(m, k) - amount;
    if left > 0 then m[k := left] else m - {k}
  }

  // ----- hints

  function FindHint(hints: seq<HintEntry>, c: Caller, e: EndpointId): Option<Hint> {
    if hints == [] then None
    else if hints[0].caller == c && hints[0].endpoint == e then Some(hints[0].hint)
    else FindHint(hints[1..], c, e)
  }

  /** The hints left once those of `callers` on endpoint `e` are gone. */
  function Without(hints: seq<HintEntry>, callers: set<Caller>, e: EndpointId): seq<HintEntry> {
    if hints == [] then []
    else
      (if hints[0].endpoint == e && hints[0].caller in callers then [] else [hints[0]])
      + Without(hints[1..], callers, e)
  }

  function CallersOn(index: map<EndpointId, set<Caller>>, e: EndpointId): set<Caller> {
    if e in index then index[e] else {}
  }

  function Unindex(index: map<EndpointId, set<Caller>>, c: Caller, e: EndpointId): map<EndpointId, set<Caller>> {
    if e !in index then index
    else if index[e] - {c} == {} then index - {e}
    else index[e := index[e] - {c}]
  }

  /** Drop the oldest hints until the bound holds. */
  function Evict(hints: seq<HintEntry>, index: map<EndpointId, set<Caller>>)
    : (seq<HintEntry>, map<EndpointId, set<Caller>>)
  {
    if |hints| <= MAX_HINTS then (hints, index)
    else Evict(hints[1..], Unindex(index, hints[0].caller, hints[0].endpoint))
  }

  function Remember(t: Tracker, c: Caller, e: EndpointId, hint: Hint): Tracker {
    var (hints, index) := Evict(
      Without(t.hints, {c}, e) + [HintEntry(c, e, hint)],
      t.hintCallers[e := CallersOn(t.hintCallers, e) + {c}]);
    t.(hints := hints, hintCallers := index)
  }

  function Forget(t: Tracker, e: EndpointId): Tracker {
    t.(hints := Without(t.hints, CallersOn(t.hintCallers, e), e), hintCallers := t.hintCallers - {e})
  }

  /** What the endpoint must actually prefill. A given fingerprint must match the remembered one. */
  function Uncached(t: Tracker, e: EndpointId, tokens: int, caller: Option<Caller>, fingerprint: Option<Fingerprint>,
                    now: real): nat
  {
    var total := if tokens < 0 then 0 else tokens;
    if caller.None? then total
    else
      var hint := FindHint(t.hints, caller.value, e);
      if hint.None? || hint.value.expiresAt <= now then total
      else if fingerprint.Some? && fingerprint != hint.value.fingerprint then total
      else if total < hint.value.tokens then 0 else total - hint.value.tokens
  }

  lemma NegativeIsNone(t: Tracker, e: EndpointId, tokens: int, caller: Option<Caller>,
                       fingerprint: Option<Fingerprint>, now: real)
    ensures Uncached(t, e, if tokens < 0 then 0 else tokens, caller, fingerprint, now)
         == Uncached(t, e, tokens, caller, fingerprint, now)
  {
  }

  // ----- leases

  function LeaseFor(k: Knobs, t: Tracker, e: EndpointId, tokens: int, caller: Option<Caller>,
                    fingerprint: Option<Fingerprint>, now: real): Lease
  {
    Lease(
      e,
      Uncached(t, e, tokens, caller, None, now),
      k.IsElephant(Uncached(t, e, tokens, caller, fingerprint, now)),
      caller,
      if tokens < 0 then 0 else tokens,
      fingerprint)
  }

  function Charge(t: Tracker, lease: Lease): Tracker {
    var e := lease.endpoint;
    t.(
      backlog := t.backlog[e := Get(t.backlog, e) + lease.tokens],
      elephants := if lease.elephant then t.elephants[e := Get(t.elephants, e) + 1] else t.elephants,
      byCaller := if lease.caller.None? then t.byCaller
                  else t.byCaller[(e, lease.caller.value) := Get(t.byCaller, (e, lease.caller.value)) + lease.tokens])
  }

  /** Give a lease back; a confirmed prefill also records the warm prefix. */
  function Discharge(k: Knobs, t: Tracker, lease: Lease, anchor: Option<Anchor>, confirmed: bool, now: real): Tracker {
    var e := lease.endpoint;
    var remembered :=
      if confirmed && lease.caller.Some?
      then Remember(t, lease.caller.value, e, Hint(lease.promptTokens, now + k.hintTtl, lease.fingerprint, anchor))
      else t;
    remembered.(
      backlog := Settle(t.backlog, e, lease.tokens),
      elephants := if lease.elephant then Settle(t.elephants, e, 1) else t.elephants,
      byCaller := if lease.caller.None? then t.byCaller else Settle(t.byCaller, (e, lease.caller.value), lease.tokens))
  }

  /** Whether a pinned endpoint is idle enough, the caller's own load aside. */
  predicate KeepsAffinity(k: Knobs, t: Tracker, e: EndpointId, caller: Option<Caller>) {
    var own := if caller.Some? then Get(t.byCaller, (e, caller.value)) else 0;
    !k.aware || Get(t.backlog, e) - own <= k.affinityCeiling
  }

  // ----- selection

  function Max0(x: real): real { if x < 0.0 then 0.0 else x }

  ghost predicate Indexes(eligible: seq<nat>, n: nat) {
    forall j :: 0 <= j < |eligible| ==> eligible[j] < n
  }

  /** The weight of the first `n` eligible candidates. */
  ghost function Cumulative(eligible: seq<nat>, weights: seq<real>, n: nat): real
    requires Indexes(eligible, |weights|) && n <= |eligible|
  {
    if n == 0 then 0.0 else Cumulative(eligible, weights, n - 1) + Max0(weights[eligible[n - 1]])
  }

  ghost function TotalWeight(eligible: seq<nat>, weights: seq<real>): real
    requires Indexes(eligible, |weights|)
  {
    Cumulative(eligible, weights, |eligible|)
  }

  /** `threshold` falls in bucket `p`: the first whose cumulative weight reaches it. */
  ghost predicate Draws(eligible: seq<nat>, weights: seq<real>, threshold: real, p: nat)
    requires Indexes(eligible, |weights|)
  {
    && p < |eligible|
    && threshold <= Cumulative(eligible, weights, p + 1)
    && forall q: nat :: 1 <= q <= p ==> Cumulative(eligible, weights, q) < threshold
  }

  /** What one weighted draw returns: the bucket's candidate, or the last one when nothing has weight. */
  ghost predicate Drawn(eligible: seq<nat>, weights: seq<real>, r: real, index: nat)
    requires eligible != [] && Indexes(eligible, |weights|)
  {
    && index in eligible
    && var total := TotalWeight(eligible, weights);
       if total <= 0.0 then index == eligible[|eligible| - 1]
       else exists p: nat :: Draws(eligible, weights, r * total, p) && index == eligible[p]
  }

  method SumWeights(eligible: seq<nat>, weights: seq<real>) returns (total: real)
    requires Indexes(eligible, |weights|)
    ensures total == TotalWeight(eligible, weights)
  {
    total := 0.0;
    for i := 0 to |eligible|
      invariant total == Cumulative(eligible, weights, i)
    {
      total := total + Max0(weights[eligible[i]]);
    }
  }

  method Locate(eligible: seq<nat>, weights: seq<real>, threshold: real) returns (p: nat)
    requires eligible != [] && Indexes(eligible, |weights|) && threshold <= TotalWeight(eligible, weights)
    ensures Draws(eligible, weights, threshold, p)
  {
    var cumulative := 0.0;
    p := 0;
    while true
      invariant 0 <= p < |eligible| && cumulative == Cumulative(eligible, weights, p)
      invariant forall q: nat :: 1 <= q <= p ==> Cumulative(eligible, weights, q) < threshold
      decreases |eligible| - p
    {
      cumulative := cumulative + Max0(weights[eligible[p]]);
      if threshold <= cumulative {
        return;
      }
      p := p + 1;
    }
  }

  /** Draw one index from `eligible` in proportion to its weight. */
  method WeightedPick(eligible: seq<nat>, weights: seq<real>, r: real) returns (index: nat)
    requires eligible != [] && 0.0 <= r < 1.0 && Indexes(eligible, |weights|)
    ensures Drawn(eligible, weights, r, index)
  {
    var total := SumWeights(eligible, weights);
    if total <= 0.0 { return eligible[|eligible| - 1]; }
    var threshold := r * total;
    BelowTotal(r, total, threshold);
    var p := Locate(eligible, weights, threshold);
    index := eligible[p];
  }

  /** A draw above zero, when anything has weight, picks a candidate with positive weight, and each candidate's share of
      the draws is its own weight: the drawn one's bucket is that wide and holds the draw. */
  lemma DrawnByWeight(eligible: seq<nat>, weights: seq<real>, r: real, index: nat) returns (p: nat)
    requires eligible != [] && Indexes(eligible, |weights|) && 0.0 <= r < 1.0
    requires Drawn(eligible, weights, r, index) && 0.0 < TotalWeight(eligible, weights)
    requires 0.0 < r * TotalWeight(eligible, weights)
    ensures p < |eligible| && eligible[p] == index && 0.0 < weights[index]
    ensures var low := Cumulative(eligible, weights, p);
            low < r * TotalWeight(eligible, weights) <= low + weights[index]
  {
    var threshold := r * TotalWeight(eligible, weights);
    p :| Draws(eligible, weights, threshold, p) && index == eligible[p];
    BucketIsWeight(eligible, weights, threshold, p);
  }

  lemma BucketIsWeight(eligible: seq<nat>, weights: seq<real>, threshold: real, p: nat)
    requires Indexes(eligible, |weights|) && 0.0 < threshold && Draws(eligible, weights, threshold, p)
    ensures 0.0 < weights[eligible[p]]
    ensures var low := Cumulative(eligible, weights, p); low < threshold <= low + weights[eligible[p]]
  {
    if p > 0 {
      assert Cumulative(eligible, weights, p) < threshold;
    }
  }

  lemma BelowTotal(r: real, total: real, threshold: real)
    requires 0.0 <= r < 1.0 && 0.0 < total && threshold == r * total
    ensures threshold <= total
  {
    assert (1.0 - r) * total >= 0.0;
  }

  /** The candidates at positions of `among` that satisfy `keep`, in order. */
  function Filter(among: seq<nat>, keep: nat -> bool): (r: seq<nat>)
    ensures forall i :: i in r <==> i in among && keep(i)
  {
    if among == [] then [] else (if keep(among[0]) then [among[0]] else []) + Filter(among[1..], keep)
  }

  /** In candidate order, each once. */
  ghost predicate Ascending(s: seq<nat>) {
    forall i, j :: 0 <= i < j < |s| ==> s[i] < s[j]
  }

  lemma {:induction false} FilterAscends(among: seq<nat>, keep: nat -> bool)
    requires Ascending(among)
    ensures Ascending(Filter(among, keep))
  {
    if among != [] {
      var first, rest := among[0], Filter(among[1..], keep);
      FilterAscends(among[1..], keep);
      forall j | 0 <= j < |rest| ensures first < rest[j] {
        assert rest[j] in among[1..];
        var k :| 0 <= k < |among[1..]| && among[1..][k] == rest[j];
        assert among[k + 1] == rest[j];
      }
    }
  }

  function AllOf(n: nat): (r: seq<nat>)
    ensures |r| == n && forall i :: 0 <= i < n ==> r[i] == i
  {
    seq(n, i requires 0 <= i < n => i)
  }

  /** Candidates left after the endpoint to avoid is dropped, when anything else remains. */
  function AfterAvoid(keys: seq<EndpointId>, avoid: Option<EndpointId>): (r: seq<nat>)
    ensures forall i :: i in r ==> i < |keys|
    ensures keys != [] ==> r != []
  {
    var all := AllOf(|keys|);
    var rest := Filter(all, (i: nat) => i < |keys| && Some(keys[i]) != avoid);
    assert keys != [] ==> all[0] == 0;
    if avoid.Some? && rest != [] then rest else all
  }

  /** Candidate `i` is not the endpoint to avoid, unless every candidate is. */
  ghost predicate Kept(keys: seq<EndpointId>, avoid: Option<EndpointId>, i: nat) {
    && i < |keys|
    && (avoid.None? || keys[i] != avoid.value || forall k :: 0 <= k < |keys| ==> keys[k] == avoid.value)
  }

  lemma AfterAvoidKeeps(keys: seq<EndpointId>, avoid: Option<EndpointId>)
    ensures Ascending(AfterAvoid(keys, avoid))
    ensures forall i: nat :: i in AfterAvoid(keys, avoid) <==> Kept(keys, avoid, i)
  {
    hide Kept;
    var all, keep := AllOf(|keys|), (i: nat) => i < |keys| && Some(keys[i]) != avoid;
    var rest := Filter(all, keep);
    FilterAscends(all, keep);
    forall i: nat ensures i in AfterAvoid(keys, avoid) <==> Kept(keys, avoid, i) {
      AllHolds(|keys|, i);
      if avoid.Some? && rest != [] {
        assert rest[0] in rest;
        KeptWithOther(keys, avoid.value, rest[0], i);
      } else {
        forall k: nat | k < |keys| ensures avoid.Some? ==> keys[k] == avoid.value {
          AllHolds(|keys|, k);
          assert avoid.Some? ==> k !in rest && !keep(k);
        }
        KeptWithoutOther(keys, avoid, i);
      }
    }
  }

  lemma AllHolds(n: nat, i: nat)
    ensures i in AllOf(n) <==> i < n
  {
    assert i < n ==> AllOf(n)[i] == i;
  }

  lemma KeptWithOther(keys: seq<EndpointId>, avoid: EndpointId, other: nat, i: nat)
    requires other < |keys| && keys[other] != avoid
    ensures Kept(keys, Some(avoid), i) <==> i < |keys| && keys[i] != avoid
  {
  }

  lemma KeptWithoutOther(keys: seq<EndpointId>, avoid: Option<EndpointId>, i: nat)
    requires avoid.Some? ==> forall k :: 0 <= k < |keys| ==> keys[k] == avoid.value
    ensures Kept(keys, avoid, i) <==> i < |keys|
  {
  }

  /** This prompt would add an elephant to an endpoint already at its limit. */
  predicate Saturated(k: Knobs, t: Tracker, e: EndpointId, tokens: int, caller: Option<Caller>,
                      fingerprint: Option<Fingerprint>, now: real)
  {
    && k.IsElephant(Uncached(t, e, tokens, caller, fingerprint, now))
    && Get(t.elephants, e) >= k.Limit()
  }

  /** Candidates the draws are taken from. */
  function Eligible(k: Knobs, t: Tracker, keys: seq<EndpointId>, tokens: int, caller: Option<Caller>,
                    avoid: Option<EndpointId>, fingerprint: Option<Fingerprint>, now: real): (r: seq<nat>)
    ensures Indexes(r, |keys|) && (keys != [] ==> r != [])
  {
    var kept := AfterAvoid(keys, avoid);
    assert forall j :: 0 <= j < |kept| ==> kept[j] in kept;
    if !k.aware then kept
    else
      var open := Filter(kept, (i: nat) => i < |keys| && !Saturated(k, t, keys[i], tokens, caller, fingerprint, now));
      var r := if open == [] then kept else open;
      assert forall j :: 0 <= j < |r| ==> r[j] in r;
      r
  }

  /** The candidates other than the endpoint to avoid (or all, when all are that), without the saturated ones unless
      all of them are: each once, in order. */
  lemma EligibleIs(k: Knobs, t: Tracker, keys: seq<EndpointId>, tokens: int, caller: Option<Caller>,
                   avoid: Option<EndpointId>, fingerprint: Option<Fingerprint>, now: real)
    ensures Ascending(Eligible(k, t, keys, tokens, caller, avoid, fingerprint, now))
    ensures forall i: nat :: i in Eligible(k, t, keys, tokens, caller, avoid, fingerprint, now) <==>
              && Kept(keys, avoid, i)
              && (|| !k.aware || !Saturated(k, t, keys[i], tokens, caller, fingerprint, now)
                  || forall j: nat :: Kept(keys, avoid, j) ==>
                       Saturated(k, t, keys[j], tokens, caller, fingerprint, now))
  {
    hide Saturated, AfterAvoid, Kept, Ascending;
    var kept := AfterAvoid(keys, avoid);
    AfterAvoidKeeps(keys, avoid);
    var keep := (i: nat) => i < |keys| && !Saturated(k, t, keys[i], tokens, caller, fingerprint, now);
    var open := Filter(kept, keep);
    FilterAscends(kept, keep);
    if open == [] {
      forall j: nat | j in kept ensures Saturated(k, t, keys[j], tokens, caller, fingerprint, now) {
        assert j !in open && !keep(j);
      }
    } else {
      assert open[0] in open && keep(open[0]);
    }
  }

  /** Between two draws, the first unless either endpoint is buried and the second is lighter. */
  function Prefer(k: Knobs, t: Tracker, keys: seq<EndpointId>, first: nat, second: nat): nat
    requires first < |keys| && second < |keys|
  {
    var x, y := Get(t.backlog, keys[first]), Get(t.backlog, keys[second]);
    if k.aware && (x >= k.interveneTokens || y >= k.interveneTokens) && y < x then second else first
  }

  /** Once either draw carries enough to matter, the lighter of the two is chosen, the first among equals. */
  lemma PreferIsLighter(k: Knobs, t: Tracker, keys: seq<EndpointId>, first: nat, second: nat)
    requires first < |keys| && second < |keys|
    ensures var x, y, chosen := Get(t.backlog, keys[first]), Get(t.backlog, keys[second]),
            Prefer(k, t, keys, first, second);
            && (chosen == first || chosen == second)
            && (k.aware && (x >= k.interveneTokens || y >= k.interveneTokens) ==>
                  Get(t.backlog, keys[chosen]) == (if x <= y then x else y) && (x <= y ==> chosen == first))
            && (!k.aware || (x < k.interveneTokens && y < k.interveneTokens) ==> chosen == first)
  {
  }

  /** `index` is what two draws from `eligible` and the load tie-break give. */
  ghost predicate Chosen(k: Knobs, t: Tracker, keys: seq<EndpointId>, weights: seq<real>, eligible: seq<nat>, r1: real,
                         r2: real, index: nat)
    requires eligible != [] && |weights| == |keys| && Indexes(eligible, |keys|)
  {
    exists first, second ::
      && Drawn(eligible, weights, r1, first) && Drawn(eligible, weights, r2, second)
      && index == Prefer(k, t, keys, first, second)
  }

  // ----- the objects

  /** A claim on one endpoint's prefill budget; `released` makes giving it back idempotent. */
  class PrefillLease {
    const lease: Lease
    var released: bool
    var anchor: Option<Anchor>

    constructor (lease: Lease, anchor: Option<Anchor>)
      ensures this.lease == lease && this.anchor == anchor && !released
    {
      this.lease, this.anchor, released := lease, anchor, false;
    }
  }

  class PrefillLoadTracker {
    const knobs: Knobs
    var backlog: map<EndpointId, int>
    var elephants: map<EndpointId, int>
    var byCaller: map<(EndpointId, Caller), int>
    var hints: seq<HintEntry>
    var hintCallers: map<EndpointId, set<Caller>>

    function View(): Tracker
      reads this
    {
      Tracker(backlog, elephants, byCaller, hints, hintCallers)
    }

    constructor (knobs: Knobs)
      ensures View() == EMPTY && this.knobs == knobs
    {
      this.knobs := knobs;
      backlog, elephants, byCaller, hints, hintCallers := map[], map[], map[], [], map[];
    }

    method Acquire(e: EndpointId, tokens: int, caller: Option<Caller>, fingerprint: Option<Fingerprint>,
                   anchor: Option<Anchor>, now: real)
      returns (lease: PrefillLease)
      modifies this
      ensures fresh(lease) && !lease.released && lease.anchor == anchor
      ensures lease.lease == LeaseFor(knobs, old(View()), e, tokens, caller, fingerprint, now)
      ensures View() == Charge(old(View()), lease.lease)
    {
      hide Uncached;
      var total := if tokens < 0 then 0 else tokens;
      NegativeIsNone(View(), e, tokens, caller, None, now);
      NegativeIsNone(View(), e, tokens, caller, fingerprint, now);
      var charged := Uncached(View(), e, total, caller, None, now);
      var gated := Uncached(View(), e, total, caller, fingerprint, now);
      var elephant := knobs.IsElephant(gated);
      backlog := backlog[e := Get(backlog, e) + charged];
      if elephant {
        elephants := elephants[e := Get(elephants, e) + 1];
      }
      if caller.Some? {
        var key := (e, caller.value);
        byCaller := byCaller[key := Get(byCaller, key) + charged];
      }
      lease := new PrefillLease(Lease(e, charged, elephant, caller, total, fingerprint), anchor);
    }

    method RememberPrompt(c: Caller, e: EndpointId, hint: Hint)
      modifies this`hints, this`hintCallers
      ensures View() == Remember(old(View()), c, e, hint)
    {
      hints := Without(hints, {c}, e) + [HintEntry(c, e, hint)];
      hintCallers := hintCallers[e := CallersOn(hintCallers, e) + {c}];
      ghost var start := (hints, hintCallers);
      while |hints| > MAX_HINTS
        invariant Evict(hints, hintCallers) == Evict(start.0, start.1)
        decreases |hints|
      {
        var oldest := hints[0];
        hints := hints[1..];
        if oldest.endpoint in hintCallers {
          var callers := hintCallers[oldest.endpoint] - {oldest.caller};
          hintCallers := if callers == {} then hintCallers - {oldest.endpoint}
              else hintCallers[oldest.endpoint := callers];
        }
      }
    }

    method ForgetEndpoint(e: EndpointId)
      modifies this`hints, this`hintCallers
      ensures View() == Forget(old(View()), e)
    {
      var pending := CallersOn(hintCallers, e);
      ghost var all, gone: set<Caller> := pending, {};
      hintCallers := hintCallers - {e};
      WithoutNobody(hints, e);
      while pending != {}
        invariant gone + pending == all && hints == Without(old(hints), gone, e)
        invariant hintCallers == old(hintCallers) - {e}
        decreases pending
      {
        var c :| c in pending;
        WithoutAgain(old(hints), gone, {c}, e);
        pending, gone := pending - {c}, gone + {c};
        hints := Without(hints, {c}, e);
      }
      assert gone == all;
    }

    method Release(lease: PrefillLease?, confirmed: bool, now: real)
      modifies this, lease
      ensures lease == null || old(lease.released) ==> View() == old(View())
      ensures lease != null && !old(lease.released) ==>
                View() == Discharge(knobs, old(View()), lease.lease, lease.anchor, confirmed, now)
      ensures lease != null ==> lease.released && lease.anchor == old(lease.anchor)
    {
      if lease == null || lease.released { return; }
      lease.released := true;
      var l := lease.lease;
      if confirmed && l.caller.Some? {
        RememberPrompt(l.caller.value, l.endpoint,
                       Hint(l.promptTokens, now + knobs.hintTtl, l.fingerprint, lease.anchor));
      }
      backlog := Settle(backlog, l.endpoint, l.tokens);
      if l.elephant {
        elephants := Settle(elephants, l.endpoint, 1);
      }
      if l.caller.Some? {
        byCaller := Settle(byCaller, (l.endpoint, l.caller.value), l.tokens);
      }
    }

    method ShouldKeepAffinity(e: EndpointId, caller: Option<Caller>) returns (keep: bool)
      ensures keep == KeepsAffinity(knobs, View(), e, caller)
    {
      if !knobs.aware { return true; }
      var own := if caller.Some? then Get(byCaller, (e, caller.value)) else 0;
      keep := Get(backlog, e) - own <= knobs.affinityCeiling;
    }

    /** Two weighted draws; the lighter endpoint wins once either carries enough to matter. */
    method SelectIndex(keys: seq<EndpointId>, weights: seq<real>, tokens: int, r1: real, r2: real,
                       caller: Option<Caller>, avoid: Option<EndpointId>, fingerprint: Option<Fingerprint>, now: real)
      returns (index: nat)
      requires keys != [] && |weights| == |keys| && 0.0 <= r1 < 1.0 && 0.0 <= r2 < 1.0
      ensures index < |keys|
      ensures |keys| > 1 ==>
                var eligible := Eligible(knobs, View(), keys, tokens, caller, avoid, fingerprint, now);
                index in eligible && Chosen(knobs, View(), keys, weights, eligible, r1, r2, index)
      ensures avoid.Some? && (exists k :: 0 <= k < |keys| && keys[k] != avoid.value) ==> keys[index] != avoid.value
    {
      hide Saturated;
      EligibleIs(knobs, View(), keys, tokens, caller, avoid, fingerprint, now);
      if |keys| == 1 { return 0; }
      var eligible := Eligible(knobs, View(), keys, tokens, caller, avoid, fingerprint, now);
      var first := WeightedPick(eligible, weights, r1);
      var second := WeightedPick(eligible, weights, r2);
      assert eligible == Eligible(knobs, View(), keys, tokens, caller, avoid, fingerprint, now);
      index := Break(keys, first, second);
    }

    /** Break a tie between two draws by load. */
    method Break(keys: seq<EndpointId>, first: nat, second: nat) returns (index: nat)
      requires first < |keys| && second < |keys|
      ensures index == Prefer(knobs, View(), keys, first, second)
    {
      if !knobs.aware || first == second { return first; }
      var firstLoad, secondLoad := Get(backlog, keys[first]), Get(backlog, keys[second]);
      if firstLoad < knobs.interveneTokens && secondLoad < knobs.interveneTokens { return first; }
      index := if firstLoad <= secondLoad then first else second;
    }
  }

  lemma {:induction false} WithoutNobody(hints: seq<HintEntry>, e: EndpointId)
    ensures Without(hints, {}, e) == hints
  {
    if hints != [] {
      WithoutNobody(hints[1..], e);
    }
  }

  lemma {:induction false} WithoutAgain(hints: seq<HintEntry>, a: set<Caller>, b: set<Caller>, e: EndpointId)
    ensures Without(Without(hints, a, e), b, e) == Without(hints, a + b, e)
  {
    if hints != [] {
      var head, rest := hints[0], Without(hints[1..], a, e);
      WithoutAgain(hints[1..], a, b, e);
      if head.endpoint == e && head.caller in a {
        assert Without(hints, a, e) == rest;
      } else {
        assert Without(hints, a, e) == [head] + rest;
        assert ([head] + rest)[1..] == rest;
      }
    }
  }
}

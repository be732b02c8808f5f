/** What holds of the prefill tracker over every interleaving of acquires, releases and forgets. */
module PrefillRuns {
  import opened Options
  import opened Identifiers
  import opened PrefillLoad

  datatype Event =
    | Acquire(endpoint: EndpointId, tokens: int, caller: Option<Caller>, fingerprint: Option<Fingerprint>,
              anchor: Option<Anchor>)
    | Release(index: nat, confirmed: bool)
    | ForgetAll(endpoint: EndpointId)

  datatype Timed = Timed(now: real, event: Event)

  /** A lease handed out, and whether it has been given back. */
  datatype Record = Record(lease: Lease, anchor: Option<Anchor>, released: bool)

  datatype Machine = Machine(tracker: Tracker, leases: seq<Record>)

  const START := Machine(EMPTY, [])

  function Step(k: Knobs, m: Machine, t: Timed): Machine {
    match t.event
    case Acquire(e, tokens, caller, fingerprint, anchor) =>
      var lease := LeaseFor(k, m.tracker, e, tokens, caller, fingerprint, t.now);
      Machine(Charge(m.tracker, lease), m.leases + [Record(lease, anchor, false)])
    case Release(i, confirmed) =>
      if i >= |m.leases| || m.leases[i].released then m
      else
        var r := m.leases[i];
        Machine(Discharge(k, m.tracker, r.lease, r.anchor, confirmed, t.now), m.leases[i := r.(released := true)])
    case ForgetAll(e) => m.(tracker := Forget(m.tracker, e))
  }

  /** The machine after the first `n` events of `run`. */
  ghost function StateAt(k: Knobs, run: seq<Timed>, n: nat): Machine
    requires n <= |run|
  {
    if n == 0 then START else Step(k, StateAt(k, run, n - 1), run[n - 1])
  }

  // ----- conservation

  ghost function Total(leases: seq<Record>, f: Record -> int): int {
    if leases == [] then 0 else f(leases[0]) + Total(leases[1..], f)
  }

  lemma {:induction false} TotalAppend(leases: seq<Record>, r: Record, f: Record -> int)
    ensures Total(leases + [r], f) == Total(leases, f) + f(r)
  {
    if leases == [] {
      assert leases + [r] == [r];
    } else {
      TotalAppend(leases[1..], r, f);
      assert (leases + [r])[1..] == leases[1..] + [r];
    }
  }

  lemma {:induction false} TotalUpdate(leases: seq<Record>, i: nat, r: Record, f: Record -> int)
    requires i < |leases|
    ensures Total(leases[i := r], f) == Total(leases, f) - f(leases[i]) + f(r)
  {
    if i == 0 {
      assert leases[0 := r][1..] == leases[1..];
    } else {
      TotalUpdate(leases[1..], i - 1, r, f);
      assert leases[i := r][1..] == leases[1..][i - 1 := r];
    }
  }

  lemma {:induction false} TotalNonNegative(leases: seq<Record>, f: Record -> int)
    requires forall r :: 0 <= f(r)
    ensures 0 <= Total(leases, f)
  {
    if leases != [] {
      TotalNonNegative(leases[1..], f);
    }
  }

  /** A lease's outstanding tokens on `e`. */
  ghost function TokensOn(e: EndpointId): Record -> int {
    (r: Record) => if !r.released && r.lease.endpoint == e then r.lease.tokens else 0
  }

  ghost function ElephantOn(e: EndpointId): Record -> int {
    (r: Record) => if !r.released && r.lease.endpoint == e && r.lease.elephant then 1 else 0
  }

  ghost function CallerOn(e: EndpointId, c: Caller): Record -> int {
    (r: Record) => if !r.released && r.lease.endpoint == e && r.lease.caller == Some(c) then r.lease.tokens else 0
  }

  ghost function OthersOn(e: EndpointId, caller: Option<Caller>): Record -> int {
    (r: Record) =>
      if !r.released && r.lease.endpoint == e && (caller.None? || r.lease.caller != caller) then r.lease.tokens else 0
  }

  /** Every counter is exactly the sum over outstanding leases. */
  ghost predicate Balanced(m: Machine) {
    && (forall e :: Get(m.tracker.backlog, e) == Total(m.leases, TokensOn(e)))
    && (forall e :: Get(m.tracker.elephants, e) == Total(m.leases, ElephantOn(e)))
    && (forall e, c :: Get(m.tracker.byCaller, (e, c)) == Total(m.leases, CallerOn(e, c)))
  }

  lemma AcquireKeepsBalance(k: Knobs, m: Machine, t: Timed)
    requires Balanced(m) && t.event.Acquire?
    ensures Balanced(Step(k, m, t))
  {
    var lease := LeaseFor(k, m.tracker, t.event.endpoint, t.event.tokens, t.event.caller, t.event.fingerprint, t.now);
    var r := Record(lease, t.event.anchor, false);
    forall e ensures Total(m.leases + [r], TokensOn(e)) == Total(m.leases, TokensOn(e)) + TokensOn(e)(r)
                  && Total(m.leases + [r], ElephantOn(e)) == Total(m.leases, ElephantOn(e)) + ElephantOn(e)(r)
    {
      TotalAppend(m.leases, r, TokensOn(e));
      TotalAppend(m.leases, r, ElephantOn(e));
    }
    forall e, c ensures Total(m.leases + [r], CallerOn(e, c)) == Total(m.leases, CallerOn(e, c)) + CallerOn(e, c)(r) {
      TotalAppend(m.leases, r, CallerOn(e, c));
    }
  }

  lemma SettleAt<K>(m: map<K, int>, key: K, amount: int, x: K)
    requires Get(m, key) >= amount
    ensures Get(Settle(m, key, amount), x) == Get(m, x) - if x == key then amount else 0
  {
  }

  lemma ReleaseKeepsBalance(k: Knobs, m: Machine, t: Timed)
    requires Balanced(m) && t.event.Release? && t.event.index < |m.leases| && !m.leases[t.event.index].released
    ensures Balanced(Step(k, m, t))
  {
    var i := t.event.index;
    var before := m.leases[i];
    var l, r := before.lease, before.(released := true);
    var after := Step(k, m, t);
    forall e ensures Get(after.tracker.backlog, e) == Total(after.leases, TokensOn(e)) {
      TotalUpdate(m.leases, i, r, TokensOn(e));
      TotalUpdate(m.leases, i, r, TokensOn(l.endpoint));
      TotalNonNegative(after.leases, TokensOn(l.endpoint));
      SettleAt(m.tracker.backlog, l.endpoint, l.tokens, e);
    }
    forall e ensures Get(after.tracker.elephants, e) == Total(after.leases, ElephantOn(e)) {
      TotalUpdate(m.leases, i, r, ElephantOn(e));
      if l.elephant {
        TotalUpdate(m.leases, i, r, ElephantOn(l.endpoint));
        TotalNonNegative(after.leases, ElephantOn(l.endpoint));
        SettleAt(m.tracker.elephants, l.endpoint, 1, e);
      }
    }
    forall e, c ensures Get(after.tracker.byCaller, (e, c)) == Total(after.leases, CallerOn(e, c)) {
      TotalUpdate(m.leases, i, r, CallerOn(e, c));
      if l.caller.Some? {
        var own := l.caller.value;
        TotalUpdate(m.leases, i, r, CallerOn(l.endpoint, own));
        TotalNonNegative(after.leases, CallerOn(l.endpoint, own));
        SettleAt(m.tracker.byCaller, (l.endpoint, own), l.tokens, (e, c));
      }
    }
  }

  /** Over every interleaving, backlog, elephant count and caller shares are the sums of the leases
      still out; a second release of a lease changes nothing. */
  lemma {:induction false} LoadIsOutstandingLeases(k: Knobs, run: seq<Timed>, n: nat)
    requires n <= |run|
    ensures Balanced(StateAt(k, run, n))
  {
    if n > 0 {
      LoadIsOutstandingLeases(k, run, n - 1);
      var m, t := StateAt(k, run, n - 1), run[n - 1];
      match t.event
      case Acquire(_, _, _, _, _) => AcquireKeepsBalance(k, m, t);
      case Release(i, _) =>
        if i < |m.leases| && !m.leases[i].released {
          ReleaseKeepsBalance(k, m, t);
        }
      case ForgetAll(_) =>
    }
  }

  lemma {:induction false} SharesAddUp(leases: seq<Record>, e: EndpointId, c: Caller)
    ensures Total(leases, TokensOn(e)) == Total(leases, CallerOn(e, c)) + Total(leases, OthersOn(e, Some(c)))
  {
    if leases != [] {
      SharesAddUp(leases[1..], e, c);
    }
  }

  lemma {:induction false} NobodyIsEverybody(leases: seq<Record>, e: EndpointId)
    ensures Total(leases, TokensOn(e)) == Total(leases, OthersOn(e, None))
  {
    if leases != [] {
      NobodyIsEverybody(leases[1..], e);
    }
  }

  /** The affinity check compares exactly the other callers' outstanding load with the ceiling. */
  lemma AffinityComparesForeignLoad(k: Knobs, run: seq<Timed>, n: nat, e: EndpointId, caller: Option<Caller>)
    requires n <= |run| && k.aware
    ensures var m := StateAt(k, run, n);
            KeepsAffinity(k, m.tracker, e, caller) <==> Total(m.leases, OthersOn(e, caller)) <= k.affinityCeiling
  {
    LoadIsOutstandingLeases(k, run, n);
    var m := StateAt(k, run, n);
    if caller.Some? {
      SharesAddUp(m.leases, e, caller.value);
    } else {
      NobodyIsEverybody(m.leases, e);
    }
  }

  // ----- hints

  ghost predicate HasHint(hints: seq<HintEntry>, c: Caller, e: EndpointId) {
    exists i :: 0 <= i < |hints| && hints[i].caller == c && hints[i].endpoint == e
  }

  ghost predicate Unique(hints: seq<HintEntry>) {
    forall i, j :: 0 <= i < j < |hints| ==> hints[i].caller != hints[j].caller || hints[i].endpoint != hints[j].endpoint
  }

  /** The reverse index holds exactly the hint keys, and no empty sets. */
  ghost predicate Indexed(hints: seq<HintEntry>, index: map<EndpointId, set<Caller>>) {
    && (forall e :: e in index ==> index[e] != {})
    && (forall c, e :: c in CallersOn(index, e) <==> HasHint(hints, c, e))
  }

  ghost predicate HintsCoherent(t: Tracker) {
    && Unique(t.hints) && Indexed(t.hints, t.hintCallers) && |t.hints| <= MAX_HINTS
  }

  lemma {:induction false} WithoutIsFilter(hints: seq<HintEntry>, callers: set<Caller>, e: EndpointId)
    ensures var r := Without(hints, callers, e);
            && |r| <= |hints|
            && (Unique(hints) ==> Unique(r))
            && (forall x :: x in r <==> x in hints && !(x.endpoint == e && x.caller in callers))
  {
    if hints != [] {
      WithoutIsFilter(hints[1..], callers, e);
      var rest := Without(hints[1..], callers, e);
      if Unique(hints) {
        assert forall j :: 0 <= j < |hints[1..]| ==> hints[1..][j] == hints[j + 1];
        forall j | 0 <= j < |rest| ensures rest[j].caller != hints[0].caller || rest[j].endpoint != hints[0].endpoint {
          assert rest[j] in hints[1..];
        }
      }
    }
  }

  lemma HasHintIsMembership(hints: seq<HintEntry>, c: Caller, e: EndpointId)
    ensures HasHint(hints, c, e) <==> exists x :: x in hints && x.caller == c && x.endpoint == e
  {
    if x :| x in hints && x.caller == c && x.endpoint == e {
      var i :| 0 <= i < |hints| && hints[i] == x;
    }
  }

  lemma WithoutHas(hints: seq<HintEntry>, callers: set<Caller>, e: EndpointId, c: Caller, x: EndpointId)
    ensures HasHint(Without(hints, callers, e), c, x) <==> HasHint(hints, c, x) && !(x == e && c in callers)
  {
    WithoutIsFilter(hints, callers, e);
    HasHintIsMembership(hints, c, x);
    HasHintIsMembership(Without(hints, callers, e), c, x);
  }

  /** Forgetting an endpoint removes all of its hints and no others. */
  lemma ForgetRemovesExactly(t: Tracker, e: EndpointId)
    requires HintsCoherent(t)
    ensures HintsCoherent(Forget(t, e))
    ensures forall x :: x in Forget(t, e).hints <==> x in t.hints && x.endpoint != e
  {
    var callers := CallersOn(t.hintCallers, e);
    WithoutIsFilter(t.hints, callers, e);
    forall x | x in t.hints && x.endpoint == e ensures x.caller in callers {
      HasHintIsMembership(t.hints, x.caller, e);
    }
    var after := Forget(t, e);
    forall c, x ensures c in CallersOn(after.hintCallers, x) <==> HasHint(after.hints, c, x) {
      WithoutHas(t.hints, callers, e, c, x);
    }
  }

  /** Dropping the oldest hint and unindexing its caller keeps the index exact. */
  lemma UnindexOldest(hints: seq<HintEntry>, index: map<EndpointId, set<Caller>>)
    requires hints != [] && Unique(hints) && Indexed(hints, index)
    ensures Unique(hints[1..]) && Indexed(hints[1..], Unindex(index, hints[0].caller, hints[0].endpoint))
  {
    var h, rest := hints[0], hints[1..];
    assert forall j :: 0 <= j < |rest| ==> rest[j] == hints[j + 1];
    var after := Unindex(index, h.caller, h.endpoint);
    forall c, e ensures c in CallersOn(after, e) <==> HasHint(rest, c, e) {
      assert c in CallersOn(index, e) <==> HasHint(hints, c, e);
      if c == h.caller && e == h.endpoint {
        assert !HasHint(rest, c, e);
      } else if HasHint(hints, c, e) {
        var i :| 0 <= i < |hints| && hints[i].caller == c && hints[i].endpoint == e;
        assert rest[i - 1] == hints[i];
      }
    }
  }

  /** Appending an entry adds exactly its pair. */
  lemma AppendedHas(kept: seq<HintEntry>, entry: HintEntry, x: Caller, y: EndpointId)
    ensures HasHint(kept + [entry], x, y) <==> HasHint(kept, x, y) || (x == entry.caller && y == entry.endpoint)
  {
    var hints := kept + [entry];
    if HasHint(kept, x, y) {
      var i :| 0 <= i < |kept| && kept[i].caller == x && kept[i].endpoint == y;
      assert hints[i] == kept[i];
    }
    assert hints[|kept|] == entry;
  }

  /** Moving a pair's hint to the end, or adding it there, keeps the index exact. */
  lemma InsertKeepsIndexed(hints: seq<HintEntry>, index: map<EndpointId, set<Caller>>, entry: HintEntry)
    requires Unique(hints) && Indexed(hints, index)
    ensures var c, e := entry.caller, entry.endpoint;
            var after := Without(hints, {c}, e) + [entry];
            && Unique(after) && Indexed(after, index[e := CallersOn(index, e) + {c}]) && |after| <= |hints| + 1
            && (forall x, y :: HasHint(after, x, y) ==> HasHint(hints, x, y) || (x == c && y == e))
  {
    var c, e := entry.caller, entry.endpoint;
    var kept, grown := Without(hints, {c}, e), index[e := CallersOn(index, e) + {c}];
    var after := kept + [entry];
    WithoutIsFilter(hints, {c}, e);
    forall j | 0 <= j < |kept| ensures kept[j].caller != c || kept[j].endpoint != e {
      assert kept[j] in kept;
    }
    forall x, y
      ensures x in CallersOn(grown, y) <==> HasHint(after, x, y)
      ensures HasHint(after, x, y) ==> HasHint(hints, x, y) || (x == c && y == e)
    {
      AppendedHas(kept, entry, x, y);
      WithoutHas(hints, {c}, e, x, y);
      assert x in CallersOn(index, y) <==> HasHint(hints, x, y);
    }
    assert forall y :: y in grown ==> grown[y] != {} by { assert c in grown[e]; }
  }

  /** Evicting from a map one over its bound drops its oldest hint and nothing else. */
  lemma EvictKeepsIndexed(hints: seq<HintEntry>, index: map<EndpointId, set<Caller>>)
    requires Unique(hints) && Indexed(hints, index) && |hints| <= MAX_HINTS + 1
    ensures var (left, after) := Evict(hints, index);
            && Unique(left) && Indexed(left, after) && |left| <= MAX_HINTS
            && (forall x, y :: HasHint(left, x, y) ==> HasHint(hints, x, y))
  {
    if |hints| > MAX_HINTS {
      UnindexOldest(hints, index);
      assert Evict(hints, index) == (hints[1..], Unindex(index, hints[0].caller, hints[0].endpoint));
      forall x, y | HasHint(hints[1..], x, y) ensures HasHint(hints, x, y) {
        var i :| 0 <= i < |hints[1..]| && hints[1..][i].caller == x && hints[1..][i].endpoint == y;
        assert hints[i + 1] == hints[1..][i];
      }
    }
  }

  lemma RememberKeepsCoherent(t: Tracker, c: Caller, e: EndpointId, hint: Hint)
    requires HintsCoherent(t)
    ensures HintsCoherent(Remember(t, c, e, hint))
    ensures forall x, y :: HasHint(Remember(t, c, e, hint).hints, x, y) ==> HasHint(t.hints, x, y) || (x == c && y == e)
  {
    hide Unique, Indexed, HasHint, Evict, Without;
    InsertKeepsIndexed(t.hints, t.hintCallers, HintEntry(c, e, hint));
    EvictKeepsIndexed(Without(t.hints, {c}, e) + [HintEntry(c, e, hint)],
                      t.hintCallers[e := CallersOn(t.hintCallers, e) + {c}]);
  }

  /** Event `i` gave back, with prefill confirmed, a lease of `c` on `e` that was still out. */
  ghost predicate Confirms(k: Knobs, run: seq<Timed>, i: nat, c: Caller, e: EndpointId)
    requires i < |run|
  {
    var m := StateAt(k, run, i);
    && run[i].event.Release? && run[i].event.confirmed
    && run[i].event.index < |m.leases| && !m.leases[run[i].event.index].released
    && m.leases[run[i].event.index].lease.endpoint == e
    && m.leases[run[i].event.index].lease.caller == Some(c)
  }

  lemma StepKeepsHintsCoherent(k: Knobs, m: Machine, t: Timed)
    requires HintsCoherent(m.tracker)
    ensures HintsCoherent(Step(k, m, t).tracker)
  {
    hide Unique, Indexed;
    match t.event
    case Acquire(_, _, _, _, _) =>
    case Release(i, confirmed) =>
      if Remembers(m, t) {
        RememberKeepsCoherent(m.tracker, m.leases[i].lease.caller.value, m.leases[i].lease.endpoint, NewHint(k, m, t));
      }
    case ForgetAll(x) =>
      ForgetRemovesExactly(m.tracker, x);
  }

  /** Over every run the hint map keeps its bound, its keys are unique, and the reverse index holds exactly
      those keys. */
  lemma {:induction false} HintMapIsCoherent(k: Knobs, run: seq<Timed>, n: nat)
    requires n <= |run|
    ensures HintsCoherent(StateAt(k, run, n).tracker)
  {
    if n > 0 {
      HintMapIsCoherent(k, run, n - 1);
      StepKeepsHintsCoherent(k, StateAt(k, run, n - 1), run[n - 1]);
    }
  }

  ghost predicate Remembers(m: Machine, t: Timed) {
    && t.event.Release? && t.event.confirmed && t.event.index < |m.leases|
    && !m.leases[t.event.index].released && m.leases[t.event.index].lease.caller.Some?
  }

  ghost function NewHint(k: Knobs, m: Machine, t: Timed): Hint
    requires Remembers(m, t)
  {
    var r := m.leases[t.event.index];
    Hint(r.lease.promptTokens, t.now + k.hintTtl, r.lease.fingerprint, r.anchor)
  }

  /** A lease of the pair was confirmed, and the endpoint has not been forgotten since. */
  ghost predicate Evidence(k: Knobs, run: seq<Timed>, n: nat, c: Caller, e: EndpointId)
    requires n <= |run|
  {
    exists i: nat :: i < n && Confirms(k, run, i, c, e) && forall j :: i < j < n ==> run[j].event != ForgetAll(e)
  }

  lemma EvidenceLasts(k: Knobs, run: seq<Timed>, n: nat, c: Caller, e: EndpointId)
    requires n < |run| && Evidence(k, run, n, c, e) && run[n].event != ForgetAll(e)
    ensures Evidence(k, run, n + 1, c, e)
  {
    var i: nat :| i < n && Confirms(k, run, i, c, e) && forall j :: i < j < n ==> run[j].event != ForgetAll(e);
    assert forall j :: i < j < n + 1 ==> run[j].event != ForgetAll(e);
  }

  /** What a step can add to the hints, and what a forget takes away. */
  lemma StepHints(k: Knobs, m: Machine, t: Timed, c: Caller, e: EndpointId)
    requires HintsCoherent(m.tracker) && HasHint(Step(k, m, t).tracker.hints, c, e)
    ensures t.event != ForgetAll(e)
    ensures || HasHint(m.tracker.hints, c, e)
            || (Remembers(m, t) && m.leases[t.event.index].lease.endpoint == e
                && m.leases[t.event.index].lease.caller == Some(c))
  {
    match t.event
    case Acquire(_, _, _, _, _) =>
    case Release(i, confirmed) =>
      if Remembers(m, t) {
        RememberKeepsCoherent(m.tracker, m.leases[i].lease.caller.value, m.leases[i].lease.endpoint, NewHint(k, m, t));
      }
    case ForgetAll(x) =>
      WithoutHas(m.tracker.hints, CallersOn(m.tracker.hintCallers, x), x, c, e);
      assert c in CallersOn(m.tracker.hintCallers, e) <==> HasHint(m.tracker.hints, c, e);
  }

  /** Over every run a hint exists only if a lease of that pair was given back with prefill confirmed after
      the endpoint was last forgotten. */
  lemma {:induction false} HintsAreEvidence(k: Knobs, run: seq<Timed>, n: nat, c: Caller, e: EndpointId)
    requires n <= |run| && HasHint(StateAt(k, run, n).tracker.hints, c, e)
    ensures Evidence(k, run, n, c, e)
  {
    if n > 0 {
      var m := StateAt(k, run, n - 1);
      HintMapIsCoherent(k, run, n - 1);
      StepHints(k, m, run[n - 1], c, e);
      if HasHint(m.tracker.hints, c, e) {
        HintsAreEvidence(k, run, n - 1, c, e);
        EvidenceLasts(k, run, n - 1, c, e);
      } else {
        assert Confirms(k, run, n - 1, c, e);
      }
    }
  }

  // ----- the elephant limit

  /** The hint `caller` holds on `e` stops counting somewhere in `(from, to]`. */
  predicate HintLapses(t: Tracker, e: EndpointId, caller: Option<Caller>, from: real, to: real) {
    && caller.Some?
    && var hint := FindHint(t.hints, caller.value, e);
       hint.Some? && from < hint.value.expiresAt <= to
  }

  /** Any index a selection at `t1` can return, whatever the draws. */
  ghost predicate CanSelect(k: Knobs, t: Tracker, keys: seq<EndpointId>, tokens: int, caller: Option<Caller>,
                            avoid: Option<EndpointId>, fingerprint: Option<Fingerprint>, t1: real, index: nat)
  {
    && index < |keys|
    && (|keys| > 1 ==> index in Eligible(k, t, keys, tokens, caller, avoid, fingerprint, t1))
  }

  /** Acquiring at `now` raises `e` above the elephant limit. */
  predicate Exceeds(k: Knobs, t: Tracker, e: EndpointId, tokens: int, caller: Option<Caller>,
                    fingerprint: Option<Fingerprint>, now: real)
  {
    var lease := LeaseFor(k, t, e, tokens, caller, fingerprint, now);
    lease.elephant && Get(Charge(t, lease).elephants, e) > k.Limit()
  }

  /** The one way the clock breaks the limit: on an endpoint at its limit, a hint that made an elephant look small
      at `t1` has lapsed by `t2`. */
  predicate LapseBreaks(k: Knobs, t: Tracker, e: EndpointId, tokens: int, caller: Option<Caller>,
                        fingerprint: Option<Fingerprint>,
                        t1: real, t2: real)
  {
    && Get(t.elephants, e) >= k.Limit() && HintLapses(t, e, caller, t1, t2)
    && k.IsElephant(if tokens < 0 then 0 else tokens) && !k.IsElephant(Uncached(t, e, tokens, caller, fingerprint, t1))
  }

  lemma ExceedsIff(k: Knobs, t: Tracker, e: EndpointId, tokens: int, caller: Option<Caller>,
                   fingerprint: Option<Fingerprint>,
                   t1: real, t2: real)
    requires t1 <= t2
    ensures Exceeds(k, t, e, tokens, caller, fingerprint, t2) <==>
              Saturated(k, t, e, tokens, caller, fingerprint, t1)
                  || LapseBreaks(k, t, e, tokens, caller, fingerprint, t1, t2)
  {
    hide FindHint;
  }

  /** Selecting at `t1` and acquiring at `t2` on the state selection saw raises the chosen endpoint above the elephant
      limit exactly when every candidate left after `avoid` was already saturated for this prompt, or the clock broke
      it there. */
  lemma ElephantLimitHolds(k: Knobs, t: Tracker, keys: seq<EndpointId>, tokens: int, caller: Option<Caller>,
                           avoid: Option<EndpointId>, fingerprint: Option<Fingerprint>, t1: real, t2: real, index: nat)
    requires k.aware && keys != [] && t1 <= t2
    requires CanSelect(k, t, keys, tokens, caller, avoid, fingerprint, t1, index)
    ensures Exceeds(k, t, keys[index], tokens, caller, fingerprint, t2) <==>
              || (forall i :: 0 <= i < |keys|
                              && (Some(keys[i]) != avoid || forall j :: 0 <= j < |keys| ==> Some(keys[j]) == avoid) ==>
                    Saturated(k, t, keys[i], tokens, caller, fingerprint, t1))
              || LapseBreaks(k, t, keys[index], tokens, caller, fingerprint, t1, t2)
  {
    hide Exceeds, LapseBreaks, Saturated;
    ExceedsIff(k, t, keys[index], tokens, caller, fingerprint, t1, t2);
    AfterAvoidKeeps(keys, avoid);
    SaturatedIffAll(k, t, keys, tokens, caller, avoid, fingerprint, t1, index);
  }

  /** Selection takes a saturated candidate only when all are. */
  lemma SaturatedIffAll(k: Knobs, t: Tracker, keys: seq<EndpointId>, tokens: int, caller: Option<Caller>,
                        avoid: Option<EndpointId>, fingerprint: Option<Fingerprint>, now: real, index: nat)
    requires k.aware && keys != [] && CanSelect(k, t, keys, tokens, caller, avoid, fingerprint, now, index)
    ensures Saturated(k, t, keys[index], tokens, caller, fingerprint, now) <==>
              forall i :: i in AfterAvoid(keys, avoid) ==> Saturated(k, t, keys[i], tokens, caller, fingerprint, now)
  {
    hide Saturated;
    var kept := AfterAvoid(keys, avoid);
    var keep := (i: nat) => i < |keys| && !Saturated(k, t, keys[i], tokens, caller, fingerprint, now);
    if |keys| == 1 {
      assert kept[0] in kept;
      assert forall i :: i in kept ==> i == 0;
    } else {
      var free := Filter(kept, keep);
      if free == [] {
        forall i | i in kept ensures Saturated(k, t, keys[i], tokens, caller, fingerprint, now) {
          assert keep(i) ==> i in free;
        }
      } else {
        assert free[0] in free;
      }
    }
  }

  /** The clock exception is real: a run of the tracker reaches a state in which a hint that lapses between selection
      and acquisition puts a second elephant on an endpoint at its limit while another candidate was free. */
  lemma LapsedHintBreaksLimit()
    ensures var k := Knobs(true, 100, 1, 50, 150, 10.0);
            var run := [Timed(0.0, Acquire("a", 90, Some("me"), None, None)), Timed(1.0, Release(0, true)),
                        Timed(2.0, Acquire("a", 120, Some("you"), None, None))];
            var t := StateAt(k, run, 3).tracker;
            && CanSelect(k, t, ["a", "b"], 120, Some("me"), None, None, 10.0, 0)
            && !Saturated(k, t, "b", 120, Some("me"), None, 10.0)
            && Exceeds(k, t, "a", 120, Some("me"), None, 12.0)
  {
    var k := Knobs(true, 100, 1, 50, 150, 10.0);
    var run := [Timed(0.0, Acquire("a", 90, Some("me"), None, None)), Timed(1.0, Release(0, true)),
                Timed(2.0, Acquire("a", 120, Some("you"), None, None))];
    LapseRun(k, run);
    var t := StateAt(k, run, 3).tracker;
    LapseState(k, t);
  }

  lemma LapseRun(k: Knobs, run: seq<Timed>)
    requires k == Knobs(true, 100, 1, 50, 150, 10.0) && |run| == 3
             && run[0] == Timed(0.0, Acquire("a", 90, Some("me"), None, None))
    requires run[1] == Timed(1.0, Release(0, true)) && run[2] == Timed(2.0, Acquire("a", 120, Some("you"), None, None))
    ensures var t := StateAt(k, run, 3).tracker;
            t.hints == [HintEntry("me", "a", Hint(90, 11.0, None, None))] && t.elephants == map["a" := 1]
  {
    var m0, m1, m2, m3 := StateAt(k, run, 0), StateAt(k, run, 1), StateAt(k, run, 2), StateAt(k, run, 3);
    assert m1 == Step(k, m0, run[0]) && m2 == Step(k, m1, run[1]) && m3 == Step(k, m2, run[2]);
    assert m1.leases[0].lease == Lease("a", 90, false, Some("me"), 90, None);
    assert m2.tracker.hints == [HintEntry("me", "a", Hint(90, 11.0, None, None))] && m2.tracker.elephants == map[];
    assert m2.tracker.hints[1..] == [] && |"me"| != |"you"|;
    assert FindHint(m2.tracker.hints, "you", "a") == None;
    assert k.IsElephant(120) && m3.leases[1].lease.elephant;
  }

  lemma LapseState(k: Knobs, t: Tracker)
    requires k == Knobs(true, 100, 1, 50, 150, 10.0)
    requires t.hints == [HintEntry("me", "a", Hint(90, 11.0, None, None))] && t.elephants == map["a" := 1]
    ensures CanSelect(k, t, ["a", "b"], 120, Some("me"), None, None, 10.0, 0)
    ensures !Saturated(k, t, "b", 120, Some("me"), None, 10.0) && Exceeds(k, t, "a", 120, Some("me"), None, 12.0)
  {
    assert FindHint(t.hints, "me", "a") == Some(Hint(90, 11.0, None, None));
    assert FindHint(t.hints, "me", "b") == None by { assert t.hints[1..] == []; }
    assert !Saturated(k, t, "a", 120, Some("me"), None, 10.0);
    var kept := AfterAvoid(["a", "b"], None);
    assert kept[0] == 0 && 0 in kept;
    var keep := (i: nat) => i < 2 && !Saturated(k, t, ["a", "b"][i], 120, Some("me"), None, 10.0);
    assert keep(0);
  }
}

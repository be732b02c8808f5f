/** What a warm-prefix hint says and what a lease charges, told by the acquires and releases of the run. */
module HintHistory {
  import opened Options
  import opened Identifiers
  import opened PrefillLoad
  import opened PrefillRuns

  // ----- leases are acquires

  function Positive(tokens: int): nat { if tokens < 0 then 0 else tokens }

  /** Event `a` acquired lease number `l`. */
  ghost predicate AcquiredAt(k: Knobs, run: seq<Timed>, a: nat, l: nat)
    requires a < |run|
  {
    run[a].event.Acquire? && |StateAt(k, run, a).leases| == l
  }

  /** What a lease says about its prompt is what its acquire was called with. */
  ghost predicate Describes(r: Record, event: Event)
    requires event.Acquire?
  {
    && r.lease.endpoint == event.endpoint && r.lease.caller == event.caller
    && r.lease.promptTokens == Positive(event.tokens) && r.lease.fingerprint == event.fingerprint
    && r.anchor == event.anchor
  }

  lemma {:induction false} LeaseWasAcquired(k: Knobs, run: seq<Timed>, n: nat, l: nat) returns (a: nat)
    requires n <= |run| && l < |StateAt(k, run, n).leases|
    ensures a < n && AcquiredAt(k, run, a, l) && Describes(StateAt(k, run, n).leases[l], run[a].event)
  {
    hide Uncached, Charge, Discharge, Forget;
    if l < |StateAt(k, run, n - 1).leases| {
      a := LeaseWasAcquired(k, run, n - 1, l);
    } else {
      a := n - 1;
    }
  }

  /** A hint is about the prompt whose lease was given back, and lives one lifetime from then. */
  lemma HintIsOfPrompt(k: Knobs, run: seq<Timed>, i: nat, c: Caller, e: EndpointId) returns (a: nat)
    requires i < |run| && Confirms(k, run, i, c, e)
    ensures a < i && AcquiredAt(k, run, a, run[i].event.index) && Remembers(StateAt(k, run, i), run[i])
    ensures var first, hint := run[a].event, NewHint(k, StateAt(k, run, i), run[i]);
            && first.endpoint == e && first.caller == Some(c)
            && hint == Hint(Positive(first.tokens), run[i].now + k.hintTtl, first.fingerprint, first.anchor)
  {
    hide StateAt;
    a := LeaseWasAcquired(k, run, i, run[i].event.index);
  }

  // ----- the last evidence

  /** Event `i` is the last to confirm a prefill of the pair before event `n`, and the endpoint was not forgotten
      since. */
  ghost predicate LastEvidence(k: Knobs, run: seq<Timed>, n: nat, c: Caller, e: EndpointId, i: nat)
    requires n <= |run|
  {
    && i < n && Confirms(k, run, i, c, e)
    && forall j :: i < j < n ==> !Confirms(k, run, j, c, e) && run[j].event != ForgetAll(e)
  }

  /** The hint event `i` left. */
  ghost function HintOf(k: Knobs, run: seq<Timed>, i: nat, c: Caller, e: EndpointId): Hint
    requires i < |run| && Confirms(k, run, i, c, e)
  {
    NewHint(k, StateAt(k, run, i), run[i])
  }

  /** How many hints were recorded from event `i` up to event `n`. */
  ghost function Recorded(k: Knobs, run: seq<Timed>, i: nat, n: nat): nat
    requires i <= n <= |run|
    decreases n - i
  {
    if i == n then 0 else Recorded(k, run, i, n - 1) + if Remembers(StateAt(k, run, n - 1), run[n - 1]) then 1 else 0
  }

  lemma {:induction false} EvictKeepsNewest(hints: seq<HintEntry>, index: map<EndpointId, set<Caller>>)
    ensures var n := if |hints| <= MAX_HINTS then |hints| else MAX_HINTS;
            Evict(hints, index).0 == hints[|hints| - n..]
    decreases |hints|
  {
    if |hints| > MAX_HINTS {
      EvictKeepsNewest(hints[1..], Unindex(index, hints[0].caller, hints[0].endpoint));
    }
  }

  /** Entry `x` is among the last `d + 1`. */
  ghost predicate Recent(hints: seq<HintEntry>, x: HintEntry, d: nat) {
    exists p :: 0 <= p < |hints| && hints[p] == x && |hints| - 1 - p <= d
  }

  lemma {:induction false} WithoutKeepsRecent(hints: seq<HintEntry>, callers: set<Caller>, e: EndpointId, x: HintEntry,
                                              d: nat)
    requires Recent(hints, x, d) && !(x.endpoint == e && x.caller in callers)
    ensures Recent(Without(hints, callers, e), x, d)
  {
    var p :| 0 <= p < |hints| && hints[p] == x && |hints| - 1 - p <= d;
    var rest, left := Without(hints[1..], callers, e), Without(hints, callers, e);
    WithoutIsShorter(hints[1..], callers, e);
    if p == 0 {
      assert left == [x] + rest;
      assert left[0] == x;
    } else {
      assert hints[1..][p - 1] == x;
      WithoutKeepsRecent(hints[1..], callers, e, x, d);
      RecentBehind(hints[0], rest, x, d);
    }
  }

  lemma {:induction false} WithoutIsShorter(hints: seq<HintEntry>, callers: set<Caller>, e: EndpointId)
    ensures |Without(hints, callers, e)| <= |hints|
  {
    if hints != [] {
      WithoutIsShorter(hints[1..], callers, e);
    }
  }

  lemma RecentBehind(first: HintEntry, rest: seq<HintEntry>, x: HintEntry, d: nat)
    requires Recent(rest, x, d)
    ensures Recent([first] + rest, x, d) && Recent([] + rest, x, d)
  {
    var q :| 0 <= q < |rest| && rest[q] == x && |rest| - 1 - q <= d;
    assert ([first] + rest)[q + 1] == x && ([] + rest)[q] == x;
  }

  /** Recording another pair's hint pushes an entry back by one at most. */
  lemma RememberKeepsRecent(t: Tracker, c: Caller, e: EndpointId, hint: Hint, x: HintEntry, d: nat)
    requires Recent(t.hints, x, d) && (x.caller != c || x.endpoint != e) && d + 1 < MAX_HINTS
    ensures Recent(Remember(t, c, e, hint).hints, x, d + 1)
  {
    WithoutKeepsRecent(t.hints, {c}, e, x, d);
    var kept := Without(t.hints, {c}, e);
    var q :| 0 <= q < |kept| && kept[q] == x && |kept| - 1 - q <= d;
    var grown := kept + [HintEntry(c, e, hint)];
    assert grown[q] == x;
    var after := Remember(t, c, e, hint).hints;
    EvictKeepsNewest(grown, t.hintCallers[e := CallersOn(t.hintCallers, e) + {c}]);
    assert after[q - (|grown| - |after|)] == x;
  }

  lemma RememberedIsNewest(t: Tracker, c: Caller, e: EndpointId, hint: Hint)
    ensures Recent(Remember(t, c, e, hint).hints, HintEntry(c, e, hint), 0)
  {
    var grown := Without(t.hints, {c}, e) + [HintEntry(c, e, hint)];
    EvictKeepsNewest(grown, t.hintCallers[e := CallersOn(t.hintCallers, e) + {c}]);
    var after := Remember(t, c, e, hint).hints;
    assert after[|after| - 1] == HintEntry(c, e, hint);
  }

  /** What one event does to an entry that it neither replaces nor forgets. */
  lemma StepKeepsRecent(k: Knobs, m: Machine, t: Timed, x: HintEntry, d: nat)
    requires Recent(m.tracker.hints, x, d) && t.event != ForgetAll(x.endpoint) && d + 1 < MAX_HINTS
    requires Remembers(m, t) ==>
               var l := m.leases[t.event.index].lease; l.endpoint != x.endpoint || l.caller != Some(x.caller)
    ensures Recent(Step(k, m, t).tracker.hints, x, if Remembers(m, t) then d + 1 else d)
  {
    hide Recent, Without, Remember;
    match t.event
    case Acquire(_, _, _, _, _) =>
    case Release(i, confirmed) =>
      if Remembers(m, t) {
        var l := m.leases[i].lease;
        RememberKeepsRecent(m.tracker, l.caller.value, l.endpoint, NewHint(k, m, t), x, d);
      }
    case ForgetAll(e) => WithoutKeepsRecent(m.tracker.hints, CallersOn(m.tracker.hintCallers, e), e, x, d);
  }

  /** A confirmed prefill is remembered until its endpoint is forgotten, the pair confirms again, or the map fills up
      with newer hints. */
  lemma {:induction false} EvidenceIsRemembered(k: Knobs, run: seq<Timed>, n: nat, c: Caller, e: EndpointId, i: nat)
    requires n <= |run| && LastEvidence(k, run, n, c, e, i) && Recorded(k, run, i + 1, n) < MAX_HINTS
    ensures Recent(StateAt(k, run, n).tracker.hints, HintEntry(c, e, HintOf(k, run, i, c, e)),
                   Recorded(k, run, i + 1, n))
    decreases n - i
  {
    hide Recent, Remember, Step;
    var x := HintEntry(c, e, HintOf(k, run, i, c, e));
    if n == i + 1 {
      ConfirmRemembers(k, StateAt(k, run, i), run[i]);
    } else {
      var d := Recorded(k, run, i + 1, n - 1);
      EvidenceIsRemembered(k, run, n - 1, c, e, i);
      if d + 1 < MAX_HINTS {
        StepKeepsRecent(k, StateAt(k, run, n - 1), run[n - 1], x, d);
      } else {
        QuietKeepsRecent(k, StateAt(k, run, n - 1), run[n - 1], x, d);
      }
    }
  }

  lemma ConfirmRemembers(k: Knobs, m: Machine, t: Timed)
    requires Remembers(m, t)
    ensures var l := m.leases[t.event.index].lease;
            Recent(Step(k, m, t).tracker.hints, HintEntry(l.caller.value, l.endpoint, NewHint(k, m, t)), 0)
  {
    hide Recent, Remember;
    var l := m.leases[t.event.index].lease;
    RememberedIsNewest(m.tracker, l.caller.value, l.endpoint, NewHint(k, m, t));
  }

  lemma QuietKeepsRecent(k: Knobs, m: Machine, t: Timed, x: HintEntry, d: nat)
    requires Recent(m.tracker.hints, x, d) && t.event != ForgetAll(x.endpoint) && !Remembers(m, t)
    ensures Recent(Step(k, m, t).tracker.hints, x, d)
  {
    hide Recent, Without, Remember;
    if t.event.ForgetAll? {
      WithoutKeepsRecent(m.tracker.hints, CallersOn(m.tracker.hintCallers, t.event.endpoint), t.event.endpoint, x, d);
    }
  }

  // ----- every hint is the last evidence

  lemma RememberAddsOne(t: Tracker, c: Caller, e: EndpointId, hint: Hint, x: HintEntry)
    requires x in Remember(t, c, e, hint).hints
    ensures x == HintEntry(c, e, hint) || (x in t.hints && !(x.caller == c && x.endpoint == e))
  {
    var kept := Without(t.hints, {c}, e);
    WithoutIsFilter(t.hints, {c}, e);
    EvictKeepsNewest(kept + [HintEntry(c, e, hint)], t.hintCallers[e := CallersOn(t.hintCallers, e) + {c}]);
    assert x in kept + [HintEntry(c, e, hint)];
  }

  lemma StepAddsOne(k: Knobs, m: Machine, t: Timed, x: HintEntry)
    requires HintsCoherent(m.tracker) && x in Step(k, m, t).tracker.hints
    ensures t.event != ForgetAll(x.endpoint)
    ensures if Remembers(m, t) && m.leases[t.event.index].lease.endpoint == x.endpoint
               && m.leases[t.event.index].lease.caller == Some(x.caller)
            then x.hint == NewHint(k, m, t)
            else x in m.tracker.hints
  {
    hide Remember, HintsCoherent;
    match t.event
    case Acquire(_, _, _, _, _) =>
    case Release(i, confirmed) =>
      if Remembers(m, t) {
        var l := m.leases[i].lease;
        RememberAddsOne(m.tracker, l.caller.value, l.endpoint, NewHint(k, m, t), x);
      }
    case ForgetAll(e) => ForgetRemovesExactly(m.tracker, e);
  }

  lemma {:induction false} HintIsEvidence(k: Knobs, run: seq<Timed>, n: nat, x: HintEntry) returns (i: nat)
    requires n <= |run| && x in StateAt(k, run, n).tracker.hints
    ensures LastEvidence(k, run, n, x.caller, x.endpoint, i) && x.hint == HintOf(k, run, i, x.caller, x.endpoint)
  {
    hide Step, HintsCoherent;
    var m := StateAt(k, run, n - 1);
    HintMapIsCoherent(k, run, n - 1);
    StepAddsOne(k, m, run[n - 1], x);
    if Confirms(k, run, n - 1, x.caller, x.endpoint) {
      i := n - 1;
    } else {
      i := HintIsEvidence(k, run, n - 1, x);
    }
  }

  lemma {:induction false} FoundIsMember(hints: seq<HintEntry>, c: Caller, e: EndpointId)
    ensures var found := FindHint(hints, c, e);
            && (found.Some? ==> HintEntry(c, e, found.value) in hints)
            && (forall h :: HintEntry(c, e, h) in hints && Unique(hints) ==> found == Some(h))
  {
    if hints != [] {
      FoundIsMember(hints[1..], c, e);
      assert forall x :: x in hints <==> x == hints[0] || x in hints[1..];
      if Unique(hints) {
        assert forall j :: 0 <= j < |hints[1..]| ==> hints[1..][j] == hints[j + 1];
      }
    }
  }

  /** Over every run: a hint is that of the pair's last confirmed prefill since its endpoint was forgotten; and that
      prefill's hint is there unless so many newer ones were recorded that it was evicted. */
  lemma HintIsLastEvidence(k: Knobs, run: seq<Timed>, n: nat, c: Caller, e: EndpointId)
    requires n <= |run|
    ensures var found := FindHint(StateAt(k, run, n).tracker.hints, c, e);
            && (found.Some? ==>
                  exists i: nat :: LastEvidence(k, run, n, c, e, i) && found.value == HintOf(k, run, i, c, e))
            && (forall i: nat :: LastEvidence(k, run, n, c, e, i) && Recorded(k, run, i + 1, n) < MAX_HINTS ==>
                  found == Some(HintOf(k, run, i, c, e)))
  {
    hide StateAt, HintOf, Confirms, Recorded;
    var hints := StateAt(k, run, n).tracker.hints;
    var found := FindHint(hints, c, e);
    FoundIsMember(hints, c, e);
    HintMapIsCoherent(k, run, n);
    if found.Some? {
      var i := HintIsEvidence(k, run, n, HintEntry(c, e, found.value));
    }
    forall i: nat | LastEvidence(k, run, n, c, e, i) && Recorded(k, run, i + 1, n) < MAX_HINTS
      ensures found == Some(HintOf(k, run, i, c, e))
    {
      EvidenceIsRemembered(k, run, n, c, e, i);
    }
  }

  // ----- what an acquire charges

  /** What is left of a prompt once `warm` tokens of it are warm. */
  function Cold(tokens: int, warm: nat): nat { if Positive(tokens) < warm then 0 else Positive(tokens) - warm }

  /** The lease event `n` acquired. */
  ghost function Acquired(k: Knobs, run: seq<Timed>, n: nat): Lease
    requires n < |run| && run[n].event.Acquire?
  {
    var before, after := StateAt(k, run, n), StateAt(k, run, n + 1);
    after.leases[|before.leases|].lease
  }

  /** Nothing of the prompt is known to be warm: the whole of it is charged. */
  lemma ColdAcquireChargesAll(k: Knobs, run: seq<Timed>, n: nat)
    requires n < |run| && run[n].event.Acquire?
    requires var event := run[n].event;
             event.caller.Some? ==>
               forall i: nat :: LastEvidence(k, run, n, event.caller.value, event.endpoint, i) ==>
                 run[i].now + k.hintTtl <= run[n].now
    ensures var tokens, lease := Positive(run[n].event.tokens), Acquired(k, run, n);
            lease.tokens == tokens && (lease.elephant <==> k.IsElephant(tokens))
  {
    hide FindHint, LastEvidence, HintsCoherent;
    var event := run[n].event;
    if event.caller.Some? {
      HintIsLastEvidence(k, run, n, event.caller.value, event.endpoint);
    }
  }

  /** The caller's last prefill there is still warm: that much less is charged, whoever it was for; and it counts as an
      elephant by what is left for its own conversation. */
  lemma WarmAcquireChargesRest(k: Knobs, run: seq<Timed>, n: nat, i: nat) returns (a: nat)
    requires n < |run| && run[n].event.Acquire? && run[n].event.caller.Some?
    requires LastEvidence(k, run, n, run[n].event.caller.value, run[n].event.endpoint, i)
    requires Recorded(k, run, i + 1, n) < MAX_HINTS && run[n].now < run[i].now + k.hintTtl
    ensures a < i && AcquiredAt(k, run, a, run[i].event.index)
    ensures var event, first, lease := run[n].event, run[a].event, Acquired(k, run, n);
            var same := event.fingerprint.None? || event.fingerprint == first.fingerprint;
            && first.endpoint == event.endpoint && first.caller == event.caller
            && lease.tokens == Cold(event.tokens, Positive(first.tokens))
            && (lease.elephant <==>
                  k.IsElephant(if same then Cold(event.tokens, Positive(first.tokens)) else Positive(event.tokens)))
  {
    hide FindHint, LastEvidence, HintsCoherent, Recorded, Confirms;
    var event := run[n].event;
    HintIsLastEvidence(k, run, n, event.caller.value, event.endpoint);
    EvidenceConfirms(k, run, n, event.caller.value, event.endpoint, i);
    a := HintIsOfPrompt(k, run, i, event.caller.value, event.endpoint);
  }

  lemma EvidenceConfirms(k: Knobs, run: seq<Timed>, n: nat, c: Caller, e: EndpointId, i: nat)
    requires n <= |run| && LastEvidence(k, run, n, c, e, i)
    ensures i < n && Confirms(k, run, i, c, e)
  {
  }
}

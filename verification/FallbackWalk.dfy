/** The order one request tries the rest of its route in after its primary fails. */
module FallbackWalk {
  import opened Options
  import opened Identifiers
  import opened Failures

  /** An adapter's identity: distinct routes are distinct values. */
  type Adapter = nat

  /** `ordinary` and `retries` are queues; `retried` remembers every route ever queued for a retry. */
  datatype Order = Order(
    ordinary: seq<Adapter>,
    offload: Option<Adapter>,
    offloadNext: Option<OffloadReason>,
    retries: seq<Adapter>,
    retried: set<Adapter>)

  function Except(adapters: seq<Adapter>, offload: Option<Adapter>): seq<Adapter> {
    if adapters == [] then []
    else (if Some(adapters[0]) == offload then [] else [adapters[0]]) + Except(adapters[1..], offload)
  }

  function NewOrder(candidates: seq<Adapter>, offload: Option<Adapter>): Order {
    Order(Except(candidates, offload), offload, None, [], {})
  }

  /** What the walk hands out, and why. */
  datatype Handout =
    | Ordinary(adapter: Adapter)
    | Offloaded(adapter: Adapter, reason: OffloadReason)
    | Retry(adapter: Adapter)

  function NoteFailure(o: Order, f: Failure, adapter: Option<Adapter>): Order {
    var queued :=
      if adapter.Some? && AbandonedForOffload(f) && adapter.value !in o.retried
      then o.(retried := o.retried + {adapter.value}, retries := o.retries + [adapter.value])
      else o;
    if o.offload.None? || OffloadReasonFor(f).None? then queued
    else queued.(offloadNext := OffloadReasonFor(f))
  }

  function Advance(o: Order): (Order, Option<Handout>) {
    if o.offload.Some? && (o.offloadNext.Some? || o.ordinary == []) then
      (o.(offload := None, offloadNext := None),
       Some(Offloaded(o.offload.value, if o.offloadNext.Some? then o.offloadNext.value else LastResort)))
    else if o.ordinary != [] then (o.(ordinary := o.ordinary[1..]), Some(Ordinary(o.ordinary[0])))
    else if o.retries != [] then (o.(retries := o.retries[1..]), Some(Retry(o.retries[0])))
    else (o, None)
  }

  /** What a caller of the order sees: the adapter, and a reason when it is the offload route. */
  datatype Candidate = Candidate(adapter: Adapter, reason: Option<OffloadReason>)

  function AsCandidate(h: Handout): Candidate {
    Candidate(h.adapter, if h.Offloaded? then Some(h.reason) else None)
  }

  class FallbackOrder {
    var ordinary: seq<Adapter>
    var offload: Option<Adapter>
    var offloadNext: Option<OffloadReason>
    var retries: seq<Adapter>
    var retried: set<Adapter>

    function View(): Order
      reads this
    {
      Order(ordinary, offload, offloadNext, retries, retried)
    }

    constructor (candidates: seq<Adapter>, offload: Option<Adapter>)
      ensures View() == NewOrder(candidates, offload)
    {
      this.ordinary, this.offload := Except(candidates, offload), offload;
      offloadNext, retries, retried := None, [], {};
    }

    method RecordFailure(f: Failure, adapter: Option<Adapter>)
      modifies this
      ensures View() == NoteFailure(old(View()), f, adapter)
    {
      if adapter.Some? && AbandonedForOffload(f) && adapter.value !in retried {
        retried := retried + {adapter.value};
        retries := retries + [adapter.value];
      }
      if offload.None? { return; }
      var reason := OffloadReasonFor(f);
      if reason.Some? {
        offloadNext := reason;
      }
    }

    method Next() returns (candidate: Option<Candidate>)
      modifies this
      ensures var (after, handout) := Advance(old(View()));
              View() == after && candidate == if handout.None? then None else Some(AsCandidate(handout.value))
    {
      if offload.Some? && (offloadNext.Some? || ordinary == []) {
        candidate := Some(Candidate(offload.value, if offloadNext.Some? then offloadNext else Some(LastResort)));
        offload, offloadNext := None, None;
      } else if ordinary != [] {
        candidate := Some(Candidate(ordinary[0], None));
        ordinary := ordinary[1..];
      } else if retries != [] {
        candidate := Some(Candidate(retries[0], None));
        retries := retries[1..];
      } else {
        candidate := None;
      }
    }
  }

  // ----- whole walks

  /** A walk reports failures and asks for candidates in any interleaving. */
  datatype Event = Report(failure: Failure, adapter: Option<Adapter>) | Ask

  /** `handed` is everything handed out so far, `at` the number of the event that asked for each, and `steps`
      how many events there were. */
  datatype Walk = Walk(order: Order, handed: seq<Handout>, at: seq<nat>, steps: nat)

  function Begun(start: Order): Walk { Walk(start, [], [], 0) }

  function Step(w: Walk, e: Event): Walk {
    match e
    case Report(f, a) => w.(order := NoteFailure(w.order, f, a), steps := w.steps + 1)
    case Ask =>
      var (order, handout) := Advance(w.order);
      if handout.None? then w.(order := order, steps := w.steps + 1)
      else Walk(order, w.handed + [handout.value], w.at + [w.steps], w.steps + 1)
  }

  ghost function WalkAt(start: Order, run: seq<Event>, n: nat): Walk
    requires n <= |run|
  {
    if n == 0 then Begun(start) else Step(WalkAt(start, run, n - 1), run[n - 1])
  }

  function OrdinaryOnly(h: seq<Handout>): seq<Adapter> {
    if h == [] then []
    else OrdinaryOnly(h[..|h| - 1]) + if h[|h| - 1].Ordinary? then [h[|h| - 1].adapter] else []
  }

  function RetriesOnly(h: seq<Handout>): seq<Adapter> {
    if h == [] then []
    else RetriesOnly(h[..|h| - 1]) + if h[|h| - 1].Retry? then [h[|h| - 1].adapter] else []
  }

  function OffloadsOnly(h: seq<Handout>): seq<Adapter> {
    if h == [] then []
    else OffloadsOnly(h[..|h| - 1]) + if h[|h| - 1].Offloaded? then [h[|h| - 1].adapter] else []
  }

  /** An attempt on `a` was cut short among the first `n` events. */
  ghost predicate CutShort(run: seq<Event>, n: nat, a: Adapter)
    requires n <= |run|
  {
    exists i :: 0 <= i < n && CutAt(run[i], a)
  }

  /** What was handed out and what is still queued add up to what the walk started with. */
  ghost predicate RoutesAddUp(candidates: seq<Adapter>, offload: Option<Adapter>, w: Walk) {
    && OrdinaryOnly(w.handed) + w.order.ordinary == Except(candidates, offload)
    && OffloadsOnly(w.handed) + Pending(w.order.offload) == Pending(offload)
  }

  /** An attempt on `a` was cut short among the first `n` events, at one before any on `b`. */
  ghost predicate CutBefore(run: seq<Event>, n: nat, a: Adapter, b: Adapter)
    requires n <= |run|
  {
    exists i :: 0 <= i < n && CutAt(run[i], a) && !CutShort(run, i, b)
  }

  predicate CutAt(e: Event, a: Adapter) { e.Report? && e.adapter == Some(a) && AbandonedForOffload(e.failure) }

  /** Retries, handed out or queued, are exactly the routes that were cut short, once each, in the order of the cuts. */
  ghost predicate RetriesAreCutShort(run: seq<Event>, n: nat, w: Walk)
    requires n <= |run|
  {
    var again := RetriesOnly(w.handed) + w.order.retries;
    && Distinct(again)
    && (forall a :: a in again <==> a in w.order.retried)
    && (forall a :: a in again <==> CutShort(run, n, a))
    && (forall i, j :: 0 <= i < j < |again| ==> CutBefore(run, n, again[i], again[j]))
  }

  /** A retry comes after everything else, and a last-resort offload after every ordinary route. */
  ghost predicate InPlace(w: Walk) {
    && (forall i, j :: 0 <= i < j < |w.handed| && w.handed[i].Retry? ==> w.handed[j].Retry?)
    && (forall i :: 0 <= i < |w.handed| && w.handed[i].Retry? ==> w.order.ordinary == [] && w.order.offload.None?)
    && (forall i :: 0 <= i < |w.handed| && w.handed[i].Offloaded? && w.handed[i].reason == LastResort ==>
          w.order.ordinary == [])
    && (w.order.offloadNext.Some? ==> w.order.offloadNext.value != LastResort)
  }

  /** The last report before event `n` that nothing was asked after gave this reason. */
  ghost predicate JustWaited(run: seq<Event>, n: nat, reason: OffloadReason)
    requires n <= |run|
  {
    exists r :: 0 <= r < n && run[r].Report? && OffloadReasonFor(run[r].failure) == Some(reason)
                && forall i :: r < i < n ==> !run[i].Ask?
  }

  /** The offload route comes out early only directly after a too-long wait was reported. */
  ghost predicate OffloadsFollowWaits(run: seq<Event>, n: nat, w: Walk)
    requires n <= |run|
  {
    && w.steps == n && |w.at| == |w.handed|
    && (forall k :: 0 <= k < |w.at| ==> w.at[k] < n && run[w.at[k]].Ask?)
    && (forall k :: 0 <= k < |w.handed| && w.handed[k].Offloaded? && w.handed[k].reason != LastResort ==>
          JustWaited(run, w.at[k], w.handed[k].reason))
    && (w.order.offloadNext.Some? ==> w.order.offload.Some? && JustWaited(run, n, w.order.offloadNext.value))
  }

  ghost predicate WalkInvariant(candidates: seq<Adapter>, offload: Option<Adapter>, run: seq<Event>, n: nat, w: Walk)
    requires n <= |run|
  {
    RoutesAddUp(candidates, offload, w) && RetriesAreCutShort(run, n, w) && InPlace(w) && OffloadsFollowWaits(run, n, w)
  }

  lemma ExtendHanded(h: seq<Handout>, x: Handout)
    ensures OrdinaryOnly(h + [x]) == if x.Ordinary? then OrdinaryOnly(h) + [x.adapter] else OrdinaryOnly(h)
    ensures RetriesOnly(h + [x]) == if x.Retry? then RetriesOnly(h) + [x.adapter] else RetriesOnly(h)
    ensures OffloadsOnly(h + [x]) == if x.Offloaded? then OffloadsOnly(h) + [x.adapter] else OffloadsOnly(h)
  {
    assert (h + [x])[..|h|] == h;
  }

  lemma CutShortLasts(run: seq<Event>, n: nat)
    requires n < |run|
    ensures forall a :: CutShort(run, n, a) ==> CutShort(run, n + 1, a)
    ensures run[n].Ask? ==> forall a :: CutShort(run, n + 1, a) ==> CutShort(run, n, a)
    ensures forall a, b :: CutBefore(run, n, a, b) ==> CutBefore(run, n + 1, a, b)
  {
  }

  /** A route cut short for the first time comes after every route cut short before it. */
  lemma NewCutComesLast(run: seq<Event>, n: nat, again: seq<Adapter>, b: Adapter)
    requires n < |run| && !CutShort(run, n, b) && forall a :: a in again <==> CutShort(run, n, a)
    requires forall i, j :: 0 <= i < j < |again| ==> CutBefore(run, n, again[i], again[j])
    ensures forall i, j :: 0 <= i < j < |again + [b]| ==> CutBefore(run, n + 1, (again + [b])[i], (again + [b])[j])
  {
    CutShortLasts(run, n);
    forall i | 0 <= i < |again| ensures CutBefore(run, n, again[i], b) {
      assert CutShort(run, n, again[i]);
      var k :| 0 <= k < n && CutAt(run[k], again[i]);
    }
    forall i, j | 0 <= i < j < |again + [b]| ensures CutBefore(run, n + 1, (again + [b])[i], (again + [b])[j]) {
      assert CutBefore(run, n, again[i], (again + [b])[j]);
    }
  }

  lemma ReportKeepsRetries(run: seq<Event>, n: nat, w: Walk)
    requires n < |run| && run[n].Report? && RetriesAreCutShort(run, n, w)
    ensures RetriesAreCutShort(run, n + 1, Step(w, run[n]))
  {
    CutShortLasts(run, n);
    var o, after := w.order, Step(w, run[n]).order;
    var past := RetriesOnly(w.handed);
    forall a: Adapter | CutShort(run, n + 1, a) ensures CutShort(run, n, a) || run[n].adapter == Some(a) {
    }
    if after.retries != o.retries {
      var a := run[n].adapter.value;
      assert CutShort(run, n + 1, a);
      assert past + after.retries == (past + o.retries) + [a];
      assert a !in past + o.retries;
      NewCutComesLast(run, n, past + o.retries, a);
    }
  }

  lemma StepKeepsWaits(run: seq<Event>, n: nat, w: Walk)
    requires n < |run| && OffloadsFollowWaits(run, n, w)
    ensures OffloadsFollowWaits(run, n + 1, Step(w, run[n]))
  {
    var after := Step(w, run[n]);
    if run[n].Report? && after.order.offloadNext.Some? {
      var reason := after.order.offloadNext.value;
      if after.order.offloadNext == OffloadReasonFor(run[n].failure) {
        assert JustWaited(run, n + 1, reason);
      } else {
        var r :| 0 <= r < n && run[r].Report? && OffloadReasonFor(run[r].failure) == Some(reason)
                 && forall i :: r < i < n ==> !run[i].Ask?;
        assert JustWaited(run, n + 1, reason);
      }
    }
  }

  lemma ReportKeepsInvariant(candidates: seq<Adapter>, offload: Option<Adapter>, run: seq<Event>, n: nat, w: Walk)
    requires n < |run| && run[n].Report? && WalkInvariant(candidates, offload, run, n, w)
    ensures WalkInvariant(candidates, offload, run, n + 1, Step(w, run[n]))
  {
    hide RoutesAddUp, RetriesAreCutShort, InPlace, OffloadsFollowWaits;
    ReportKeepsRetries(run, n, w);
    StepKeepsWaits(run, n, w);
    ReportMovesNothing(candidates, offload, w, run[n]);
  }

  lemma ReportMovesNothing(candidates: seq<Adapter>, offload: Option<Adapter>, w: Walk, e: Event)
    requires e.Report? && RoutesAddUp(candidates, offload, w) && InPlace(w)
    ensures RoutesAddUp(candidates, offload, Step(w, e)) && InPlace(Step(w, e))
  {
  }

  /** Moving the head of what is queued to the end of what was handed out keeps their concatenation. */
  lemma Shift(past: seq<Adapter>, a: Adapter, queue: seq<Adapter>)
    requires queue != [] && queue[0] == a
    ensures past + queue == (past + [a]) + queue[1..]
  {
  }

  function Pending(offload: Option<Adapter>): seq<Adapter> { if offload.Some? then [offload.value] else [] }

  lemma AskKeepsRoutes(candidates: seq<Adapter>, offload: Option<Adapter>, w: Walk)
    requires RoutesAddUp(candidates, offload, w)
    ensures RoutesAddUp(candidates, offload, Step(w, Ask))
  {
    hide Except, OrdinaryOnly, OffloadsOnly;
    var (o, handout) := Advance(w.order);
    if handout.Some? {
      var h := handout.value;
      ExtendHanded(w.handed, h);
      if h.Ordinary? {
        Shift(OrdinaryOnly(w.handed), h.adapter, w.order.ordinary);
      } else if h.Offloaded? {
        Shift(OffloadsOnly(w.handed), h.adapter, Pending(w.order.offload));
      }
    }
  }

  /** Handing out a retry only moves it from the queue to what was handed out. */
  lemma AskMovesRetry(w: Walk)
    ensures var after := Step(w, Ask);
            && RetriesOnly(after.handed) + after.order.retries == RetriesOnly(w.handed) + w.order.retries
            && after.order.retried == w.order.retried
  {
    var (o, handout) := Advance(w.order);
    if handout.Some? {
      var h := handout.value;
      ExtendHanded(w.handed, h);
      if h.Retry? {
        Shift(RetriesOnly(w.handed), h.adapter, w.order.retries);
      }
    }
  }

  lemma AskKeepsRetries(run: seq<Event>, n: nat, w: Walk)
    requires n < |run| && run[n].Ask? && RetriesAreCutShort(run, n, w)
    ensures RetriesAreCutShort(run, n + 1, Step(w, Ask))
  {
    CutShortLasts(run, n);
    AskMovesRetry(w);
  }

  lemma AskKeepsInvariant(candidates: seq<Adapter>, offload: Option<Adapter>, run: seq<Event>, n: nat, w: Walk)
    requires n < |run| && run[n].Ask? && WalkInvariant(candidates, offload, run, n, w)
    ensures WalkInvariant(candidates, offload, run, n + 1, Step(w, run[n]))
  {
    hide RoutesAddUp, RetriesAreCutShort, OffloadsFollowWaits;
    StepKeepsWaits(run, n, w);
    AskKeepsRoutes(candidates, offload, w);
    AskKeepsRetries(run, n, w);
  }

  lemma FreshWalkKeepsOrder(candidates: seq<Adapter>, offload: Option<Adapter>, run: seq<Event>)
    ensures WalkInvariant(candidates, offload, run, 0, Begun(NewOrder(candidates, offload)))
  {
  }

  /** Over any walk: ordinary routes come out once each in route order; the offload route at most once, directly
      after a reported too-long wait or else after every ordinary route; and a route again at most once, exactly
      if it was cut short and only after everything else. */
  lemma {:induction false} WalkKeepsOrder(candidates: seq<Adapter>, offload: Option<Adapter>, run: seq<Event>, n: nat)
    requires n <= |run|
    ensures WalkInvariant(candidates, offload, run, n, WalkAt(NewOrder(candidates, offload), run, n))
  {
    hide RoutesAddUp, RetriesAreCutShort, InPlace, OffloadsFollowWaits;
    var i, w := 0, Begun(NewOrder(candidates, offload));
    FreshWalkKeepsOrder(candidates, offload, run);
    while i < n
      invariant i <= n && w == WalkAt(NewOrder(candidates, offload), run, i)
      invariant WalkInvariant(candidates, offload, run, i, w)
    {
      EventKeepsInvariant(candidates, offload, run, i, w);
      i, w := i + 1, Step(w, run[i]);
    }
  }

  lemma CutsExtend(run: seq<Event>, e: Event, n: nat)
    requires n <= |run|
    ensures forall a :: CutShort(run, n, a) <==> CutShort(run + [e], n, a)
  {
    assert forall i :: 0 <= i < |run| ==> (run + [e])[i] == run[i];
  }

  lemma RetriesExtend(run: seq<Event>, e: Event, w: Walk)
    requires RetriesAreCutShort(run, |run|, w)
    ensures RetriesAreCutShort(run + [e], |run|, w)
  {
    hide CutShort, CutAt, RetriesOnly;
    CutsExtend(run, e, |run|);
    forall a, b | CutBefore(run, |run|, a, b) ensures CutBefore(run + [e], |run|, a, b) {
      var i :| 0 <= i < |run| && CutAt(run[i], a) && !CutShort(run, i, b);
      CutsExtend(run, e, i);
      assert (run + [e])[i] == run[i];
    }
  }

  lemma WaitExtends(run: seq<Event>, e: Event, n: nat, reason: OffloadReason)
    requires n <= |run| && JustWaited(run, n, reason)
    ensures JustWaited(run + [e], n, reason)
  {
    var longer := run + [e];
    assert forall i :: 0 <= i < |run| ==> longer[i] == run[i];
    var r :| 0 <= r < n && run[r].Report? && OffloadReasonFor(run[r].failure) == Some(reason)
             && forall i :: r < i < n ==> !run[i].Ask?;
    assert longer[r] == run[r];
  }

  lemma WaitsExtend(run: seq<Event>, e: Event, w: Walk)
    requires OffloadsFollowWaits(run, |run|, w)
    ensures OffloadsFollowWaits(run + [e], |run|, w)
  {
    hide JustWaited;
    assert forall i :: 0 <= i < |run| ==> (run + [e])[i] == run[i];
    forall n: nat, reason | n <= |run| && JustWaited(run, n, reason) ensures JustWaited(run + [e], n, reason) {
      WaitExtends(run, e, n, reason);
    }
  }

  /** The invariant looks only at the events already taken. */
  lemma InvariantExtends(candidates: seq<Adapter>, offload: Option<Adapter>, run: seq<Event>, e: Event, w: Walk)
    requires WalkInvariant(candidates, offload, run, |run|, w)
    ensures WalkInvariant(candidates, offload, run + [e], |run|, w)
  {
    hide RoutesAddUp, RetriesAreCutShort, InPlace, OffloadsFollowWaits;
    RetriesExtend(run, e, w);
    WaitsExtend(run, e, w);
  }

  lemma StepKeepsInvariant(candidates: seq<Adapter>, offload: Option<Adapter>, run: seq<Event>, e: Event, w: Walk)
    requires WalkInvariant(candidates, offload, run, |run|, w)
    ensures WalkInvariant(candidates, offload, run + [e], |run| + 1, Step(w, e))
  {
    InvariantExtends(candidates, offload, run, e, w);
    EventKeepsInvariant(candidates, offload, run + [e], |run|, w);
  }

  lemma EventKeepsInvariant(candidates: seq<Adapter>, offload: Option<Adapter>, run: seq<Event>, n: nat, w: Walk)
    requires n < |run| && WalkInvariant(candidates, offload, run, n, w)
    ensures WalkInvariant(candidates, offload, run, n + 1, Step(w, run[n]))
  {
    if run[n].Report? {
      ReportKeepsInvariant(candidates, offload, run, n, w);
    } else {
      AskKeepsInvariant(candidates, offload, run, n, w);
    }
  }

  lemma {:induction false} Listed(h: seq<Handout>, i: nat)
    requires i < |h|
    ensures h[i].Ordinary? ==> h[i].adapter in OrdinaryOnly(h)
    ensures h[i].Offloaded? ==> h[i].adapter in OffloadsOnly(h)
    ensures h[i].Retry? ==> h[i].adapter in RetriesOnly(h)
  {
    if i < |h| - 1 {
      Listed(h[..|h| - 1], i);
    }
  }

  lemma {:induction false} SameKindDiffers(h: seq<Handout>, i: nat, j: nat)
    requires i < j < |h| && Distinct(OrdinaryOnly(h)) && Distinct(OffloadsOnly(h)) && Distinct(RetriesOnly(h))
    requires (h[i].Ordinary? && h[j].Ordinary?) || (h[i].Offloaded? && h[j].Offloaded?) || (h[i].Retry? && h[j].Retry?)
    ensures h[i].adapter != h[j].adapter
  {
    var front, last := h[..|h| - 1], h[|h| - 1];
    if j < |h| - 1 {
      DistinctFront(OrdinaryOnly(front), OrdinaryOnly(h));
      DistinctFront(OffloadsOnly(front), OffloadsOnly(h));
      DistinctFront(RetriesOnly(front), RetriesOnly(h));
      SameKindDiffers(front, i, j);
    } else {
      Listed(front, i);
      NotRepeated(OrdinaryOnly(front), last.adapter);
      NotRepeated(OffloadsOnly(front), last.adapter);
      NotRepeated(RetriesOnly(front), last.adapter);
    }
  }

  lemma DistinctFront(front: seq<Adapter>, whole: seq<Adapter>)
    requires front <= whole && Distinct(whole)
    ensures Distinct(front)
  {
  }

  lemma NotRepeated(s: seq<Adapter>, a: Adapter)
    ensures Distinct(s + [a]) ==> a !in s
  {
    if a in s {
      var i :| 0 <= i < |s| && s[i] == a;
      assert (s + [a])[i] == (s + [a])[|s|];
    }
  }

  lemma {:induction false} ExceptIsDistinct(candidates: seq<Adapter>, offload: Option<Adapter>)
    requires Distinct(candidates)
    ensures Distinct(Except(candidates, offload))
    ensures forall a :: a in Except(candidates, offload) <==> a in candidates && Some(a) != offload
  {
    if candidates != [] {
      ExceptIsDistinct(candidates[1..], offload);
    }
  }

  /** A route comes out of a walk a second time only as the retry of an attempt, and never a third time. */
  lemma RepeatIsRetry(candidates: seq<Adapter>, offload: Option<Adapter>, run: seq<Event>, n: nat, w: Walk, i: nat,
                      j: nat)
    requires n <= |run| && WalkInvariant(candidates, offload, run, n, w) && Distinct(candidates)
    requires i < j < |w.handed| && w.handed[i].adapter == w.handed[j].adapter
    ensures w.handed[j].Retry? && !w.handed[i].Retry?
  {
    ExceptIsDistinct(candidates, offload);
    DistinctFront(OrdinaryOnly(w.handed), Except(candidates, offload));
    DistinctFront(OffloadsOnly(w.handed), Pending(offload));
    DistinctFront(RetriesOnly(w.handed), RetriesOnly(w.handed) + w.order.retries);
    Listed(w.handed, i);
    Listed(w.handed, j);
    var x, y := w.handed[i], w.handed[j];
    if (x.Ordinary? && y.Ordinary?) || (x.Offloaded? && y.Offloaded?) || (x.Retry? && y.Retry?) {
      SameKindDiffers(w.handed, i, j);
    }
  }

  /** The offload route follows directly on a too-long wait: between the report and the next request for a
      candidate nothing else can come first. */
  lemma OffloadFollowsLongWait(start: Order, run: seq<Event>, n: nat, m: nat)
    requires n < m < |run| && run[n].Report? && OffloadReasonFor(run[n].failure).Some?
    requires WalkAt(start, run, n).order.offload.Some?
    requires (forall i :: n < i < m ==> run[i].Report?) && run[m].Ask?
    ensures var a := WalkAt(start, run, n).order.offload.value;
            exists reason :: reason != LastResort && WalkAt(start, run, m + 1).handed == WalkAt(start, run,
                m).handed + [Offloaded(a, reason)]
  {
    PendingUntilAsked(start, run, n, m);
    var o := WalkAt(start, run, m).order;
    assert WalkAt(start, run, m + 1).handed == WalkAt(start, run,
                                                      m).handed + [Offloaded(o.offload.value, o.offloadNext.value)];
  }

  lemma {:induction false} PendingUntilAsked(start: Order, run: seq<Event>, n: nat, m: nat)
    requires n < m <= |run| && run[n].Report? && OffloadReasonFor(run[n].failure).Some?
    requires WalkAt(start, run, n).order.offload.Some?
    requires forall i :: n < i < m ==> run[i].Report?
    ensures var o := WalkAt(start, run, m).order;
            o.offload == WalkAt(start, run, n).order.offload && o.offloadNext.Some? && o.offloadNext.value != LastResort
  {
    if m > n + 1 {
      PendingUntilAsked(start, run, n, m - 1);
    }
  }

  // ----- termination

  /** What is left to hand out, counting every route that could still be queued for its one retry. */
  function Remaining(o: Order, universe: set<Adapter>): nat {
    |o.ordinary| + (if o.offload.Some? then 1 else 0) + |o.retries| + |universe - o.retried|
  }

  /** Asking consumes one unit of the measure, reporting never adds one. */
  lemma StepConsumes(w: Walk, e: Event, universe: set<Adapter>)
    requires e.Report? && e.adapter.Some? ==> e.adapter.value in universe
    ensures var after := Step(w, e);
            Remaining(after.order, universe) + |after.handed| <= Remaining(w.order, universe) + |w.handed|
  {
    if e.Report? {
      var o, after := w.order, NoteFailure(w.order, e.failure, e.adapter);
      if after.retried != o.retried {
        var a := e.adapter.value;
        assert universe - o.retried == (universe - after.retried) + {a};
      }
    }
  }

  /** So however a walk goes, it hands out no more than its routes plus one retry for each. */
  lemma {:induction false} WalkIsBounded(start: Order, run: seq<Event>, n: nat, universe: set<Adapter>)
    requires n <= |run|
    requires forall i :: 0 <= i < |run| && run[i].Report? && run[i].adapter.Some? ==> run[i].adapter.value in universe
    ensures |WalkAt(start, run, n).handed| + Remaining(WalkAt(start, run, n).order, universe)
         <= Remaining(start, universe)
  {
    if n > 0 {
      WalkIsBounded(start, run, n - 1, universe);
      StepConsumes(WalkAt(start, run, n - 1), run[n - 1], universe);
    }
  }
}

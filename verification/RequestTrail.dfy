/** The fallback walk behind a request's log: why the next candidate is justified, and what an ended walk saw. */
module RequestTrail {
  import opened Options
  import opened Identifiers
  import opened Failures
  import opened EndpointHealth
  import opened Gateway
  import opened Selection
  import opened FallbackWalk
  import opened Attempts
  import opened Requests
  import opened RequestLog

  datatype Trail = Trail(run: seq<Event>, walk: Walk)

  /** The log is the primary and then everything the walk handed out, in its order. */
  ghost predicate Matches(p: Plan, w: Walk, log: seq<Entry>) {
    && |log| == |w.handed| + 1 && log[0].handout == Ordinary(p.primary)
    && (forall i :: 0 <= i < |w.handed| ==> log[i + 1].handout == w.handed[i])
  }

  ghost predicate ReportedAs(e: Event, x: Entry) {
    e.Report? && e.adapter == Some(x.handout.adapter) && Failed(x) && x.result.failure == e.failure
  }

  /** Whatever the walk was told failed is an attempt of the log that failed that way. */
  ghost predicate Heard(run: seq<Event>, log: seq<Entry>) {
    forall k :: 0 <= k < |run| && run[k].Report? ==> exists i :: 0 <= i < |log| && ReportedAs(run[k], log[i])
  }

  /** Every failed attempt was reported. */
  ghost predicate Told(run: seq<Event>, log: seq<Entry>) {
    forall i :: 0 <= i < |log| && Failed(log[i]) ==> exists k :: 0 <= k < |run| && ReportedAs(run[k], log[i])
  }

  /** Every adapter the walk can still hand out, or has, is in the plan or the primary. */
  ghost predicate FromPlan(p: Plan, w: Walk) {
    && (forall a :: a in w.order.ordinary ==> InPlan(p, a))
    && (forall a :: a in w.order.retries ==> InPlan(p, a) || a == p.primary)
    && (w.order.offload.Some? ==> InPlan(p, w.order.offload.value))
    && (forall i :: 0 <= i < |w.handed| ==> InPlan(p, w.handed[i].adapter) || w.handed[i].adapter == p.primary)
  }

  ghost predicate OnTrail(c: Case, t: Trail, log: seq<Entry>) {
    var p := PlanOf(c);
    && MayFall(c.request) && GoodPlan(p) && WalkInvariant(p.ordinary, p.offload, t.run, |t.run|, t.walk)
    && Matches(p, t.walk, log) && Heard(t.run, log) && FromPlan(p, t.walk)
    && t.walk.order.offload == OffloadPending(c, log)
  }

  /** The walk has heard of every failure, and knows whether the last one was a too-long wait. */
  ghost predicate CaughtUp(c: Case, t: Trail, log: seq<Entry>) {
    && OnTrail(c, t, log) && Told(t.run, log)
    && (t.walk.order.offload.Some? ==> t.walk.order.offloadNext == LastWaited(log))
  }

  // ----- events

  ghost function Began(c: Case): Trail { Trail([], Begun(NewOrder(PlanOf(c).ordinary, PlanOf(c).offload))) }

  lemma PrimaryOfPlan(c: Case)
    ensures PlanOf(c).primary == c.primary.adapter
  {
  }

  lemma TrailBegins(c: Case, first: Entry)
    requires MayFall(c.request) && DistinctRoutes(c.routes) && first.handout == Ordinary(c.primary.adapter)
    ensures OnTrail(c, Began(c), [first])
  {
    hide WalkInvariant, Except, MayServe, PlanOf;
    var p := PlanOf(c);
    PlanHoldsRoutes(c);
    assert p.primary == c.primary.adapter by { PrimaryOfPlan(c); }
    ExceptIsDistinct(p.ordinary, p.offload);
    FreshWalkKeepsOrder(p.ordinary, p.offload, []);
    FrontOf([], first);
    assert [] + [first] == [first];
    assert OffloadPending(c, [first]) == OffloadPending(c, []);
    assert FromPlan(p, Began(c).walk);
    assert Matches(p, Began(c).walk, [first]);
    assert Heard([], [first]);
    assert GoodPlan(p);
  }

  ghost function Asking(t: Trail): Trail { Trail(t.run + [Ask], Step(t.walk, Ask)) }

  lemma HeardLasts(run: seq<Event>, log: seq<Entry>, x: Entry)
    requires Heard(run, log)
    ensures Heard(run + [Ask], log + [x])
  {
    forall k | 0 <= k < |run + [Ask]| && (run + [Ask])[k].Report?
      ensures exists i :: 0 <= i < |log + [x]| && ReportedAs((run + [Ask])[k], (log + [x])[i])
    {
      var i :| 0 <= i < |log| && ReportedAs(run[k], log[i]);
      assert (log + [x])[i] == log[i];
    }
  }

  lemma PlanLasts(p: Plan, w: Walk)
    requires FromPlan(p, w)
    ensures FromPlan(p, Step(w, Ask))
  {
  }

  /** Asking for a candidate and entering what became of it. */
  lemma TrailAsks(c: Case, t: Trail, log: seq<Entry>, x: Entry)
    requires OnTrail(c, t, log) && Advance(t.walk.order).1 == Some(x.handout)
    ensures OnTrail(c, Asking(t), log + [x])
  {
    hide WalkInvariant, Heard, FromPlan, GoodPlan, PlanOf;
    var p := PlanOf(c);
    StepKeepsInvariant(p.ordinary, p.offload, t.run, Ask, t.walk);
    HeardLasts(t.run, log, x);
    PlanLasts(p, t.walk);
    FrontOf(log, x);
  }

  ghost function Telling(t: Trail, x: Entry): Trail
    requires Failed(x)
  {
    var e := Report(x.result.failure, Some(x.handout.adapter));
    Trail(t.run + [e], Step(t.walk, e))
  }

  /** Reporting the failure of the last attempt. */
  lemma TrailTells(c: Case, t: Trail, log: seq<Entry>)
    requires OnTrail(c, t, log) && log != [] && Failed(Last(log)) && Told(t.run, Front(log))
    requires t.walk.order.offload.Some? ==> t.walk.order.offloadNext.None?
    ensures CaughtUp(c, Telling(t, Last(log)), log)
  {
    hide WalkInvariant, FromPlan, GoodPlan, PlanOf, Heard, Told;
    var p, x := PlanOf(c), Last(log);
    var e := Report(x.result.failure, Some(x.handout.adapter));
    StepKeepsInvariant(p.ordinary, p.offload, t.run, e, t.walk);
    StillHeard(t.run, log, e, |log| - 1);
    NowTold(t.run, log, e);
    NotingKeepsPlan(p, t.walk, log, x.result.failure);
  }

  lemma StillHeard(run: seq<Event>, log: seq<Entry>, e: Event, i: nat)
    requires Heard(run, log) && i < |log| && ReportedAs(e, log[i])
    ensures Heard(run + [e], log)
  {
    hide ReportedAs;
    var longer := run + [e];
    forall k | 0 <= k < |longer| && longer[k].Report?
      ensures exists i :: 0 <= i < |log| && ReportedAs(longer[k], log[i])
    {
      if k < |run| {
        assert longer[k] == run[k];
      } else {
        assert ReportedAs(longer[k], log[i]);
      }
    }
  }

  lemma NowTold(run: seq<Event>, log: seq<Entry>, e: Event)
    requires log != [] && ReportedAs(e, Last(log)) && Told(run, Front(log))
    ensures Told(run + [e], log)
  {
    hide ReportedAs, Failed;
    var longer := run + [e];
    assert longer[|run|] == e;
    forall i | 0 <= i < |log| && Failed(log[i]) ensures exists k :: 0 <= k < |longer| && ReportedAs(longer[k], log[i]) {
      if i < |log| - 1 {
        assert Front(log)[i] == log[i];
        var k :| 0 <= k < |run| && ReportedAs(run[k], log[i]);
        assert longer[k] == run[k];
      }
    }
  }

  lemma NotingKeepsPlan(p: Plan, w: Walk, log: seq<Entry>, f: Failure)
    requires FromPlan(p, w) && Matches(p, w, log)
    ensures FromPlan(p, Step(w, Report(f, Some(log[|log| - 1].handout.adapter))))
  {
    if |log| > 1 {
      assert log[|log| - 1].handout == w.handed[|log| - 2];
    }
  }

  lemma ToldUntilAsked(run: seq<Event>, log: seq<Entry>)
    requires Told(run, log)
    ensures Told(run + [Ask], log)
  {
    hide ReportedAs, Failed;
    forall i | 0 <= i < |log| && Failed(log[i])
      ensures exists k :: 0 <= k < |run + [Ask]| && ReportedAs((run + [Ask])[k], log[i])
    {
      var k :| 0 <= k < |run| && ReportedAs(run[k], log[i]);
      assert (run + [Ask])[k] == run[k];
    }
  }

  lemma ToldOfMore(run: seq<Event>, log: seq<Entry>, x: Entry)
    requires Told(run, log) && !Failed(x)
    ensures Told(run, log + [x])
  {
    hide ReportedAs, Failed;
    forall i | 0 <= i < |log + [x]| && Failed((log + [x])[i])
      ensures exists k :: 0 <= k < |run| && ReportedAs(run[k], (log + [x])[i])
    {
      assert (log + [x])[i] == log[i];
    }
  }

  /** An entry that is no failed attempt has nothing to report. */
  lemma NothingToTell(c: Case, t: Trail, log: seq<Entry>, x: Entry)
    requires CaughtUp(c, t, log) && OnTrail(c, Asking(t), log + [x]) && !Failed(x)
    requires Advance(t.walk.order).1 == Some(x.handout)
    ensures CaughtUp(c, Asking(t), log + [x])
  {
    hide OnTrail, Told, Failed;
    ToldUntilAsked(t.run, log);
    ToldOfMore(t.run + [Ask], log, x);
    FrontOf(log, x);
    PendingIs(c, t, log);
  }

  // ----- the next candidate is justified

  lemma {:induction false} PositionExists(h: seq<Handout>, a: Adapter)
    requires a in OrdinaryOnly(h) || a in OffloadsOnly(h)
    ensures exists k :: 0 <= k < |h| && h[k].adapter == a
  {
    if h[|h| - 1].adapter != a {
      PositionExists(h[..|h| - 1], a);
      var k :| 0 <= k < |h| - 1 && h[..|h| - 1][k].adapter == a;
      assert h[k].adapter == a;
    }
  }

  lemma {:induction false} RetryPosition(h: seq<Handout>, a: Adapter)
    requires a in RetriesOnly(h)
    ensures exists k :: 0 <= k < |h| && h[k] == Retry(a)
  {
    if h[|h| - 1] != Retry(a) {
      RetryPosition(h[..|h| - 1], a);
      var k :| 0 <= k < |h| - 1 && h[..|h| - 1][k] == Retry(a);
      assert h[k] == Retry(a);
    }
  }

  /** A route whose adapter was handed out has its entry. */
  lemma HandedIsSeen(c: Case, t: Trail, log: seq<Entry>, y: Route)
    requires OnTrail(c, t, log) && Disciplined(c, log) && DistinctRoutes(c.routes) && MayServe(c, y)
    requires y.adapter in OrdinaryOnly(t.walk.handed) || y.adapter in OffloadsOnly(t.walk.handed)
    ensures Seen(log, y)
  {
    hide WalkInvariant, Disciplined, Heard, FromPlan;
    PositionExists(t.walk.handed, y.adapter);
    var k :| 0 <= k < |t.walk.handed| && t.walk.handed[k].adapter == y.adapter;
    DisciplinedAt(c, log, k + 1);
    SameAdapterSameRoute(c.routes, y, log[k + 1].route);
  }

  /** With no ordinary route queued, every route that may serve has been seen, the pending offload route aside. */
  lemma OrdinariesAreSeen(c: Case, t: Trail, log: seq<Entry>, y: Route)
    requires OnTrail(c, t, log) && Disciplined(c, log) && DistinctRoutes(c.routes) && MayServe(c, y)
    requires t.walk.order.ordinary == [] && t.walk.order.offload != Some(y.adapter)
    ensures Seen(log, y)
  {
    hide Disciplined, Heard, FromPlan, RetriesAreCutShort, InPlace, OffloadsFollowWaits, OffloadPending;
    var p := PlanOf(c);
    PlanHoldsRoutes(c);
    assert InPlan(p, y.adapter);
    AllHanded(p, t.walk, y.adapter);
    HandedIsSeen(c, t, log, y);
  }

  lemma AllHanded(p: Plan, w: Walk, a: Adapter)
    requires Distinct(p.ordinary) && RoutesAddUp(p.ordinary, p.offload, w) && InPlan(p, a)
    requires w.order.ordinary == [] && w.order.offload != Some(a)
    ensures a in OrdinaryOnly(w.handed) || a in OffloadsOnly(w.handed)
  {
    ExceptIsDistinct(p.ordinary, p.offload);
    assert OrdinaryOnly(w.handed) + [] == OrdinaryOnly(w.handed);
    if p.offload == Some(a) {
      assert a in OffloadsOnly(w.handed) + Pending(w.order.offload);
    } else {
      assert a in Except(p.ordinary, p.offload);
    }
  }

  lemma HandedFromPlan(p: Plan, w: Walk)
    requires Distinct(p.ordinary) && RoutesAddUp(p.ordinary, p.offload, w)
    ensures forall a :: a in OrdinaryOnly(w.handed) ==> a in p.ordinary && p.offload != Some(a)
    ensures forall a :: a in OffloadsOnly(w.handed) ==> p.offload == Some(a)
  {
    ExceptIsDistinct(p.ordinary, p.offload);
    assert forall a :: a in OrdinaryOnly(w.handed) ==> a in OrdinaryOnly(w.handed) + w.order.ordinary;
    assert forall a :: a in OffloadsOnly(w.handed) ==> a in OffloadsOnly(w.handed) + Pending(w.order.offload);
  }

  lemma PrimaryOnlyRetried(p: Plan, w: Walk, k: nat)
    requires GoodPlan(p) && RoutesAddUp(p.ordinary, p.offload, w) && k < |w.handed| && w.handed[k].adapter == p.primary
    ensures w.handed[k].Retry?
  {
    HandedFromPlan(p, w);
    Listed(w.handed, k);
  }

  /** The next handout, after the walk has moved. */
  ghost predicate Next(t: Trail, h: Handout) { Advance(t.walk.order).1 == Some(h) }

  /** A route handed out before comes only as a retry, once. */
  lemma NextRepeats(c: Case, t: Trail, log: seq<Entry>, h: Handout, i: nat)
    requires OnTrail(c, t, log) && Next(t, h) && i < |log| && log[i].handout.adapter == h.adapter
    ensures h.Retry? && !log[i].handout.Retry?
  {
    hide Heard, FromPlan, OffloadPending, PlanOf, RetriesAreCutShort, InPlace, OffloadsFollowWaits, RoutesAddUp;
    var p, after := PlanOf(c), Asking(t);
    StepKeepsInvariant(p.ordinary, p.offload, t.run, Ask, t.walk);
    var n := |t.walk.handed|;
    assert after.walk.handed[n] == h;
    if i == 0 {
      PrimaryOnlyRetried(p, after.walk, n);
    } else {
      assert after.walk.handed[i - 1] == log[i].handout;
      RepeatIsRetry(p.ordinary, p.offload, after.run, |after.run|, after.walk, i - 1, n);
    }
  }

  /** A retry comes after everything else. */
  lemma NextIsLate(c: Case, t: Trail, log: seq<Entry>, h: Handout, i: nat)
    requires OnTrail(c, t, log) && Next(t, h) && i < |log| && log[i].handout.Retry?
    ensures h.Retry?
  {
    hide Heard, FromPlan, OffloadPending, PlanOf, RetriesAreCutShort, OffloadsFollowWaits, RoutesAddUp;
    assert log[i].handout == t.walk.handed[i - 1];
  }

  /** A retry's route was cut short by an earlier attempt. */
  lemma NextWasCut(c: Case, t: Trail, log: seq<Entry>, h: Handout) returns (i: nat)
    requires OnTrail(c, t, log) && Next(t, h) && h.Retry?
    ensures i < |log| && WasCutShort(log[i]) && log[i].handout.adapter == h.adapter
  {
    hide FromPlan, OffloadPending, PlanOf, InPlace, OffloadsFollowWaits, RoutesAddUp, Matches;
    assert h.adapter in RetriesOnly(t.walk.handed) + t.walk.order.retries;
    assert CutShort(t.run, |t.run|, h.adapter);
    var k :| 0 <= k < |t.run| && t.run[k].Report? && t.run[k].adapter == Some(h.adapter)
        && AbandonedForOffload(t.run[k].failure);
    i :| 0 <= i < |log| && ReportedAs(t.run[k], log[i]);
  }

  lemma NextRetryInTurn(c: Case, t: Trail, log: seq<Entry>, x: Entry)
    requires CaughtUp(c, t, log) && Next(t, x.handout) && Disciplined(c, log) && DistinctRoutes(c.routes)
    ensures RetryInTurn(c, log, x)
  {
    hide OnTrail, Disciplined, MayServe, Seen, WasCutShort;
    var h := x.handout;
    forall i | 0 <= i < |log| && log[i].handout.adapter == h.adapter ensures h.Retry? && !log[i].handout.Retry? {
      NextRepeats(c, t, log, h, i);
    }
    if !h.Retry? {
      if i :| 0 <= i < |log| && log[i].handout.Retry? {
        NextIsLate(c, t, log, h, i);
      }
    } else {
      var i := NextWasCut(c, t, log, h);
      PendingIs(c, t, log);
      forall y | MayServe(c, y) ensures Seen(log, y) {
        OrdinariesAreSeen(c, t, log, y);
      }
    }
  }

  /** An ordinary handout stands in the list of all of them. */
  lemma {:induction false} OrdinaryPlace(h: seq<Handout>, i: nat) returns (k: nat)
    requires i < |h| && h[i].Ordinary?
    ensures k < |OrdinaryOnly(h)| && OrdinaryOnly(h)[k] == h[i].adapter
  {
    var last := |h| - 1;
    if i == last {
      k := |OrdinaryOnly(h)| - 1;
    } else {
      k := OrdinaryPlace(h[..last], i);
    }
  }

  lemma NextIsDeclared(c: Case, t: Trail, log: seq<Entry>, x: Entry)
    requires OnTrail(c, t, log) && Next(t, x.handout) && DistinctRoutes(c.routes) && Disciplined(c, log)
    requires x.route.adapter == x.handout.adapter
    ensures DeclaredInTurn(c, log, x)
  {
    hide Heard, FromPlan, OffloadPending, PlanOf, RetriesAreCutShort, InPlace, OffloadsFollowWaits, Except, Disciplined;
    if x.handout.Ordinary? {
      var p, h := PlanOf(c), t.walk.handed;
      PlanKeepsOrder(c);
      var all, past := Except(p.ordinary, p.offload), OrdinaryOnly(h);
      assert all == past + t.walk.order.ordinary;
      assert all[|past|] == x.handout.adapter;
      forall i, p, q | 0 < i < |log| && log[i].handout.Ordinary? && 0 <= p < |c.routes| && 0 <= q < |c.routes|
                       && c.routes[p] == log[i].route && c.routes[q] == x.route
        ensures p < q
      {
        assert log[i].handout == h[i - 1];
        RouteOfEntry(c, log, i);
        var k := OrdinaryPlace(h, i - 1);
        assert all[k] == c.routes[p].adapter;
      }
    }
  }

  lemma RouteOfEntry(c: Case, log: seq<Entry>, i: nat)
    requires Disciplined(c, log) && i < |log|
    ensures log[i].route.adapter == log[i].handout.adapter
  {
    DisciplinedAt(c, log, i);
  }

  lemma PendingIs(c: Case, t: Trail, log: seq<Entry>)
    requires OnTrail(c, t, log)
    ensures t.walk.order.offload == OffloadPending(c, log)
    ensures t.walk.order.offloadNext.Some? ==>
              t.walk.order.offloadNext.value != LastResort && t.walk.order.offload.Some?
  {
  }

  lemma NextOffloadInTurn(c: Case, t: Trail, log: seq<Entry>, x: Entry)
    requires CaughtUp(c, t, log) && Next(t, x.handout) && Disciplined(c, log) && DistinctRoutes(c.routes)
    ensures OffloadInTurn(c, log, x)
  {
    hide OnTrail, Disciplined, MayServe, Seen, LastWaited, OffloadPending;
    PendingIs(c, t, log);
    var h := x.handout;
    if h.Offloaded? && h.reason == LastResort {
      forall y | MayServe(c, y) && y.adapter != h.adapter ensures Seen(log, y) {
        OrdinariesAreSeen(c, t, log, y);
      }
    } else if h.Ordinary? {
      OrdinaryIsNotPending(c, t, log, h.adapter);
    }
  }

  lemma OrdinaryIsNotPending(c: Case, t: Trail, log: seq<Entry>, a: Adapter)
    requires OnTrail(c, t, log) && a in t.walk.order.ordinary
    ensures OffloadPending(c, log) != Some(a)
  {
    hide Heard, FromPlan, Matches, RetriesAreCutShort, InPlace, OffloadsFollowWaits;
    var p := PlanOf(c);
    ExceptIsDistinct(p.ordinary, p.offload);
    assert a in OrdinaryOnly(t.walk.handed) + t.walk.order.ordinary;
    PendingFromPlan(p, t.walk);
  }

  lemma PendingFromPlan(p: Plan, w: Walk)
    requires RoutesAddUp(p.ordinary, p.offload, w)
    ensures w.order.offload.Some? ==> w.order.offload == p.offload
  {
    if w.order.offload.Some? {
      assert w.order.offload.value in OffloadsOnly(w.handed) + Pending(w.order.offload);
    }
  }

  /** The route a handout names may serve, or is the primary's for a retry. */
  lemma NextIsRouted(c: Case, t: Trail, log: seq<Entry>, h: Handout, x: Route)
    requires OnTrail(c, t, log) && Next(t, h) && DistinctRoutes(c.routes) && c.primary in c.routes
    requires x in c.routes && x.adapter == h.adapter
    ensures MayServe(c, x) || (x == c.primary && h.Retry?)
  {
    hide Heard, RetriesAreCutShort, InPlace, OffloadsFollowWaits, OffloadPending;
    var p := PlanOf(c);
    PlanHoldsRoutes(c);
    if h.adapter == p.primary {
      SameAdapterSameRoute(c.routes, x, c.primary);
      NextRepeats(c, t, log, h, 0);
    } else {
      assert InPlan(p, h.adapter);
      var y :| MayServe(c, y) && y.adapter == h.adapter;
      SameAdapterSameRoute(c.routes, x, y);
    }
  }

  lemma NextInRoutes(c: Case, t: Trail, log: seq<Entry>, h: Handout)
    requires OnTrail(c, t, log) && Next(t, h) && DistinctRoutes(c.routes) && c.primary in c.routes
    ensures h.adapter in AdaptersOf(c.routes)
  {
    hide Heard, RetriesAreCutShort, InPlace, OffloadsFollowWaits, OffloadPending, RoutesAddUp;
    PlanHoldsRoutes(c);
    if h.adapter != c.primary.adapter {
      assert InPlan(PlanOf(c), h.adapter);
      var y :| MayServe(c, y) && y.adapter == h.adapter;
    }
  }

  // ----- a walk that ended

  lemma EndedSawAll(c: Case, t: Trail, log: seq<Entry>)
    requires CaughtUp(c, t, log) && Disciplined(c, log) && DistinctRoutes(c.routes) && Advance(t.walk.order).1.None?
    ensures NothingLeft(c, log)
  {
    hide OnTrail, Disciplined, MayServe, Seen, WasCutShort, LastWaited;
    forall y | MayServe(c, y) ensures Seen(log, y) {
      OrdinariesAreSeen(c, t, log, y);
    }
    forall i | 0 <= i < |log| && WasCutShort(log[i]) && !log[i].handout.Retry?
      ensures exists j :: i < j < |log| && log[j].handout == Retry(log[i].handout.adapter)
    {
      var j := CutWasRetried(c, t, log, i);
    }
  }

  lemma CutWasRetried(c: Case, t: Trail, log: seq<Entry>, i: nat) returns (j: nat)
    requires CaughtUp(c, t, log) && Disciplined(c, log) && Advance(t.walk.order).1.None?
    requires i < |log| && WasCutShort(log[i]) && !log[i].handout.Retry?
    ensures i < j < |log| && log[j].handout == Retry(log[i].handout.adapter)
  {
    hide Disciplined, Heard, FromPlan, InPlace, OffloadsFollowWaits, OffloadPending, LastWaited, RoutesAddUp;
    var a := log[i].handout.adapter;
    var k :| 0 <= k < |t.run| && ReportedAs(t.run[k], log[i]);
    assert CutShort(t.run, |t.run|, a);
    assert RetriesOnly(t.walk.handed) + [] == RetriesOnly(t.walk.handed);
    RetryPosition(t.walk.handed, a);
    var m :| 0 <= m < |t.walk.handed| && t.walk.handed[m] == Retry(a);
    j := m + 1;
    if j < i {
      RepeatsAreRetries(c, log, j, i);
    }
  }
}

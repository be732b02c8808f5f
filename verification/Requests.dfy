/** One request, the routes it may use, and everything outside its control. */
module Requests {
  import opened Options
  import opened Identifiers
  import opened Failures
  import opened CircuitBreaker
  import opened EndpointHealth
  import opened Gateway
  import opened Selection
  import opened FallbackWalk
  import opened Attempts
  import PL = PrefillLoad

  /** A pin names a provider; no route when the model has none of it. */
  datatype Pin = Unpinned | Pinned(route: Option<Route>)

  datatype Request = Request(
    wish: Wish,
    caller: Option<PL.Caller>,
    fingerprint: Option<PL.Fingerprint>,
    anchor: Option<PL.Anchor>,
    pin: Pin,
    allowFallback: bool,
    streaming: bool)

  /** A pinned request never falls back, nor does one whose caller owns the candidate order. */
  predicate MayFall(r: Request) { r.pin.Unpinned? && r.allowFallback }

  /** Everything outside the request's control, by attempt number. Attempt `n` claims and leases at `clock(n)`
      and asks whether it may be cut short at `asked(n)`. `patience` is how many chunks, routing chunks
      included, the client of a stream takes before it leaves at the next one. */
  datatype Upstream = Upstream(
    feed: nat -> Feed,
    clock: nat -> Clock,
    asked: nat -> real,
    bindable: bool,
    keyForCaller: nat -> bool,
    paging: Paging,
    patience: nat)

  /** A request that has its primary. */
  datatype Case = Case(
    s: Settings,
    routes: seq<Route>,
    offload: Option<OffloadRoute>,
    request: Request,
    up: Upstream,
    primary: Route)

  // ----- context windows

  function WidestRefused(refused: Option<nat>, x: Route, f: Failure): Option<nat> {
    if !ExceedsContextWindow(f) || x.window.None? then refused
    else if refused.None? || refused.value < x.window.value then x.window
    else refused
  }

  predicate CannotFit(x: Route, refused: Option<nat>) {
    refused.Some? && x.window.Some? && x.window.value <= refused.value
  }

  // ----- the fallback order of a request

  function AdaptersOf(routes: seq<Route>): set<Adapter> { set x | x in routes :: x.adapter }

  ghost predicate DistinctRoutes(routes: seq<Route>) {
    forall i, j :: 0 <= i < j < |routes| ==> routes[i].adapter != routes[j].adapter
  }

  function RouteOf(routes: seq<Route>, a: Adapter): (x: Route)
    requires a in AdaptersOf(routes)
    ensures x in routes && x.adapter == a
  {
    if routes[0].adapter == a then routes[0] else RouteOf(routes[1..], a)
  }

  lemma SameAdapterSameRoute(routes: seq<Route>, x: Route, y: Route)
    requires DistinctRoutes(routes) && x in routes && y in routes && x.adapter == y.adapter
    ensures x == y
  {
  }

  function Candidates(routes: seq<Route>, primary: Adapter): seq<Adapter> {
    if routes == [] then []
    else
      (if routes[0].adapter != primary && routes[0].weight > 0.0 then [routes[0].adapter] else [])
      + Candidates(routes[1..], primary)
  }

  ghost predicate Weighted(routes: seq<Route>, primary: Adapter, x: Route) {
    x in routes && x.adapter != primary && x.weight > 0.0
  }

  lemma {:induction false} CandidatesAreRoutes(routes: seq<Route>, primary: Adapter)
    requires DistinctRoutes(routes)
    ensures forall a :: a in Candidates(routes, primary) <==> exists x :: Weighted(routes, primary, x) && x.adapter == a
    ensures Distinct(Candidates(routes, primary))
  {
    if routes != [] {
      var first, rest := routes[0], routes[1..];
      assert forall i :: 0 <= i < |rest| ==> rest[i] == routes[i + 1];
      CandidatesAreRoutes(rest, primary);
      var tail := Candidates(rest, primary);
      assert forall x :: Weighted(routes, primary, x) <==> Weighted([first], primary, x) || Weighted(rest, primary, x);
      assert Weighted([first], primary, first) <==> first.adapter != primary && first.weight > 0.0;
      assert forall x :: x in rest ==> x.adapter != first.adapter;
      forall a | a in tail ensures a != first.adapter {
        var x :| Weighted(rest, primary, x) && x.adapter == a;
      }
      assert forall j :: 0 <= j < |tail| ==> tail[j] in tail;
    }
  }

  /** The route of adapter `a` is declared before that of `b`. */
  ghost predicate Before(routes: seq<Route>, a: Adapter, b: Adapter) {
    forall p, q :: 0 <= p < |routes| && 0 <= q < |routes| && routes[p].adapter == a && routes[q].adapter == b ==> p < q
  }

  /** The adapters are named in the order their routes are declared in. */
  ghost predicate InRouteOrder(routes: seq<Route>, adapters: seq<Adapter>) {
    forall i, j :: 0 <= i < j < |adapters| ==> Before(routes, adapters[i], adapters[j])
  }

  lemma BeforeInRest(routes: seq<Route>, a: Adapter, b: Adapter)
    requires routes != [] && Before(routes[1..], a, b) && routes[0].adapter != a && routes[0].adapter != b
    ensures Before(routes, a, b)
  {
    forall p, q | 0 <= p < |routes| && 0 <= q < |routes| && routes[p].adapter == a && routes[q].adapter == b
      ensures p < q
    {
      assert routes[1..][p - 1] == routes[p] && routes[1..][q - 1] == routes[q];
    }
  }

  lemma {:induction false} CandidatesKeepOrder(routes: seq<Route>, primary: Adapter)
    requires DistinctRoutes(routes)
    ensures InRouteOrder(routes, Candidates(routes, primary))
    ensures forall a :: a in Candidates(routes, primary) ==> exists i :: 0 <= i < |routes| && routes[i].adapter == a
  {
    hide Before;
    if routes != [] {
      var first, rest := routes[0].adapter, routes[1..];
      var all, tail := Candidates(routes, primary), Candidates(rest, primary);
      assert forall i :: 0 <= i < |rest| ==> rest[i] == routes[i + 1];
      CandidatesKeepOrder(rest, primary);
      forall i | 0 <= i < |tail| ensures tail[i] != first {
        assert tail[i] in tail;
        var k :| 0 <= k < |rest| && rest[k].adapter == tail[i];
        assert routes[k + 1] == rest[k];
      }
      forall i, j | 0 <= i < j < |tail| ensures Before(routes, tail[i], tail[j]) {
        BeforeInRest(routes, tail[i], tail[j]);
      }
      forall j | 0 <= j < |tail| ensures Before(routes, first, tail[j]) {
        FirstIsBefore(routes, tail[j]);
      }
    }
  }

  lemma FirstIsBefore(routes: seq<Route>, b: Adapter)
    requires DistinctRoutes(routes) && routes != [] && routes[0].adapter != b
    ensures Before(routes, routes[0].adapter, b)
  {
  }

  lemma {:induction false} ExceptKeepsOrder(routes: seq<Route>, adapters: seq<Adapter>, offload: Option<Adapter>)
    requires InRouteOrder(routes, adapters)
    ensures InRouteOrder(routes, Except(adapters, offload))
    ensures forall a :: a in Except(adapters, offload) ==> a in adapters
  {
    hide Before;
    if adapters != [] {
      var first, rest, tail := adapters[0], adapters[1..], Except(adapters[1..], offload);
      ExceptKeepsOrder(routes, rest, offload);
      forall j | 0 <= j < |tail| ensures Before(routes, first, tail[j]) {
        assert tail[j] in rest;
        var m :| 0 <= m < |rest| && rest[m] == tail[j];
        assert adapters[m + 1] == tail[j];
      }
    }
  }

  /** What the walk starts with is in declaration order. */
  lemma PlanKeepsOrder(c: Case)
    requires DistinctRoutes(c.routes)
    ensures InRouteOrder(c.routes, Except(PlanOf(c).ordinary, PlanOf(c).offload))
  {
    hide InRouteOrder, Candidates, Except;
    var all := Candidates(c.routes, c.primary.adapter);
    CandidatesKeepOrder(c.routes, c.primary.adapter);
    if c.offload.Some? {
      ExceptKeepsOrder(c.routes, all, Some(c.offload.value.adapter));
    }
    ExceptKeepsOrder(c.routes, PlanOf(c).ordinary, PlanOf(c).offload);
  }

  /** The offload route this request may still move to, if its prompt is small enough and it is in range. */
  function OffloadFor(routes: seq<Route>, offload: Option<OffloadRoute>, tokens: nat,
                      primary: Adapter): Option<Adapter>
  {
    if OffloadUsable(routes, offload) && TakesInput(offload.value, tokens) && offload.value.adapter != primary
    then Some(offload.value.adapter) else None
  }

  /** The ordinary candidates: an offload route over its max input is left out altogether. */
  function OrdinaryFor(routes: seq<Route>, offload: Option<OffloadRoute>, tokens: nat, primary: Adapter): seq<Adapter> {
    var all := Candidates(routes, primary);
    if OffloadUsable(routes, offload) && !TakesInput(offload.value, tokens)
    then Except(all, Some(offload.value.adapter)) else all
  }

  datatype Plan = Plan(primary: Adapter, ordinary: seq<Adapter>, offload: Option<Adapter>)

  function PlanOf(c: Case): Plan {
    var tokens := c.request.wish.tokens;
    Plan(c.primary.adapter,
         OrdinaryFor(c.routes, c.offload, tokens, c.primary.adapter),
         OffloadFor(c.routes, c.offload, tokens, c.primary.adapter))
  }

  /** The prompt is over the offload route's max input. */
  predicate Oversize(c: Case, x: Route) {
    c.offload.Some? && x.adapter == c.offload.value.adapter && !TakesInput(c.offload.value, c.request.wish.tokens)
  }

  /** A route the request may fall back to: in range, weighted, not its primary, not an offload route too small. */
  ghost predicate MayServe(c: Case, x: Route) {
    x in c.routes && x.weight > 0.0 && x.adapter != c.primary.adapter && !Oversize(c, x)
  }

  ghost predicate InPlan(p: Plan, a: Adapter) { a in p.ordinary || p.offload == Some(a) }

  ghost predicate GoodPlan(p: Plan) {
    Distinct(p.ordinary) && p.primary !in p.ordinary && p.offload != Some(p.primary)
  }

  /** The fallback order holds exactly the routes that may serve. */
  lemma PlanHoldsRoutes(c: Case)
    requires DistinctRoutes(c.routes)
    ensures GoodPlan(PlanOf(c))
    ensures forall a :: InPlan(PlanOf(c), a) <==> exists x :: MayServe(c, x) && x.adapter == a
  {
    var p, all := PlanOf(c), Candidates(c.routes, c.primary.adapter);
    CandidatesAreRoutes(c.routes, c.primary.adapter);
    if c.offload.Some? {
      ExceptIsDistinct(all, Some(c.offload.value.adapter));
    }
    forall a ensures InPlan(p, a) <==> exists x :: MayServe(c, x) && x.adapter == a {
      OnePlanned(c, a);
    }
  }

  lemma OnePlanned(c: Case, a: Adapter)
    requires DistinctRoutes(c.routes)
    ensures InPlan(PlanOf(c), a) <==> exists x :: MayServe(c, x) && x.adapter == a
  {
    var p, all := PlanOf(c), Candidates(c.routes, c.primary.adapter);
    CandidatesAreRoutes(c.routes, c.primary.adapter);
    if c.offload.Some? {
      ExceptIsDistinct(all, Some(c.offload.value.adapter));
    }
    if x :| MayServe(c, x) && x.adapter == a {
      assert Weighted(c.routes, c.primary.adapter, x);
    }
    if InPlan(p, a) {
      var x :| Weighted(c.routes, c.primary.adapter, x) && x.adapter == a;
      assert MayServe(c, x);
    }
  }

  /** Whether an attempt may be cut short: only while an offload route is still pending, could serve this
      caller, would be admitted, and has a window wider than any that refused the prompt. */
  predicate DeadlineArmed(s: Settings, w: World, routes: seq<Route>, pending: Option<Adapter>, refused: Option<nat>,
                          keyForCaller: bool, now: real)
  {
    && pending.Some? && pending.value in AdaptersOf(routes) && keyForCaller
    && var x := RouteOf(routes, pending.value);
       !CannotFit(x, refused) && Allows(s, w, x.endpoint, now)
  }
}

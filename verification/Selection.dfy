/** Choosing an adapter for an unpinned request and claiming its endpoint, while other requests move. */
module Selection {
  import opened Options
  import opened Identifiers
  import opened EndpointHealth
  import opened Gateway
  import opened FallbackWalk

  /** One route of the request's dispatch range: in scope, taking its media, with its effective weight. */
  datatype Route = Route(adapter: Adapter, endpoint: EndpointId, weight: real, window: Option<nat>)

  /** The model's offload route and the largest prompt it takes. */
  datatype OffloadRoute = OffloadRoute(adapter: Adapter, maxInput: Option<nat>)

  predicate TakesInput(o: OffloadRoute, tokens: nat) {
    o.maxInput.None? || tokens <= o.maxInput.value
  }

  function Allowed(s: Settings, w: World, routes: seq<Route>, exclude: set<EndpointId>, now: real): (r: seq<Route>)
    ensures forall x :: x in r <==>
              x in routes && x.weight > 0.0 && x.endpoint !in exclude && Allows(s, w, x.endpoint, now)
  {
    if routes == [] then []
    else
      var x := routes[0];
      (if x.weight > 0.0 && x.endpoint !in exclude && Allows(s, w, x.endpoint, now) then [x] else [])
      + Allowed(s, w, routes[1..], exclude, now)
  }

  function WithoutAdapter(routes: seq<Route>, a: Adapter): (r: seq<Route>)
    ensures forall x :: x in r <==> x in routes && x.adapter != a
  {
    if routes == [] then []
    else (if routes[0].adapter == a then [] else [routes[0]]) + WithoutAdapter(routes[1..], a)
  }

  function OnEndpoint(routes: seq<Route>, e: EndpointId): (r: seq<Route>)
    ensures forall x :: x in r <==> x in routes && x.endpoint == e
  {
    if routes == [] then []
    else (if routes[0].endpoint == e then [routes[0]] else []) + OnEndpoint(routes[1..], e)
  }

  /** The offload route counts only while it carries weight in this range. */
  predicate OffloadUsable(routes: seq<Route>, offload: Option<OffloadRoute>) {
    offload.Some? && exists x :: x in routes && x.weight > 0.0 && x.adapter == offload.value.adapter
  }

  datatype Wish = Wish(
    tokens: nat,
    preferred: Option<EndpointId>,
    requireTarget: bool,
    affinity: Option<EndpointId>)

  datatype Choice = Chosen(route: Route) | NoneAdmissible | TargetUnavailable

  /** Selection over an admission snapshot. `draw` stands for the weighted, load-aware pick. An affinity pin
      that is still admissible wins over a preferred target, unless that target is required. */
  function Select(s: Settings, w: World, routes: seq<Route>, offload: Option<OffloadRoute>, wish: Wish,
                  exclude: set<EndpointId>, now: real, draw: nat): Choice
  {
    var allowed := Allowed(s, w, routes, exclude, now);
    if allowed == [] then NoneAdmissible
    else
      var usable := OffloadUsable(routes, offload);
      var ordinary := if usable then WithoutAdapter(allowed, offload.value.adapter) else allowed;
      if ordinary == [] && usable && !TakesInput(offload.value, wish.tokens) then NoneAdmissible
      else
        var pool := if ordinary == [] then allowed else ordinary;
        var pinned := if wish.affinity.Some? && !wish.requireTarget then OnEndpoint(pool, wish.affinity.value) else [];
        if pinned != [] then Chosen(pinned[0])
        else
          var targeted := if wish.preferred.Some? then OnEndpoint(pool, wish.preferred.value) else [];
          if targeted != [] then Chosen(targeted[draw % |targeted|])
          else if wish.preferred.Some? && wish.requireTarget then TargetUnavailable
          else Chosen(pool[draw % |pool|])
  }

  /** `e` cannot be had at this moment: refused, weightless, not admitted, or an offload route too small. */
  ghost predicate OutOfReach(s: Settings, w: World, offload: Option<OffloadRoute>, tokens: nat,
                             refused: set<EndpointId>, now: real, x: Route)
  {
    || !(x.weight > 0.0)
    || x.endpoint in refused
    || !Allows(s, w, x.endpoint, now)
    || (offload.Some? && x.adapter == offload.value.adapter && !TakesInput(offload.value, tokens))
  }

  lemma SelectIsSound(s: Settings, w: World, routes: seq<Route>, offload: Option<OffloadRoute>, wish: Wish,
                      exclude: set<EndpointId>, now: real, draw: nat)
    ensures match Select(s, w, routes, offload, wish, exclude, now, draw)
            case Chosen(x) =>
              && x in routes && x.weight > 0.0 && x.endpoint !in exclude && Allows(s, w, x.endpoint, now)
              && (offload.Some? && x.adapter == offload.value.adapter ==> TakesInput(offload.value, wish.tokens))
            case NoneAdmissible => forall x :: x in routes ==> OutOfReach(s, w, offload, wish.tokens, exclude, now, x)
            case TargetUnavailable =>
              wish.requireTarget && wish.preferred.Some? && MissesTarget(s, w, routes, offload, wish, exclude, now)
  {
  }

  /** No route on the target can be had, unless it is the offload route, which stands back for others. */
  ghost predicate MissesTarget(s: Settings, w: World, routes: seq<Route>, offload: Option<OffloadRoute>, wish: Wish,
                               exclude: set<EndpointId>, now: real)
    requires wish.preferred.Some?
  {
    forall x :: x in routes && x.endpoint == wish.preferred.value ==>
      OutOfReach(s, w, offload, wish.tokens, exclude, now, x) || (offload.Some? && x.adapter == offload.value.adapter)
  }

  /** An ordinary route that could be chosen right now. */
  ghost predicate InReach(s: Settings, w: World, routes: seq<Route>, offload: Option<OffloadRoute>,
                          exclude: set<EndpointId>, now: real, x: Route)
  {
    && x in routes && x.weight > 0.0 && x.endpoint !in exclude && Allows(s, w, x.endpoint, now)
    && !(offload.Some? && x.adapter == offload.value.adapter)
  }

  /** Precedence: the offload route serves only when nothing else can and the prompt fits it; a required target
      is met or nothing is chosen; otherwise a reachable pin wins, then a reachable preference. */
  lemma SelectHonoursWishes(s: Settings, w: World, routes: seq<Route>, offload: Option<OffloadRoute>, wish: Wish,
                            exclude: set<EndpointId>, now: real, draw: nat, x: Route, y: Route)
    requires Select(s, w, routes, offload, wish, exclude, now, draw) == Chosen(x)
    ensures OffloadUsable(routes, offload) && x.adapter == offload.value.adapter ==>
              TakesInput(offload.value, wish.tokens) && !InReach(s, w, routes, offload, exclude, now, y)
    ensures wish.requireTarget && wish.preferred.Some? ==> x.endpoint == wish.preferred.value
    ensures InReach(s, w, routes, offload, exclude, now, y) && !wish.requireTarget
            && wish.affinity == Some(y.endpoint) ==>
              x.endpoint == y.endpoint
    ensures InReach(s, w, routes, offload, exclude, now, y) && wish.affinity.None?
            && wish.preferred == Some(y.endpoint) ==>
              x.endpoint == y.endpoint
  {
    var allowed := Allowed(s, w, routes, exclude, now);
    var usable := OffloadUsable(routes, offload);
    var ordinary := if usable then WithoutAdapter(allowed, offload.value.adapter) else allowed;
    var pool := if ordinary == [] then allowed else ordinary;
    if InReach(s, w, routes, offload, exclude, now, y) {
      assert y in ordinary;
      assert y in OnEndpoint(pool, y.endpoint);
    }
  }

  /** When a reachable preference is honoured: not whenever it is asked for, but exactly when it is required or
      no live pin points somewhere else within reach. */
  lemma PreferenceHonouredIff(s: Settings, w: World, routes: seq<Route>, offload: Option<OffloadRoute>, wish: Wish,
                              exclude: set<EndpointId>, now: real, draw: nat, y: Route)
    requires InReach(s, w, routes, offload, exclude, now, y) && wish.preferred == Some(y.endpoint)
    ensures var choice := Select(s, w, routes, offload, wish, exclude, now, draw);
            choice.Chosen? &&
            (choice.route.endpoint == y.endpoint <==>
              || wish.requireTarget || wish.affinity.None? || wish.affinity == wish.preferred
              || forall z :: InReach(s, w, routes, offload, exclude, now, z) ==> z.endpoint != wish.affinity.value)
  {
    var allowed := Allowed(s, w, routes, exclude, now);
    var ordinary := if OffloadUsable(routes, offload) then WithoutAdapter(allowed, offload.value.adapter) else allowed;
    assert y in ordinary;
    assert y in OnEndpoint(ordinary, y.endpoint);
    assert forall z :: InReach(s, w, routes, offload, exclude, now, z) ==> z in ordinary;
    assert forall z :: z in ordinary ==> InReach(s, w, routes, offload, exclude, now, z);
    if wish.affinity.Some? && !wish.requireTarget {
      var pinned := OnEndpoint(ordinary, wish.affinity.value);
      if pinned != [] {
        assert pinned[0] in pinned;
      } else {
        forall z | InReach(s, w, routes, offload, exclude, now, z) ensures z.endpoint != wish.affinity.value {
          assert z !in pinned;
        }
      }
    }
  }

  /** Two healthy routes, one preferred and the other pinned: the pin is chosen. */
  lemma PinBeatsPreference(s: Settings, w: World, draw: nat)
    requires w.endpoints == map[]
    ensures var a, b := Route(0, "a", 1.0, None), Route(1, "b", 1.0, None);
            Select(s, w, [a, b], None, Wish(0, Some("b"), false, Some("a")), {}, 0.0, draw) == Chosen(a)
  {
    var a, b := Route(0, "a", 1.0, None), Route(1, "b", 1.0, None);
    var pinned := OnEndpoint(Allowed(s, w, [a, b], {}, 0.0), "a");
    assert a in [a, b] && a in pinned;
    assert pinned[0] in pinned;
  }

  /** What the outside world does between this request's steps: pass `i` selects at `clock(i)`, then others
      move, then it claims at `claimClock(i)`. */
  datatype Oracle = Oracle(others: nat -> seq<TimedAction>, clock: nat -> real, claimClock: nat -> real,
                           draw: nat -> nat)

  datatype Placement =
    | Placed(route: Route, claim: DispatchClaim)
    | AllOpen
    | Unavailable

  function EndpointsOf(routes: seq<Route>): set<EndpointId> { set x | x in routes :: x.endpoint }

  lemma {:induction false} FewEndpoints(routes: seq<Route>)
    ensures |EndpointsOf(routes)| <= |routes|
  {
    if routes != [] {
      FewEndpoints(routes[1..]);
      assert EndpointsOf(routes) == EndpointsOf(routes[1..]) + {routes[0].endpoint};
    }
  }

  lemma FullSubset(a: set<EndpointId>, b: set<EndpointId>)
    requires a <= b && |b| <= |a|
    ensures a == b
  {
    if x :| x in b && x !in a {
      assert a + {x} <= b;
      SubsetSize(a + {x}, b);
    }
  }

  lemma {:induction false} SubsetSize(a: set<EndpointId>, b: set<EndpointId>)
    requires a <= b
    ensures |a| <= |b|
  {
    if a != {} {
      var x :| x in a;
      SubsetSize(a - {x}, b - {x});
    }
  }

  function Members(es: seq<EndpointId>): set<EndpointId> { set e | e in es }

  /** What selection does when the endpoints `turned` refuse, from pass `base` on: before each claim others move. */
  function Refusals(oracle: Oracle, base: nat, turned: seq<EndpointId>): seq<Deed> {
    if turned == [] then []
    else
      var k := |turned| - 1;
      Refusals(oracle, base, turned[..k])
      + [Waited(None, oracle.others(base + k)), Bade(0, turned[k], oracle.claimClock(base + k), None)]
  }

  lemma RefusalsAppend(oracle: Oracle, base: nat, es: seq<EndpointId>, e: EndpointId)
    ensures Refusals(oracle, base, es + [e]) ==
            Refusals(oracle, base, es)
            + [Waited(None, oracle.others(base + |es|)), Bade(0, e, oracle.claimClock(base + |es|), None)]
    ensures Members(es + [e]) == Members(es) + {e}
  {
    assert (es + [e])[..|es|] == es;
  }

  /** Selection starts at pass 0 with a preference, at pass 1 without. */
  function FirstPass(wish: Wish): nat { if wish.preferred.None? then 1 else 0 }

  /** Everything a selection does: its refusals in order, then the claim it was placed with. */
  function SelectionDeeds(oracle: Oracle, base: nat, turned: seq<EndpointId>, placement: Placement): seq<Deed> {
    Refusals(oracle, base, turned)
    + if !placement.Placed? then []
      else [Waited(None, oracle.others(base + |turned|)),
            Bade(0, placement.route.endpoint, oracle.claimClock(base + |turned|), Some(placement.claim))]
  }

  /** A weighted in-range route that refused nothing, and an offload route only for a prompt it takes. */
  ghost predicate GoodRoute(routes: seq<Route>, offload: Option<OffloadRoute>, tokens: nat, refused: set<EndpointId>,
                            x: Route)
  {
    && x in routes && x.weight > 0.0 && x.endpoint !in refused
    && (offload.Some? && x.adapter == offload.value.adapter ==> TakesInput(offload.value, tokens))
  }

  /** Such a route with the one claim for its endpoint, a live probe's when it carries a token. */
  ghost predicate GoodPlacement(w: World, routes: seq<Route>, offload: Option<OffloadRoute>, tokens: nat,
                                refused: set<EndpointId>, placement: Placement)
    requires placement.Placed?
  {
    var x, claim := placement.route, placement.claim;
    && GoodRoute(routes, offload, tokens, refused, x)
    && claim.endpoint == x.endpoint && Issued(w, claim)
    && (claim.token.Some? ==> At(w, x.endpoint).breaker.probeToken == claim.token)
  }

  /** Why nothing was placed: every route refused or is out of reach, or the required target is. */
  ghost predicate GoodRefusal(s: Settings, w: World, routes: seq<Route>, offload: Option<OffloadRoute>, wish: Wish,
                              refused: set<EndpointId>, at: real, placement: Placement)
    requires !placement.Placed?
  {
    if placement.AllOpen? then forall x :: x in routes ==> OutOfReach(s, w, offload, wish.tokens, refused, at, x)
    else wish.requireTarget && wish.preferred.Some? && MissesTarget(s, w, routes, offload, wish, refused, at)
  }

  /** The first endpoint a selection asked for a claim. */
  function FirstAsked(turned: seq<EndpointId>, placement: Placement): Option<EndpointId> {
    if turned != [] then Some(turned[0]) else if placement.Placed? then Some(placement.route.endpoint) else None
  }

  /** The preference is an ordinary route within reach, and no pin competes with it. */
  ghost predicate Reachable(s: Settings, w: World, routes: seq<Route>, offload: Option<OffloadRoute>, wish: Wish,
                            now: real)
  {
    && wish.preferred.Some? && wish.affinity.None?
    && exists y :: InReach(s, w, routes, offload, {}, now, y) && y.endpoint == wish.preferred.value
  }

  /** The pin points at an ordinary route that could be chosen at this moment. */
  ghost predicate PinInReach(s: Settings, w: World, routes: seq<Route>, offload: Option<OffloadRoute>, wish: Wish,
                             refused: set<EndpointId>, now: real)
  {
    exists y :: InReach(s, w, routes, offload, refused, now, y) && wish.affinity == Some(y.endpoint)
  }

  /** A pin counts unless a target is required. */
  predicate PinCounts(wish: Wish) { wish.affinity.Some? && !(wish.requireTarget && wish.preferred.Some?) }

  /** The shared state once the endpoints `es` have been bid for, from pass `base` on. */
  ghost function Bidding(s: Settings, w: World, oracle: Oracle, base: nat, es: seq<EndpointId>): World {
    if es == [] then w
    else
      var k := |es| - 1;
      var moved := Suspend(s, Bidding(s, w, oracle, base, es[..k]), None, oracle.others(base + k));
      ClaimAt(s, moved, 0, es[k], oracle.claimClock(base + k)).0
  }

  /** The pin is in reach when selection looks again after its first `k` refusals. */
  ghost predicate PinStands(s: Settings, w: World, routes: seq<Route>, offload: Option<OffloadRoute>, wish: Wish,
                            oracle: Oracle, base: nat, turned: seq<EndpointId>, k: nat)
    requires k <= |turned|
  {
    var past := turned[..k];
    PinInReach(s, Bidding(s, w, oracle, base, past), routes, offload, wish, Members(past), oracle.clock(base + k))
  }

  /** The endpoint of bid `k`, counted from 0. */
  function Asked(turned: seq<EndpointId>, placement: Placement, k: nat): Option<EndpointId> {
    if k < |turned| then Some(turned[k])
    else if k == |turned| && placement.Placed? then Some(placement.route.endpoint) else None
  }

  /** Whenever the pin is in reach, first or after any refusals, it is what is bid for next. */
  ghost predicate PinFollowed(s: Settings, w: World, routes: seq<Route>, offload: Option<OffloadRoute>, wish: Wish,
                              oracle: Oracle, base: nat, turned: seq<EndpointId>, placement: Placement)
  {
    PinCounts(wish) ==>
      forall k :: 0 <= k <= |turned| && PinStands(s, w, routes, offload, wish, oracle, base, turned, k) ==>
        Asked(turned, placement, k) == wish.affinity
  }

  /** The same of the refusals alone. */
  ghost predicate PinTried(s: Settings, w: World, routes: seq<Route>, offload: Option<OffloadRoute>, wish: Wish,
                           oracle: Oracle, base: nat, turned: seq<EndpointId>)
  {
    PinCounts(wish) ==>
      forall k :: 0 <= k < |turned| && PinStands(s, w, routes, offload, wish, oracle, base, turned, k) ==>
        Some(turned[k]) == wish.affinity
  }

  lemma PinIsChosen(s: Settings, w: World, routes: seq<Route>, offload: Option<OffloadRoute>, wish: Wish,
                    refused: set<EndpointId>, now: real, draw: nat)
    requires !wish.requireTarget && PinInReach(s, w, routes, offload, wish, refused, now)
    ensures var choice := Select(s, w, routes, offload, wish, refused, now, draw);
            choice.Chosen? && Some(choice.route.endpoint) == wish.affinity
  {
    hide Select, Allows;
    SelectIsSound(s, w, routes, offload, wish, refused, now, draw);
    var y :| InReach(s, w, routes, offload, refused, now, y) && wish.affinity == Some(y.endpoint);
    var choice := Select(s, w, routes, offload, wish, refused, now, draw);
    if choice.Chosen? {
      SelectHonoursWishes(s, w, routes, offload, wish, refused, now, draw, choice.route, y);
    }
  }

  /** One more bid, for what was chosen: refused or granted. */
  lemma PinFollowedOn(s: Settings, w: World, routes: seq<Route>, offload: Option<OffloadRoute>, wish: Wish,
                      oracle: Oracle, base: nat, turned: seq<EndpointId>, x: Route, claim: DispatchClaim, draw: nat)
    requires !wish.requireTarget && PinTried(s, w, routes, offload, wish, oracle, base, turned)
    requires Select(s, Bidding(s, w, oracle, base, turned), routes, offload, wish, Members(turned),
                    oracle.clock(base + |turned|), draw) == Chosen(x)
    ensures PinFollowed(s, w, routes, offload, wish, oracle, base, turned, Placed(x, claim))
    ensures PinTried(s, w, routes, offload, wish, oracle, base, turned + [x.endpoint])
  {
    hide Select, Bidding, PinInReach;
    var more := turned + [x.endpoint];
    assert turned[..|turned|] == turned;
    if PinStands(s, w, routes, offload, wish, oracle, base, turned, |turned|) {
      PinIsChosen(s, Bidding(s, w, oracle, base, turned), routes, offload, wish, Members(turned),
                  oracle.clock(base + |turned|), draw);
    }
    assert forall k :: 0 <= k <= |turned| ==> more[..k] == turned[..k];
  }

  /** A selection that gives up had no pin in reach when it last looked. */
  lemma PinNotInReach(s: Settings, w: World, routes: seq<Route>, offload: Option<OffloadRoute>, wish: Wish,
                      oracle: Oracle, base: nat, turned: seq<EndpointId>)
    requires PinTried(s, w, routes, offload, wish, oracle, base, turned)
    requires || GoodRefusal(s, Bidding(s, w, oracle, base, turned), routes, offload, wish, Members(turned),
                            oracle.clock(base + |turned|), AllOpen)
             || EndpointsOf(routes) <= Members(turned)
    ensures PinFollowed(s, w, routes, offload, wish, oracle, base, turned, AllOpen)
  {
    hide Bidding, Allows;
    assert turned[..|turned|] == turned;
  }

  lemma BiddingOn(s: Settings, w: World, oracle: Oracle, base: nat, es: seq<EndpointId>, e: EndpointId)
    ensures Bidding(s, w, oracle, base, es + [e]) ==
            ClaimAt(s, Suspend(s, Bidding(s, w, oracle, base, es), None, oracle.others(base + |es|)), 0, e,
                    oracle.claimClock(base + |es|)).0
  {
    assert (es + [e])[..|es|] == es;
  }

  /** Select, then claim. A refused claim drops that endpoint for this selection only. `turned` are the
      endpoints whose breakers refused, in order, and `at` is when selection last looked. */
  method SelectAndClaim(s: Settings, w0: World, routes: seq<Route>, routeSize: nat, offload: Option<OffloadRoute>,
                        wish: Wish, oracle: Oracle)
    returns (placement: Placement, w: World, turned: seq<EndpointId>, at: real)
    requires |routes| <= routeSize
    ensures Evolves(s, w0, w) && w.mine == w0.mine + SelectionDeeds(oracle, FirstPass(wish), turned, placement)
    ensures Distinct(turned) && exists i :: at == oracle.clock(i)
    ensures if placement.Placed? then GoodPlacement(w, routes, offload, wish.tokens, Members(turned), placement)
            else GoodRefusal(s, w, routes, offload, wish, Members(turned), at, placement)
    ensures placement.Placed? && wish.requireTarget && wish.preferred.Some? ==>
              placement.route.endpoint == wish.preferred.value
    ensures Reachable(s, w0, routes, offload, wish, oracle.clock(0)) ==> FirstAsked(turned, placement) == wish.preferred
    ensures PinFollowed(s, w0, routes, offload, wish, oracle, FirstPass(wish), turned, placement)
  {
    hide Evolves, Select, Allows, InReach, OutOfReach, GoodRoute, Distinct, MissesTarget, EndpointsOf, PinInReach,
         Bidding, PinFollowed;
    EvolvesReflexive(s, w0);
    NothingTurned();
    NothingBid(s, w0, routes, offload, wish, oracle, FirstPass(wish));
    w, turned, at := w0, [], oracle.clock(0);
    if wish.preferred.Some? {
      var done;
      placement, w, turned, done := TryPreferred(s, w0, routes, offload, wish, oracle);
      if done { return placement, w, turned, at; }
    }
    ghost var first := w;
    var open := wish.(preferred := None, requireTarget := false);
    placement, w, turned, at := Reselect(s, w, w0, routes, routeSize, offload, open, oracle, turned, FirstPass(wish));
    EvolvesTransitive(s, w0, first, w);
    SamePin(s, w0, routes, offload, wish, oracle, turned, placement);
  }

  lemma NothingBid(s: Settings, w: World, routes: seq<Route>, offload: Option<OffloadRoute>, wish: Wish,
                   oracle: Oracle, base: nat)
    ensures PinTried(s, w, routes, offload, wish, oracle, base, []) && Bidding(s, w, oracle, base, []) == w
  {
  }

  /** Dropping the preference changes nothing about the pin. */
  lemma SamePin(s: Settings, w: World, routes: seq<Route>, offload: Option<OffloadRoute>, wish: Wish,
                oracle: Oracle, turned: seq<EndpointId>, placement: Placement)
    requires PinFollowed(s, w, routes, offload, wish.(preferred := None, requireTarget := false), oracle,
                         FirstPass(wish), turned, placement)
    ensures PinFollowed(s, w, routes, offload, wish, oracle, FirstPass(wish), turned, placement)
  {
    hide Bidding, InReach;
    var open := wish.(preferred := None, requireTarget := false);
    forall k | 0 <= k <= |turned| && PinStands(s, w, routes, offload, wish, oracle, FirstPass(wish), turned, k)
      ensures PinStands(s, w, routes, offload, open, oracle, FirstPass(wish), turned, k)
    {
    }
  }

  /** A preferred endpoint is tried first, once. Not `done` means its breaker refused and others may serve. */
  method TryPreferred(s: Settings, w0: World, routes: seq<Route>, offload: Option<OffloadRoute>, wish: Wish,
                      oracle: Oracle)
    returns (placement: Placement, w: World, turned: seq<EndpointId>, done: bool)
    requires wish.preferred.Some?
    ensures Evolves(s, w0, w) && w.mine == w0.mine + SelectionDeeds(oracle, 0, turned, placement)
    ensures Distinct(turned) && Members(turned) <= EndpointsOf(routes)
    ensures placement.Placed? ==> done && GoodPlacement(w, routes, offload, wish.tokens, Members(turned), placement)
                                  && (wish.requireTarget ==> placement.route.endpoint == wish.preferred.value)
    ensures !placement.Placed? && done ==>
              GoodRefusal(s, w, routes, offload, wish, Members(turned), oracle.clock(0), placement)
    ensures !done ==> |turned| == 1 && !wish.requireTarget && w == Bidding(s, w0, oracle, 0, turned)
    ensures Reachable(s, w0, routes, offload, wish, oracle.clock(0)) ==> FirstAsked(turned, placement) == wish.preferred
    ensures if done then PinFollowed(s, w0, routes, offload, wish, oracle, 0, turned, placement)
            else PinTried(s, w0, routes, offload, wish.(preferred := None), oracle, 0, turned)
  {
    hide Evolves, Allows, Select, Reachable, PinFollowed, PinTried, Bidding, PinInReach, OutOfReach, Issued;
    NothingTurned();
    NothingBid(s, w0, routes, offload, wish, oracle, 0);
    EvolvesReflexive(s, w0);
    w, turned, done := w0, [], true;
    var choice := Select(s, w, routes, offload, wish, {}, oracle.clock(0), oracle.draw(0));
    SelectIsSound(s, w, routes, offload, wish, {}, oracle.clock(0), oracle.draw(0));
    FirstChoice(s, w, routes, offload, wish, oracle.clock(0), oracle.draw(0));
    match choice {
      case NoneAdmissible =>
        placement := AllOpen;
        PinNotInReach(s, w0, routes, offload, wish, oracle, 0, []);
      case TargetUnavailable =>
        placement := Unavailable;
        PinUnheard(s, w0, routes, offload, wish, oracle, 0, [], placement);
      case Chosen(x) =>
        var claim;
        w, claim := Claim(s, w, x.endpoint, oracle, 0);
        assert [] + [x.endpoint] == [x.endpoint];
        BiddingOn(s, w0, oracle, 0, [], x.endpoint);
        TargetIsMet(s, w0, routes, offload, wish, {}, oracle.clock(0), oracle.draw(0));
        PreferredBid(s, w0, routes, offload, wish, oracle, x, claim, oracle.draw(0));
        if claim.Some? { return Placed(x, claim.value), w, turned, true; }
        RefusalsAppend(oracle, 0, [], x.endpoint);
        if wish.requireTarget { TargetIsHeld(s, w, routes, offload, wish, x.endpoint, oracle.clock(0)); }
        placement, turned, done := Unavailable, [x.endpoint], wish.requireTarget;
    }
  }

  lemma TargetIsHeld(s: Settings, w: World, routes: seq<Route>, offload: Option<OffloadRoute>, wish: Wish,
                     e: EndpointId, now: real)
    requires wish.preferred == Some(e)
    ensures MissesTarget(s, w, routes, offload, wish, Members([e]), now)
  {
  }

  lemma TargetIsMet(s: Settings, w: World, routes: seq<Route>, offload: Option<OffloadRoute>, wish: Wish,
                    refused: set<EndpointId>, now: real, draw: nat)
    ensures var choice := Select(s, w, routes, offload, wish, refused, now, draw);
            choice.Chosen? && wish.requireTarget && wish.preferred.Some? ==>
              choice.route.endpoint == wish.preferred.value
  {
    hide InReach;
    var choice := Select(s, w, routes, offload, wish, refused, now, draw);
    if choice.Chosen? {
      SelectHonoursWishes(s, w, routes, offload, wish, refused, now, draw, choice.route, choice.route);
    }
  }

  /** A pin is not looked at while a target is required. */
  lemma PinUnheard(s: Settings, w: World, routes: seq<Route>, offload: Option<OffloadRoute>, wish: Wish,
                   oracle: Oracle, base: nat, turned: seq<EndpointId>, placement: Placement)
    requires !PinCounts(wish)
    ensures PinFollowed(s, w, routes, offload, wish, oracle, base, turned, placement)
    ensures PinTried(s, w, routes, offload, wish, oracle, base, turned)
  {
  }

  /** The first bid of a request with a preference. */
  lemma PreferredBid(s: Settings, w: World, routes: seq<Route>, offload: Option<OffloadRoute>, wish: Wish,
                     oracle: Oracle, x: Route, claim: Option<DispatchClaim>, draw: nat)
    requires wish.preferred.Some? && Select(s, w, routes, offload, wish, {}, oracle.clock(0), draw) == Chosen(x)
    ensures claim.Some? ==> PinFollowed(s, w, routes, offload, wish, oracle, 0, [], Placed(x, claim.value))
    ensures wish.requireTarget ==> PinFollowed(s, w, routes, offload, wish, oracle, 0, [x.endpoint], Unavailable)
    ensures !wish.requireTarget ==>
              PinTried(s, w, routes, offload, wish.(preferred := None), oracle, 0, [x.endpoint])
  {
    hide Select, PinFollowed, PinTried, Bidding;
    NothingTurned();
    NothingBid(s, w, routes, offload, wish, oracle, 0);
    if wish.requireTarget {
      PinUnheard(s, w, routes, offload, wish, oracle, 0, [x.endpoint], Unavailable);
      if claim.Some? {
        PinUnheard(s, w, routes, offload, wish, oracle, 0, [], Placed(x, claim.value));
      }
    } else {
      PinFollowedOn(s, w, routes, offload, wish, oracle, 0, [], x, DispatchClaim(x.endpoint, None), draw);
      if claim.Some? {
        PinFollowedOn(s, w, routes, offload, wish, oracle, 0, [], x, claim.value, draw);
      }
      assert [] + [x.endpoint] == [x.endpoint];
      StillTried(s, w, routes, offload, wish, oracle, 0, [x.endpoint]);
    }
  }

  lemma StillTried(s: Settings, w: World, routes: seq<Route>, offload: Option<OffloadRoute>, wish: Wish,
                   oracle: Oracle, base: nat, turned: seq<EndpointId>)
    requires !wish.requireTarget && PinTried(s, w, routes, offload, wish, oracle, base, turned)
    ensures PinTried(s, w, routes, offload, wish.(preferred := None), oracle, base, turned)
  {
    hide Bidding, InReach;
    var open := wish.(preferred := None);
    forall k | 0 <= k < |turned| && PinStands(s, w, routes, offload, open, oracle, base, turned, k)
      ensures PinStands(s, w, routes, offload, wish, oracle, base, turned, k)
    {
    }
  }

  /** A reachable, unpinned preference is what selection chooses first. */
  lemma FirstChoice(s: Settings, w: World, routes: seq<Route>, offload: Option<OffloadRoute>, wish: Wish, now: real,
                    draw: nat)
    ensures var choice := Select(s, w, routes, offload, wish, {}, now, draw);
            Reachable(s, w, routes, offload, wish, now) ==>
              choice.Chosen? && choice.route.endpoint == wish.preferred.value
  {
    if Reachable(s, w, routes, offload, wish, now) {
      var y :| InReach(s, w, routes, offload, {}, now, y) && y.endpoint == wish.preferred.value;
      PreferenceHonouredIff(s, w, routes, offload, wish, {}, now, draw, y);
    }
  }

  lemma EveryRouteRefused(s: Settings, w: World, routes: seq<Route>, offload: Option<OffloadRoute>, wish: Wish,
                          refused: set<EndpointId>, at: real)
    requires refused <= EndpointsOf(routes) && |EndpointsOf(routes)| <= |refused|
    ensures GoodRefusal(s, w, routes, offload, wish, refused, at, AllOpen) && EndpointsOf(routes) == refused
  {
    FullSubset(refused, EndpointsOf(routes));
  }

  lemma ChoiceIsGood(s: Settings, w: World, routes: seq<Route>, offload: Option<OffloadRoute>, wish: Wish,
                     refused: set<EndpointId>, at: real, draw: nat)
    requires !wish.requireTarget
    ensures match Select(s, w, routes, offload, wish, refused, at, draw)
            case Chosen(x) => GoodRoute(routes, offload, wish.tokens, refused, x) && x.endpoint in EndpointsOf(routes)
            case NoneAdmissible => GoodRefusal(s, w, routes, offload, wish, refused, at, AllOpen)
            case TargetUnavailable => false
  {
    SelectIsSound(s, w, routes, offload, wish, refused, at, draw);
  }

  /** The ordinary loop: one pass per route, each dropping one more endpoint. Selection began at `start`, with pass
      `base`. */
  method Reselect(s: Settings, w0: World, ghost start: World, routes: seq<Route>, routeSize: nat,
                  offload: Option<OffloadRoute>, wish: Wish, oracle: Oracle, turned0: seq<EndpointId>, ghost base: nat)
    returns (placement: Placement, w: World, turned: seq<EndpointId>, at: real)
    requires |routes| <= routeSize && Members(turned0) <= EndpointsOf(routes) && Distinct(turned0)
    requires wish.preferred.None? && !wish.requireTarget
    requires base + |turned0| == 1 && w0.mine == start.mine + Refusals(oracle, base, turned0)
    requires w0 == Bidding(s, start, oracle, base, turned0)
    requires PinTried(s, start, routes, offload, wish, oracle, base, turned0)
    ensures Evolves(s, w0, w) && turned0 <= turned && Distinct(turned) && exists i :: at == oracle.clock(i)
    ensures w.mine == start.mine + SelectionDeeds(oracle, base, turned, placement) && !placement.Unavailable?
    ensures if placement.Placed? then GoodPlacement(w, routes, offload, wish.tokens, Members(turned), placement)
            else GoodRefusal(s, w, routes, offload, wish, Members(turned), at, placement)
    ensures PinFollowed(s, start, routes, offload, wish, oracle, base, turned, placement)
  {
    hide Evolves, Select, Allows, GoodRefusal, GoodRoute, GoodPlacement, EndpointsOf, Distinct, Refusals, Members,
         SelectionDeeds, Issued, Bidding, PinTried, PinFollowed;
    EvolvesReflexive(s, w0);
    w, turned, at := w0, turned0, oracle.clock(1);
    var passes := if routeSize == 0 then 1 else routeSize;
    FewEndpoints(routes);
    for i := 0 to passes
      invariant Evolves(s, w0, w) && turned0 <= turned && Distinct(turned) && i <= |Members(turned)|
      invariant base + |turned| == i + 1 && w.mine == start.mine + Refusals(oracle, base, turned)
      invariant w == Bidding(s, start, oracle, base, turned)
      invariant PinTried(s, start, routes, offload, wish, oracle, base, turned)
      invariant Members(turned) <= EndpointsOf(routes) && exists i :: at == oracle.clock(i)
    {
      at := oracle.clock(i + 1);
      var choice := Select(s, w, routes, offload, wish, Members(turned), at, oracle.draw(i + 1));
      ChoiceIsGood(s, w, routes, offload, wish, Members(turned), at, oracle.draw(i + 1));
      match choice {
        case NoneAdmissible =>
          NothingPlaced(oracle, base, turned, AllOpen);
          PinNotInReach(s, start, routes, offload, wish, oracle, base, turned);
          return AllOpen, w, turned, at;
        case TargetUnavailable => assert false;
        case Chosen(x) =>
          ghost var before := w;
          var claim;
          w, claim := Claim(s, w, x.endpoint, oracle, i + 1);
          EvolvesTransitive(s, w0, before, w);
          SelectionEnds(oracle, base, start.mine, turned, x, claim);
          BiddingOn(s, start, oracle, base, turned, x.endpoint);
          PinFollowedOn(s, start, routes, offload, wish, oracle, base, turned, x,
                        if claim.Some? then claim.value else DispatchClaim(x.endpoint, None), oracle.draw(i + 1));
          if claim.Some? {
            PlacementIsGood(w, routes, offload, wish.tokens, Members(turned), x, claim.value);
            return Placed(x, claim.value), w, turned, at;
          }
          TurnedGrows(routes, offload, wish.tokens, turned, x);
          turned := turned + [x.endpoint];
      }
    }
    EveryRouteRefused(s, w, routes, offload, wish, Members(turned), at);
    PinNotInReach(s, start, routes, offload, wish, oracle, base, turned);
    NothingPlaced(oracle, base, turned, AllOpen);
    placement := AllOpen;
  }

  lemma NothingPlaced(oracle: Oracle, base: nat, turned: seq<EndpointId>, placement: Placement)
    requires !placement.Placed?
    ensures SelectionDeeds(oracle, base, turned, placement) == Refusals(oracle, base, turned)
  {
  }

  lemma SelectionEnds(oracle: Oracle, base: nat, start: seq<Deed>, turned: seq<EndpointId>, x: Route,
                      claim: Option<DispatchClaim>)
    ensures var k := base + |turned|;
            var last := [Waited(None, oracle.others(k)), Bade(0, x.endpoint, oracle.claimClock(k), claim)];
            (start + Refusals(oracle, base, turned)) + last ==
            start + if claim.Some? then SelectionDeeds(oracle, base, turned, Placed(x, claim.value))
                    else Refusals(oracle, base, turned + [x.endpoint])
  {
    RefusalsAppend(oracle, base, turned, x.endpoint);
  }

  lemma PlacementIsGood(w: World, routes: seq<Route>, offload: Option<OffloadRoute>, tokens: nat,
                        refused: set<EndpointId>, x: Route, claim: DispatchClaim)
    requires GoodRoute(routes, offload, tokens, refused, x) && claim.endpoint == x.endpoint && Issued(w, claim)
    requires claim.token.Some? ==> At(w, x.endpoint).breaker.probeToken == claim.token
    ensures GoodPlacement(w, routes, offload, tokens, refused, Placed(x, claim))
  {
  }

  lemma NothingTurned()
    ensures Members([]) == {} && Distinct<EndpointId>([])
  {
  }

  /** One more refusal, of an endpoint that had not refused yet. */
  lemma TurnedGrows(routes: seq<Route>, offload: Option<OffloadRoute>, tokens: nat, turned: seq<EndpointId>, x: Route)
    requires Distinct(turned) && GoodRoute(routes, offload, tokens, Members(turned), x)
    ensures var after := turned + [x.endpoint];
            && Distinct(after) && |Members(after)| == |Members(turned)| + 1
            && Members(after) == Members(turned) + {x.endpoint}
  {
    assert Members(turned + [x.endpoint]) == Members(turned) + {x.endpoint};
    forall i | 0 <= i < |turned| ensures turned[i] != x.endpoint {
      assert turned[i] in Members(turned);
    }
  }

  /** Others may move between the admission query and the claim. */
  method Claim(s: Settings, w: World, e: EndpointId, oracle: Oracle, step: nat)
    returns (after: World, claim: Option<DispatchClaim>)
    ensures Evolves(s, w, after)
    ensures after.mine == w.mine + [Waited(None, oracle.others(step)), Bade(0, e, oracle.claimClock(step), claim)]
    ensures after == ClaimAt(s, Suspend(s, w, None, oracle.others(step)), 0, e, oracle.claimClock(step)).0
    ensures claim.Some? ==> claim.value.endpoint == e && Issued(after, claim.value)
                            && (claim.value.token.Some? ==> At(after, e).breaker.probeToken == claim.value.token)
  {
    var moved := Suspend(s, w, None, oracle.others(step));
    InterferenceEvolves(s, w, None, oracle.others(step));
    var now := oracle.claimClock(step);
    var (world, granted) := ClaimAt(s, moved, 0, e, now);
    EvolvesOn(s, w, moved, Claiming(0, e, now));
    if granted.Some? { ClaimIsIssued(s, moved, 0, e, now); }
    after, claim := world, granted;
  }
}

/** One request's life: select, claim, lease, attempt, fall back, and hand everything back. */
module Executor {
  import opened Options
  import opened Identifiers
  import opened Failures
  import opened CircuitBreaker
  import opened EndpointHealth
  import opened Gateway
  import opened Selection
  import opened FallbackWalk
  import opened Attempts
  import opened Requests
  import opened RequestLog
  import opened RequestTrail

  // ----- what a request holds

  /** Of everything the request was granted, only `claims` and `leases` may still be out. */
  ghost predicate Outstanding(w: World, claims: set<DispatchClaim>, leases: set<nat>) {
    && (forall c :: c in claims ==> Issued(w, c)) && (forall l :: l in leases ==> Granted(w, l))
    && (forall d :: d in w.mine && d.Bade? && d.claim.Some? ==> HandedBack(w, d.claim.value) || d.claim.value in claims)
    && (forall d :: d in w.mine && d.Took? ==> GivenBack(w, d.lease) || d.lease in leases)
  }

  /** Since `w0` the request did exactly `deeds`, and holds no more than `claims` and `leases`. */
  ghost predicate Owes(s: Settings, w0: World, w: World, deeds: seq<Deed>, claims: set<DispatchClaim>,
                       leases: set<nat>)
  {
    Evolves(s, w0, w) && w.mine == deeds && Outstanding(w, claims, leases)
  }

  /** Nothing this request took is still out: every lease is back, and no breaker holds one of its tokens. */
  ghost predicate Settled(w: World) { Outstanding(w, {}, {}) }

  /** Deeds that are granted nothing. */
  ghost predicate Ungranted(deeds: seq<Deed>) {
    forall d :: d in deeds ==> !d.Took? && !(d.Bade? && d.claim.Some?)
  }

  lemma OwesLasts(s: Settings, w0: World, w: World, after: World, claims: set<DispatchClaim>, leases: set<nat>,
                  more: seq<Deed>)
    requires Owes(s, w0, w, w.mine, claims, leases) && Evolves(s, w, after)
    requires after.mine == w.mine + more && Ungranted(more)
    ensures Owes(s, w0, after, w.mine + more, claims, leases)
  {
    hide Evolves;
    EvolvesTransitive(s, w0, w, after);
    EvolvesKeeps(s, w, after);
  }

  function Held(claim: Option<DispatchClaim>): set<DispatchClaim> {
    if claim.None? then {} else {claim.value}
  }

  lemma ClaimOwesClaim(s: Settings, w0: World, w: World, n: nat, claims: set<DispatchClaim>, e: EndpointId, now: real)
    requires Owes(s, w0, w, w.mine, claims, {})
    ensures var (after, claim) := ClaimAt(s, w, n, e, now);
            && Evolves(s, w, after) && after.mine == w.mine + [Bade(n, e, now, claim)]
            && Owes(s, w0, after, after.mine, claims + Held(claim), {})
  {
    hide Evolves;
    var (after, claim) := ClaimAt(s, w, n, e, now);
    MoveEvolves(s, w, Claiming(n, e, now));
    EvolvesOn(s, w0, w, Claiming(n, e, now));
    EvolvesKeeps(s, w, after);
    if claim.Some? {
      ClaimIsIssued(s, w, n, e, now);
    }
  }

  lemma EndSettlesClaim(s: Settings, w0: World, w: World, n: nat, rest: set<DispatchClaim>, leases: set<nat>,
                        claim: Option<DispatchClaim>)
    requires Owes(s, w0, w, w.mine, rest + Held(claim), leases)
    ensures var after := HandBackAt(w, n, claim);
            && Evolves(s, w, after) && Owes(s, w0, after, after.mine, rest, leases)
            && after.mine == w.mine + if claim.None? then [] else [Ended(n, claim.value)]
  {
    hide Evolves;
    MoveEvolves(s, w, Ending(n, claim));
    if claim.None? {
      assert rest + Held(claim) == rest;
    } else {
      OwesLasts(s, w0, w, HandBackAt(w, n, claim), rest + Held(claim), leases, [Ended(n, claim.value)]);
      EndKeeps(w, claim);
    }
  }

  lemma ReleaseSettlesLease(s: Settings, w0: World, w: World, claims: set<DispatchClaim>, l: nat, now: real,
                            confirmed: bool)
    requires Owes(s, w0, w, w.mine, claims, {l})
    ensures var after := ReleaseAt(s, w, l, now, confirmed);
            && Evolves(s, w, after) && Owes(s, w0, after, after.mine, claims, {})
            && after.mine == w.mine + [Freed(l, now, confirmed)]
  {
    hide Evolves;
    var after := ReleaseAt(s, w, l, now, confirmed);
    MoveEvolves(s, w, Releasing(l, now, confirmed));
    OwesLasts(s, w0, w, after, claims, {l}, [Freed(l, now, confirmed)]);
    EvolvesReflexive(s, w);
    ReleaseEvolves(s, w, w, l, now, confirmed);
  }

  function Acquired(c: Case, w: World, n: nat, e: EndpointId): World {
    var r := c.request;
    AcquireAt(c.s, w, n, c.up.clock(n).mono, e, r.wish.tokens, r.caller, r.fingerprint, r.anchor)
  }

  lemma AcquireOwesLease(c: Case, w0: World, w: World, n: nat, claims: set<DispatchClaim>, e: EndpointId)
    requires Owes(c.s, w0, w, w.mine, claims, {})
    ensures var after, l := Acquired(c, w, n, e), |w.prefill.leases|;
            && Evolves(c.s, w, after) && Owes(c.s, w0, after, after.mine, claims, {l})
            && after.mine == w.mine + [TookDeed(c, n, e, l)]
  {
    hide Evolves, Keeps;
    var r, after := c.request, Acquired(c, w, n, e);
    var m := Leasing(n, c.up.clock(n).mono, e, r.wish.tokens, r.caller, r.fingerprint, r.anchor);
    MoveEvolves(c.s, w, m);
    EvolvesOn(c.s, w0, w, m);
    EvolvesKeeps(c.s, w, after);
    KeepsOutstanding(c, w, after, n, claims, e);
  }

  lemma KeepsOutstanding(c: Case, w: World, after: World, n: nat, claims: set<DispatchClaim>, e: EndpointId)
    requires Outstanding(w, claims, {}) && Keeps(w, after) && after == Acquired(c, w, n, e)
    ensures Outstanding(after, claims, {|w.prefill.leases|})
  {
  }

  // ----- one attempt of each kind

  /** Wait for a whole response under a lease. */
  method AwaitWhole(c: Case, w0: World, start: World, claims: set<DispatchClaim>, n: nat, e: EndpointId, lease: nat)
    returns (w: World)
    requires Owes(c.s, w0, start, start.mine, claims, {lease})
    ensures Evolves(c.s, start, w) && Owes(c.s, w0, w, start.mine + WholeDeeds(n, e, lease, c.up.feed(n)), claims, {})
  {
    hide Evolves, AfterWhole;
    var feed := c.up.feed(n);
    w := AfterWhole(c.s, start, n, e, lease, feed, c.up.paging);
    WholeEvolves(c.s, start, n, e, lease, feed, c.up.paging);
    OwesLasts(c.s, w0, start, w, claims, {lease}, WholeDeeds(n, e, lease, feed));
  }

  lemma {:induction false} StreamIsUngranted(n: nat, e: EndpointId, lease: nat, feed: Feed, k: nat)
    requires k <= |feed.chunks|
    ensures Ungranted(StreamDeeds(n, e, lease, feed, k))
  {
    if k > 0 {
      StreamIsUngranted(n, e, lease, feed, k - 1);
    }
  }

  /** Read the announced stream of an attempt whose lease is out. */
  method AwaitStream(c: Case, w0: World, start: World, claims: set<DispatchClaim>, n: nat, e: EndpointId, lease: nat,
                     watched: bool)
    returns (w: World, emitted: seq<Chunk>, result: Result, proven: bool, course: Course)
    requires Owes(c.s, w0, start, start.mine, claims, {lease}) && n < c.up.patience
    ensures Evolves(c.s, start, w) && course.lease == lease
    ensures Owes(c.s, w0, w, start.mine + ReadDeeds(n, e, c.up.feed(n), course), claims, {lease})
    ensures Played(c.up, n, true, watched, proven, course, emitted, result)
  {
    hide Owes, Evolves, WorldAfter, Holdable, StreamDeeds, NoContent;
    var feed, room := c.up.feed(n), c.up.patience - n;
    var taken, left;
    w, emitted, result, proven, taken, left := Relay(c.s, start, n, e, lease, feed, watched, room);
    course := Course(lease, taken, left);
    ghost var last := WorldAfter(c.s, start, n, e, lease, feed, taken);
    StreamEvolves(c.s, start, n, e, lease, feed, taken);
    EvolvesOn(c.s, start, last, Suspending(Some(n), if left then feed.leaving else feed.others(|feed.chunks|)));
    StreamIsUngranted(n, e, lease, feed, taken);
    OwesLasts(c.s, w0, start, w, claims, {lease}, ReadDeeds(n, e, feed, course));
  }

  /** Score a failed attempt. */
  method Conclude(c: Case, w0: World, start: World, claims: set<DispatchClaim>, leases: set<nat>, e: EndpointId,
                  result: Result, clock: Clock)
    returns (w: World)
    requires Owes(c.s, w0, start, start.mine, claims, leases)
    ensures Evolves(c.s, start, w) && Owes(c.s, w0, w, start.mine + DownDeeds(e, result, clock), claims, leases)
  {
    hide Evolves, FailAt, Outstanding;
    w := start;
    EvolvesReflexive(c.s, start);
    if result.Broke? {
      w := Charge(c.s, start, e, result.failure, c.up.paging, clock);
      EvolvesOn(c.s, start, start,
                ReportingDown(e, result.failure, c.up.paging.policy, clock, c.up.paging.scheduled));
      OwesLasts(c.s, w0, start, w, claims, leases, [ReportedDown(e, result.failure, clock)]);
    }
  }

  /** Be suspended: anyone else may move. */
  method Pause(c: Case, w0: World, start: World, claims: set<DispatchClaim>, leases: set<nat>, n: nat,
               actions: seq<TimedAction>)
    returns (w: World)
    requires Owes(c.s, w0, start, start.mine, claims, leases)
    ensures Evolves(c.s, start, w) && Owes(c.s, w0, w, start.mine + [Waited(Some(n), actions)], claims, leases)
  {
    hide Evolves, Outstanding;
    w := Suspend(c.s, start, Some(n), actions);
    InterferenceEvolves(c.s, start, Some(n), actions);
    OwesLasts(c.s, w0, start, w, claims, leases, [Waited(Some(n), actions)]);
  }

  lemma OwesIs(s: Settings, w0: World, w: World, deeds: seq<Deed>, claims: set<DispatchClaim>, leases: set<nat>)
    requires Owes(s, w0, w, deeds, claims, leases)
    ensures w.mine == deeds && Evolves(s, w0, w)
  {
  }

  /** A fallback attempt for a whole response: lease, wait, release, score. */
  method AttemptWhole(c: Case, w0: World, start: World, claims: set<DispatchClaim>, n: nat, e: EndpointId)
    returns (w: World, lease: nat)
    requires Owes(c.s, w0, start, start.mine, claims, {})
    ensures Evolves(c.s, start, w)
    ensures Owes(c.s, w0, w, start.mine + ([TookDeed(c, n, e, lease)] + WholeDeeds(n, e, lease, c.up.feed(n))),
                 claims, {})
  {
    hide Owes, Evolves, WholeDeeds;
    lease := |start.prefill.leases|;
    AcquireOwesLease(c, w0, start, n, claims, e);
    var held := Acquired(c, start, n, e);
    w := AwaitWhole(c, w0, held, claims, n, e, lease);
    EvolvesTransitive(c.s, start, held, w);
    Regroup(start.mine, [TookDeed(c, n, e, lease)], WholeDeeds(n, e, lease, c.up.feed(n)));
  }

  lemma Regroup(a: seq<Deed>, b: seq<Deed>, c: seq<Deed>)
    ensures (a + b) + c == a + (b + c)
  {
  }

  /** A fallback attempt for a stream: announce, lease, read, score a failure, release. */
  method AttemptStream(c: Case, w0: World, start: World, claims: set<DispatchClaim>, n: nat, e: EndpointId,
                       watched: bool)
    returns (w: World, emitted: seq<Chunk>, result: Result, proven: bool, course: Course)
    requires Owes(c.s, w0, start, start.mine, claims, {}) && n < c.up.patience
    ensures Evolves(c.s, start, w) && Played(c.up, n, true, watched, proven, course, emitted, result)
    ensures var feed := c.up.feed(n);
            Owes(c.s, w0, w, start.mine + ([Waited(Some(n), feed.announcing), TookDeed(c, n, e, course.lease)]
                                           + ReadDeeds(n, e, feed, course) + DownDeeds(e, result, EndOf(feed))
                                           + [Freed(course.lease, EndOf(feed).mono, false)]), claims, {})
  {
    hide Owes, Evolves, Played, ReadDeeds, DownDeeds;
    var feed, end := c.up.feed(n), EndOf(c.up.feed(n));
    var announced := Pause(c, w0, start, claims, {}, n, feed.announcing);
    OwesIs(c.s, w0, announced, start.mine + [Waited(Some(n), feed.announcing)], claims, {});
    var lease := |announced.prefill.leases|;
    AcquireOwesLease(c, w0, announced, n, claims, e);
    var held := Acquired(c, announced, n, e);
    EvolvesTransitive(c.s, start, announced, held);
    var read, scored;
    read, emitted, result, proven, course := AwaitStream(c, w0, held, claims, n, e, lease, watched);
    EvolvesTransitive(c.s, start, held, read);
    OwesIs(c.s, w0, read, held.mine + ReadDeeds(n, e, feed, course), claims, {lease});
    scored := Conclude(c, w0, read, claims, {lease}, e, result, end);
    EvolvesTransitive(c.s, start, read, scored);
    OwesIs(c.s, w0, scored, read.mine + DownDeeds(e, result, end), claims, {lease});
    ReleaseSettlesLease(c.s, w0, scored, claims, lease, end.mono, false);
    w := ReleaseAt(c.s, scored, lease, end.mono, false);
    EvolvesTransitive(c.s, start, scored, w);
    assert w.mine == start.mine + ([Waited(Some(n), feed.announcing), TookDeed(c, n, e, course.lease)]
                                   + ReadDeeds(n, e, feed, course) + DownDeeds(e, result, end)
                                   + [Freed(course.lease, end.mono, false)]);
  }

  // ----- one candidate

  ghost predicate OnPath(s: Settings, w0: World, w: World, x: Entry) {
    x.Dispatched? ==> Evolves(s, w0, x.begun) && Evolves(s, x.begun, w)
  }

  /** What trying a candidate yields: its entry, with everything about it that does not depend on the walk. */
  ghost predicate TriedAs(c: Case, front: seq<Entry>, handout: Handout, x: Route, entry: Entry, emitted: seq<Chunk>) {
    && entry.handout == handout && entry.route == x && !entry.TooNarrow?
    && Claimed(c, front, entry) && ArmedRight(c, front, entry)
    && if entry.Dispatched? then PlayedAs(c, front, entry, emitted) else emitted == []
  }

  /** Claim a candidate's endpoint and run one attempt there. The primary's own retry first hands back the claim
      its first attempt took. */
  method TryCandidate(c: Case, w0: World, start: World, held0: Option<DispatchClaim>, front: seq<Entry>,
                      handout: Handout, x: Route, pending: Option<Adapter>, refused: Option<nat>)
    returns (w: World, held: Option<DispatchClaim>, entry: Entry, emitted: seq<Chunk>)
    requires Owes(c.s, w0, start, start.mine, Held(held0), {}) && held0 == HeldAfter(c, front)
    requires AttemptsIn(front) > 0 && c.request.pin.Unpinned?
    requires refused == Widest(front) && pending == if handout.Offloaded? then None else OffloadPending(c, front)
    ensures Evolves(c.s, start, w) && held == (if x.adapter == c.primary.adapter then None else held0)
    ensures Owes(c.s, w0, w, start.mine + CandidateDeeds(c, front, entry), Held(held), {})
    ensures entry.handout == handout && entry.route == x && TriedAs(c, front, handout, x, entry, emitted)
    ensures OnPath(c.s, w0, w, entry)
  {
    hide Owes, Evolves, Played, DeadlineArmed, OffloadPending, Widest, AttemptsIn, HeldAfter, AttemptDeeds;
    w, held := start, held0;
    EvolvesReflexive(c.s, start);
    ghost var first := [];
    if x.adapter == c.primary.adapter {
      assert {} + Held(held) == Held(held);
      EndSettlesClaim(c.s, w0, w, 0, {}, {}, held);
      first := EndDeeds(held);
      w, held := HandBackAt(w, 0, held), None;
    }
    var n := AttemptsIn(front);
    var now := c.up.clock(n).perf;
    ClaimOwesClaim(c.s, w0, w, n, Held(held), x.endpoint, now);
    var (begun, claim) := ClaimAt(c.s, w, n, x.endpoint, now);
    EvolvesTransitive(c.s, start, w, begun);
    assert begun.mine == start.mine + (first + [Bade(n, x.endpoint, now, claim)]);
    if claim.None? {
      assert Held(held) + Held(claim) == Held(held);
      return begun, held, TurnedAway(handout, x), [];
    }
    ClaimIsIssued(c.s, w, n, x.endpoint, now);
    assert begun.mine[|begun.mine| - 1] == Bade(n, x.endpoint, now, claim);
    var armed := DeadlineArmed(c.s, begun, c.routes, pending, refused, c.up.keyForCaller(n), c.up.asked(n));
    w, entry, emitted := RunClaimed(c, w0, begun, Held(held), claim.value, handout, x, n, armed);
    OwesIs(c.s, w0, begun, begun.mine, Held(held) + Held(claim), {});
    EvolvesTransitive(c.s, start, begun, w);
    Regroup(start.mine, first + [Bade(n, x.endpoint, now, claim)],
            AttemptDeeds(c, n, entry) + [Ended(n, claim.value)]);
    Regroup(first + [Bade(n, x.endpoint, now, claim)], AttemptDeeds(c, n, entry), [Ended(n, claim.value)]);
  }

  /** Run attempt `n` under `claim` and hand the claim back when it is over, however it ended. */
  method RunClaimed(c: Case, w0: World, start: World, others: set<DispatchClaim>, claim: DispatchClaim,
                    handout: Handout, x: Route, n: nat, armed: bool)
    returns (w: World, entry: Entry, emitted: seq<Chunk>)
    requires Owes(c.s, w0, start, start.mine, others + Held(Some(claim)), {}) && n > 0
    ensures Evolves(c.s, start, w) && entry.Dispatched?
    ensures entry == Dispatched(handout, x, Some(claim), start, armed, entry.proven, entry.course, entry.result)
    ensures Owes(c.s, w0, w, start.mine + (AttemptDeeds(c, n, entry) + [Ended(n, claim)]), others, {})
    ensures Played(c.up, n, c.request.streaming, armed, entry.proven, entry.course, emitted, entry.result)
  {
    hide Owes, Evolves, Holdable, WholeDeeds, ReadDeeds, DownDeeds, Ran;
    var claims, feed := others + Held(Some(claim)), c.up.feed(n);
    var ran, result, proven, course := start, Gone, false, Course(0, 0, false);
    emitted := [];
    if !c.request.streaming {
      var lease;
      ran, lease := AttemptWhole(c, w0, start, claims, n, x.endpoint);
      result, proven, course := Concluded(feed.ending), feed.ending.Finished?, Course(lease, 0, false);
    } else if c.up.patience <= n {
      ran := Pause(c, w0, start, claims, {}, n, feed.leaving);
    } else {
      ran, emitted, result, proven, course := AttemptStream(c, w0, start, claims, n, x.endpoint, armed);
    }
    entry := Dispatched(handout, x, Some(claim), start, armed, proven, course, result);
    OwesIs(c.s, w0, ran, start.mine + AttemptDeeds(c, n, entry), claims, {});
    EndSettlesClaim(c.s, w0, ran, n, others, {}, Some(claim));
    w := HandBackAt(ran, n, Some(claim));
    EvolvesTransitive(c.s, start, ran, w);
    Regroup(start.mine, AttemptDeeds(c, n, entry), [Ended(n, claim)]);
  }

  // ----- the fallback loop

  /** Where the loop stands: every attempt so far failed and showed the client nothing. */
  ghost predicate Underway(c: Case, t: Trail, order: Order, log: seq<Entry>) {
    CaughtUp(c, t, log) && t.walk.order == order && Disciplined(c, log) && GoesOn(c, log) && log != []
  }

  ghost predicate Fixed(c: Case) { DistinctRoutes(c.routes) && c.primary in c.routes && MayFall(c.request) }

  /** The primary's failure is the walk's first report. */
  lemma UnderwayBegins(c: Case, first: Entry)
    requires Fixed(c) && Disciplined(c, [first]) && GoesOn(c, [first]) && Failed(first)
             && first.handout == Ordinary(c.primary.adapter)
    ensures Underway(c, Telling(Began(c), first),
                     NoteFailure(NewOrder(PlanOf(c).ordinary, PlanOf(c).offload), first.result.failure,
                                 Some(c.primary.adapter)), [first])
  {
    hide OnTrail, Disciplined, GoesOn;
    TrailBegins(c, first);
    FrontOf([], first);
    assert [] + [first] == [first];
    assert Told([], []);
    TrailTells(c, Began(c), [first]);
  }

  lemma EntryIsJustified(c: Case, t: Trail, order: Order, log: seq<Entry>, x: Entry)
    requires Fixed(c) && Underway(c, t, order, log) && Next(t, x.handout)
    requires x.route in c.routes && x.route.adapter == x.handout.adapter && Fits(log, x) && Claimed(c, log, x)
             && ArmedRight(c, log, x)
    ensures Disciplined(c, log + [x]) && OnTrail(c, Asking(t), log + [x])
    ensures var o := Asking(t).walk.order; o.offload.Some? ==> o.offloadNext.None?
  {
    hide OnTrail, Disciplined, GoesOn, DeclaredInTurn, RetryInTurn, OffloadInTurn, Fits, Claimed, ArmedRight, MayServe;
    NextIsRouted(c, t, log, x.handout, x.route);
    NextIsDeclared(c, t, log, x);
    NextRetryInTurn(c, t, log, x);
    NextOffloadInTurn(c, t, log, x);
    DisciplineGrows(c, log, x);
    TrailAsks(c, t, log, x);
    PendingIs(c, t, log);
  }

  /** A candidate that was not dispatched. */
  lemma UnderwayPasses(c: Case, t: Trail, order: Order, log: seq<Entry>, x: Entry)
    requires Fixed(c) && Underway(c, t, order, log) && Next(t, x.handout) && !x.Dispatched?
    requires x.route in c.routes && x.route.adapter == x.handout.adapter && Fits(log, x)
    ensures Underway(c, Asking(t), Advance(order).0, log + [x]) && Widest(log + [x]) == Widest(log)
  {
    hide OnTrail, Disciplined, Fits, CaughtUp;
    EntryIsJustified(c, t, order, log, x);
    NothingToTell(c, t, log, x);
    FrontOf(log, x);
  }

  /** A dispatched attempt. */
  lemma UnderwaySends(c: Case, t: Trail, order: Order, log: seq<Entry>, x: Entry, emitted: seq<Chunk>)
    requires Fixed(c) && Underway(c, t, order, log) && Next(t, x.handout) && x.Dispatched?
    requires x.route in c.routes && TriedAs(c, log, x.handout, x.route, x, emitted)
             && x.route.adapter == x.handout.adapter
    requires !CannotFit(x.route, Widest(log))
    ensures Disciplined(c, log + [x]) && Accounted(c, log + [x], emitted, OutcomeOf(x, emitted))
    ensures Failed(x) && emitted == [] && MalformedCount(log + [x]) < 2 ==>
              && Underway(c, Telling(Asking(t), x), NoteFailure(Advance(order).0, x.result.failure,
                                                                Some(x.handout.adapter)), log + [x])
              && Widest(log + [x]) == WidestRefused(Widest(log), x.route, x.result.failure)
  {
    hide OnTrail, Disciplined, Played, CannotFit, Claimed, ArmedRight;
    assert Fits(log, x);
    EntryIsJustified(c, t, order, log, x);
    FrontOf(log, x);
    if Failed(x) && emitted == [] && MalformedCount(log + [x]) < 2 {
      ToldUntilAsked(t.run, log);
      TrailTells(c, Asking(t), log + [x]);
    }
  }

  lemma UnderwayEnds(c: Case, t: Trail, order: Order, log: seq<Entry>)
    requires Fixed(c) && Underway(c, t, order, log) && Advance(order).1.None?
    ensures Performed(c, log, [], AllFailed)
  {
    hide OnTrail, Disciplined, CaughtUp, Played, MalformedCount, NothingLeft;
    EndedSawAll(c, t, log);
  }

  /** Walk the rest of the route after the primary failed without showing the client anything. */
  method WalkRoutes(c: Case, w0: World, start: World, ghost prelude: seq<Deed>, claim: Option<DispatchClaim>,
                    first: Entry)
    returns (outcome: Outcome, w: World, held: Option<DispatchClaim>, log: seq<Entry>, emitted: seq<Chunk>)
    requires Fixed(c) && Failed(first) && first.handout == Ordinary(c.primary.adapter) && first.route == c.primary
    requires Disciplined(c, [first]) && GoesOn(c, [first])
             && Owes(c.s, w0, start, DeedsOf(c, prelude, [first]), Held(claim), {}) && first.claim == claim
    requires OnPath(c.s, w0, start, first)
    ensures Owes(c.s, w0, w, DeedsOf(c, prelude, log), Held(held), {}) && held == HeldAfter(c, log)
    ensures log != [] && log[0] == first && Performed(c, log, emitted, outcome)
    ensures forall x :: x in log ==> OnPath(c.s, w0, w, x)
  {
    hide Owes, Performed, Underway, OnPath, Disciplined, GoesOn, DeedsOf, Fixed, PlanOf;
    w, held, log, outcome, emitted := start, claim, [first], AllFailed, [];
    var plan, failure := PlanOf(c), first.result.failure;
    var order := NoteFailure(NewOrder(plan.ordinary, plan.offload), failure, Some(c.primary.adapter));
    var refused := WidestRefused(None, c.primary, failure);
    ghost var trail := Telling(Began(c), first);
    UnderwayBegins(c, first);
    WidestOfOne(first);
    var finished := false;
    while !finished
      invariant Owes(c.s, w0, w, DeedsOf(c, prelude, log), Held(held), {}) && held == HeldAfter(c, log)
      invariant log != [] && log[0] == first && forall x :: x in log ==> OnPath(c.s, w0, w, x)
      invariant if finished then Performed(c, log, emitted, outcome)
                else Underway(c, trail, order, log) && refused == Widest(log) && AttemptsIn(log) > 0
      decreases !finished, Remaining(order, AdaptersOf(c.routes))
    {
      if Advance(order).1.None? {
        UnderwayEnds(c, trail, order, log);
        outcome, emitted, finished := AllFailed, [], true;
      } else {
        w, held, log, order, refused, trail, emitted, outcome, finished :=
          Proceed(c, w0, w, prelude, held, log, order, refused, trail);
      }
    }
  }

  lemma WidestOfOne(first: Entry)
    requires Failed(first)
    ensures Widest([first]) == WidestRefused(None, first.route, first.result.failure) && AttemptsIn([first]) == 1
  {
    FrontOf([], first);
    assert [] + [first] == [first];
  }

  /** Ask for the next candidate, pass over it or try it, and note a failure that lets the walk go on. */
  method Proceed(c: Case, w0: World, start: World, ghost prelude: seq<Deed>, held0: Option<DispatchClaim>,
                 log0: seq<Entry>, order0: Order, refused0: Option<nat>, ghost t0: Trail)
    returns (w: World, held: Option<DispatchClaim>, log: seq<Entry>, order: Order, refused: Option<nat>, ghost t: Trail,
             emitted: seq<Chunk>, outcome: Outcome, finished: bool)
    requires Fixed(c) && Owes(c.s, w0, start, DeedsOf(c, prelude, log0), Held(held0), {}) && Advance(order0).1.Some?
    requires held0 == HeldAfter(c, log0)
    requires Underway(c, t0, order0, log0) && refused0 == Widest(log0) && AttemptsIn(log0) > 0 && log0 != []
    requires forall x :: x in log0 ==> OnPath(c.s, w0, start, x)
    ensures Owes(c.s, w0, w, DeedsOf(c, prelude, log), Held(held), {}) && held == HeldAfter(c, log) && log0 <= log
    ensures forall x :: x in log ==> OnPath(c.s, w0, w, x)
    ensures if finished then Performed(c, log, emitted, outcome)
            else && Underway(c, t, order, log) && refused == Widest(log) && AttemptsIn(log) > 0
                 && Remaining(order, AdaptersOf(c.routes)) < Remaining(order0, AdaptersOf(c.routes))
  {
    hide Owes, Performed, Underway, OnPath, Disciplined, DeedsOf, CandidateDeeds, HeldAfter, Widest, AttemptsIn,
         CannotFit, OffloadPending, TriedAs;
    var (next, handout) := Advance(order0);
    CandidateIs(c, t0, order0, log0);
    AdvanceShrinks(order0, AdaptersOf(c.routes));
    var h := handout.value;
    var x := RouteOf(c.routes, h.adapter);
    w, held, emitted, outcome, finished, refused := start, held0, [], AllFailed, false, refused0;
    order, t := next, Asking(t0);
    var entry;
    if CannotFit(x, refused0) {
      entry := TooNarrow(h, x);
      NarrowDeeds(c, prelude, log0, entry);
      PathGoesOn(c.s, w0, start, start, log0, entry);
    } else {
      OwesIs(c.s, w0, start, DeedsOf(c, prelude, log0), Held(held0), {});
      w, held, entry, emitted := TryCandidate(c, w0, start, held0, log0, h, x,
                                              if h.Offloaded? then None else order0.offload, refused0);
      DeedsGrow(c, prelude, log0, entry);
      NotNarrow(c, log0, h, x, entry, emitted);
      PathGoesOn(c.s, w0, start, w, log0, entry);
    }
    log := log0 + [entry];
    if entry.Dispatched? {
      t, order, refused, outcome, finished := Enter(c, log0, order0, refused0, t0, entry, emitted);
    } else {
      PassesAre(c, log0, h, x, entry, emitted);
      UnderwayPasses(c, t0, order0, log0, entry);
    }
  }

  lemma CandidateIs(c: Case, t: Trail, order: Order, log: seq<Entry>)
    requires Fixed(c) && Underway(c, t, order, log) && Advance(order).1.Some?
    ensures Next(t, Advance(order).1.value) && Advance(order).1.value.adapter in AdaptersOf(c.routes)
    ensures order.offload == OffloadPending(c, log) && c.request.pin.Unpinned?
  {
    hide Disciplined, GoesOn, OnTrail;
    NextInRoutes(c, t, log, Advance(order).1.value);
    PendingIs(c, t, log);
  }

  lemma NarrowDeeds(c: Case, prelude: seq<Deed>, log: seq<Entry>, x: Entry)
    requires x.TooNarrow? && log != []
    ensures DeedsOf(c, prelude, log + [x]) == DeedsOf(c, prelude, log) && HeldAfter(c, log + [x]) == HeldAfter(c, log)
  {
    DeedsGrow(c, prelude, log, x);
  }

  lemma NotNarrow(c: Case, log: seq<Entry>, h: Handout, x: Route, entry: Entry, emitted: seq<Chunk>)
    requires TriedAs(c, log, h, x, entry, emitted)
    ensures !entry.TooNarrow?
  {
  }

  lemma PathGoesOn(s: Settings, w0: World, w: World, after: World, log: seq<Entry>, x: Entry)
    requires (forall y :: y in log ==> OnPath(s, w0, w, y)) && (Evolves(s, w, after) || after == w)
    requires !x.Dispatched? || OnPath(s, w0, after, x)
    ensures forall y :: y in log + [x] ==> OnPath(s, w0, after, y)
  {
    hide Evolves;
    forall y | y in log + [x] ensures OnPath(s, w0, after, y) {
      if y in log && y.Dispatched? && after != w {
        EvolvesTransitive(s, y.begun, w, after);
      }
    }
  }

  /** An undispatched candidate was too narrow, or was tried and turned away. */
  lemma PassesAre(c: Case, log: seq<Entry>, h: Handout, x: Route, entry: Entry, emitted: seq<Chunk>)
    requires !entry.Dispatched? && log != []
    requires if CannotFit(x, Widest(log)) then entry == TooNarrow(h, x) && emitted == []
             else TriedAs(c, log, h, x, entry, emitted)
    ensures entry.handout == h && entry.route == x && Fits(log, entry) && emitted == []
    ensures AttemptsIn(log + [entry]) == AttemptsIn(log)
  {
    FrontOf(log, entry);
  }

  lemma AdvanceShrinks(o: Order, universe: set<Adapter>)
    requires Advance(o).1.Some?
    ensures Remaining(Advance(o).0, universe) < Remaining(o, universe)
  {
  }

  lemma NoteKeepsRemaining(o: Order, f: Failure, a: Adapter, universe: set<Adapter>)
    requires a in universe
    ensures Remaining(NoteFailure(o, f, Some(a)), universe) <= Remaining(o, universe)
  {
    StepConsumes(Begun(o), Report(f, Some(a)), universe);
  }

  /** Record a dispatched attempt and decide whether the walk goes on. */
  method Enter(c: Case, log0: seq<Entry>, order0: Order, refused0: Option<nat>, ghost t0: Trail, x: Entry,
               emitted: seq<Chunk>)
    returns (ghost t: Trail, order: Order, refused: Option<nat>, outcome: Outcome, finished: bool)
    requires Fixed(c) && Underway(c, t0, order0, log0) && refused0 == Widest(log0) && Next(t0, x.handout)
             && x.Dispatched?
    requires x.route in c.routes && x.route.adapter == x.handout.adapter && !CannotFit(x.route, Widest(log0))
    requires TriedAs(c, log0, x.handout, x.route, x, emitted) && Advance(order0).1.Some?
    ensures var log := log0 + [x];
            if finished then Performed(c, log, emitted, outcome)
            else && Underway(c, t, order, log) && refused == Widest(log) && AttemptsIn(log) > 0
                 && Remaining(order, AdaptersOf(c.routes)) < Remaining(order0, AdaptersOf(c.routes))
  {
    hide Underway, Disciplined, NothingLeft, CannotFit, TriedAs, Accounted, Played;
    t, order, refused, outcome := t0, Advance(order0).0, refused0, OutcomeOf(x, emitted);
    UnderwaySends(c, t0, order0, log0, x, emitted);
    FrontOf(log0, x);
    finished := !x.result.Broke? || emitted != [] || MalformedCount(log0 + [x]) >= 2;
    if !finished {
      var f := x.result.failure;
      AdvanceShrinks(order0, AdaptersOf(c.routes));
      NoteKeepsRemaining(order, f, x.handout.adapter, AdaptersOf(c.routes));
      t, order, refused := Telling(Asking(t0), x), NoteFailure(order, f, Some(x.handout.adapter)),
          WidestRefused(refused0, x.route, f);
    }
  }

  // ----- the request

  datatype Start = Ready(primary: Route, claim: Option<DispatchClaim>, lease: nat) | NotBegun(outcome: Outcome)

  /** Why the request's primary is its primary: the pin's route, or a placement of selection's. */
  ghost predicate GoodPrimary(routes: seq<Route>, offload: Option<OffloadRoute>, request: Request,
                              turned: seq<EndpointId>, primary: Route, claim: Option<DispatchClaim>)
  {
    var wish := request.wish;
    if request.pin.Pinned? then request.pin.route == Some(primary) && claim.None? && turned == []
    else
      && GoodRoute(routes, offload, wish.tokens, Members(turned), primary)
      && claim.Some? && claim.value.endpoint == primary.endpoint
      && (wish.requireTarget && wish.preferred.Some? ==> primary.endpoint == wish.preferred.value)
  }

  /** What a request does before it has its primary: nothing for a pin, else its selection. */
  function Prelude(request: Request, oracle: Oracle, turned: seq<EndpointId>, primary: Route,
                   claim: Option<DispatchClaim>): seq<Deed>
  {
    if request.pin.Pinned? || claim.None? then []
    else SelectionDeeds(oracle, FirstPass(request.wish), turned, Placed(primary, claim.value))
  }

  /** A primary that could not be bound: its claim goes back, then its lease. */
  function UnboundDeeds(c: Case, claim: Option<DispatchClaim>, lease: nat): seq<Deed> {
    [TookDeed(c, 0, c.primary.endpoint, lease)] + EndDeeds(claim) + [Freed(lease, c.up.clock(0).mono, false)]
  }

  /** Why a request dispatched nothing, and what it did. */
  ghost predicate NeverBegan(s: Settings, w: World, routes: seq<Route>, offload: Option<OffloadRoute>, request: Request,
                             oracle: Oracle, up: Upstream, turned: seq<EndpointId>, outcome: Outcome)
  {
    match outcome
    case NotPlaced(placement, at) =>
      && request.pin.Unpinned? && !placement.Placed?
      && w.mine == SelectionDeeds(oracle, FirstPass(request.wish), turned, placement)
      && GoodRefusal(s, w, routes, offload, request.wish, Members(turned), at, placement)
    case PinNotFound => request.pin == Pinned(None) && w.mine == []
    case BindingRefused =>
      !up.bindable && exists primary, claim, lease ::
        && GoodPrimary(routes, offload, request, turned, primary, claim)
        && w.mine == Prelude(request, oracle, turned, primary, claim)
                     + UnboundDeeds(Case(s, routes, offload, request, up, primary), claim, lease)
    case _ => false
  }

  /** The request's bid number `k`, counted from 0, is for endpoint `e`: bids and suspensions alternate. */
  predicate BidsFor(w: World, k: nat, e: EndpointId) {
    2 * k + 1 < |w.mine| && w.mine[2 * k + 1].Bade? && w.mine[2 * k + 1].endpoint == e
  }

  /** A reachable preference that competes with no pin is the first endpoint the request bids for, and a pin in reach
      is what it bids for next, at first and after any refusals. */
  ghost predicate WishesHeard(s: Settings, w0: World, w: World, routes: seq<Route>, offload: Option<OffloadRoute>,
                              request: Request, oracle: Oracle, turned: seq<EndpointId>)
  {
    var wish := request.wish;
    request.pin.Unpinned? ==>
      && (Reachable(s, w0, routes, offload, wish, oracle.clock(0)) ==> BidsFor(w, 0, wish.preferred.value))
      && (PinCounts(wish) ==>
            forall k :: 0 <= k <= |turned|
                        && PinStands(s, w0, routes, offload, wish, oracle, FirstPass(wish), turned, k) ==>
              BidsFor(w, k, wish.affinity.value))
  }

  lemma {:induction false} RefusalAt(oracle: Oracle, base: nat, turned: seq<EndpointId>, k: nat)
    requires k < |turned|
    ensures var ds := Refusals(oracle, base, turned);
            |ds| == 2 * |turned| && ds[2 * k + 1].Bade? && ds[2 * k + 1].endpoint == turned[k]
  {
    var n := |turned| - 1;
    if k < n {
      RefusalAt(oracle, base, turned[..n], k);
    } else if n > 0 {
      RefusalAt(oracle, base, turned[..n], 0);
    }
  }

  lemma BidIs(oracle: Oracle, base: nat, turned: seq<EndpointId>, placement: Placement, w: World, k: nat)
    requires w.mine == SelectionDeeds(oracle, base, turned, placement) && Asked(turned, placement, k).Some?
    ensures BidsFor(w, k, Asked(turned, placement, k).value)
  {
    if turned != [] {
      RefusalAt(oracle, base, turned, if k < |turned| then k else 0);
    }
  }

  /** What selection promises about wishes, seen in what the request did. */
  lemma SelectionHeard(s: Settings, w0: World, w: World, routes: seq<Route>, offload: Option<OffloadRoute>,
                       request: Request, oracle: Oracle, turned: seq<EndpointId>, placement: Placement)
    requires w.mine == SelectionDeeds(oracle, FirstPass(request.wish), turned, placement)
    requires PinFollowed(s, w0, routes, offload, request.wish, oracle, FirstPass(request.wish), turned, placement)
    requires Reachable(s, w0, routes, offload, request.wish, oracle.clock(0)) ==>
               FirstAsked(turned, placement) == request.wish.preferred
    ensures WishesHeard(s, w0, w, routes, offload, request, oracle, turned)
  {
    hide BidsFor, PinStands, SelectionDeeds;
    forall k | 0 <= k <= |turned| && Asked(turned, placement, k).Some?
      ensures BidsFor(w, k, Asked(turned, placement, k).value)
    {
      BidIs(oracle, FirstPass(request.wish), turned, placement, w, k);
    }
    assert FirstAsked(turned, placement) == Asked(turned, placement, 0);
    if Reachable(s, w0, routes, offload, request.wish, oracle.clock(0)) {
      assert request.wish.preferred.Some?;
    }
  }

  lemma {:induction false} RefusalsGrantNothing(oracle: Oracle, base: nat, turned: seq<EndpointId>)
    ensures Ungranted(Refusals(oracle, base, turned))
  {
    if turned != [] {
      RefusalsGrantNothing(oracle, base, turned[..|turned| - 1]);
    }
  }

  /** Select and claim a primary, or take the pinned one. */
  method Choose(s: Settings, w0: World, routes: seq<Route>, routeSize: nat, offload: Option<OffloadRoute>,
                request: Request, oracle: Oracle, ghost up: Upstream)
    returns (begun: Start, w: World, turned: seq<EndpointId>)
    requires |routes| <= routeSize && w0.mine == []
    ensures begun.Ready? ==>
              && GoodPrimary(routes, offload, request, turned, begun.primary, begun.claim)
              && Owes(s, w0, w, Prelude(request, oracle, turned, begun.primary, begun.claim), Held(begun.claim), {})
    ensures begun.NotBegun? ==>
              && Evolves(s, w0, w) && Settled(w) && !begun.outcome.BindingRefused?
              && NeverBegan(s, w, routes, offload, request, oracle, up, turned, begun.outcome)
    ensures WishesHeard(s, w0, w, routes, offload, request, oracle, turned)
  {
    hide Evolves, GoodRoute, GoodRefusal, InReach, Refusals;
    w, turned := w0, [];
    EvolvesReflexive(s, w0);
    if request.pin.Pinned? {
      begun := if request.pin.route.None? then NotBegun(PinNotFound) else Ready(request.pin.route.value, None, 0);
      return;
    }
    var placement, at;
    placement, w, turned, at := SelectAndClaim(s, w0, routes, routeSize, offload, request.wish, oracle);
    SelectionHeard(s, w0, w, routes, offload, request, oracle, turned, placement);
    RefusalsGrantNothing(oracle, FirstPass(request.wish), turned);
    begun := if placement.Placed? then Ready(placement.route, Some(placement.claim), 0)
             else NotBegun(NotPlaced(placement, at));
  }

  /** Choose a primary, take its lease and bind it. */
  method Place(s: Settings, w0: World, routes: seq<Route>, routeSize: nat, offload: Option<OffloadRoute>,
               request: Request, oracle: Oracle, up: Upstream)
    returns (begun: Start, w: World, turned: seq<EndpointId>)
    requires |routes| <= routeSize && w0.mine == []
    ensures begun.Ready? ==>
              var c := Case(s, routes, offload, request, up, begun.primary);
              && GoodPrimary(routes, offload, request, turned, begun.primary, begun.claim)
              && Owes(s, w0, w, Prelude(request, oracle, turned, begun.primary, begun.claim)
                                + [TookDeed(c, 0, begun.primary.endpoint, begun.lease)],
                      Held(begun.claim), {begun.lease})
    ensures begun.NotBegun? ==>
              && Evolves(s, w0, w) && Settled(w)
              && NeverBegan(s, w, routes, offload, request, oracle, up, turned, begun.outcome)
    ensures WishesHeard(s, w0, w, routes, offload, request, oracle, turned)
  {
    hide Evolves, GoodPrimary, Outstanding, Reachable, GoodRefusal, Prelude;
    begun, w, turned := Choose(s, w0, routes, routeSize, offload, request, oracle, up);
    if begun.NotBegun? { return; }
    var primary, claim := begun.primary, begun.claim;
    var c := Case(s, routes, offload, request, up, primary);
    var lease := |w.prefill.leases|;
    AcquireOwesLease(c, w0, w, 0, Held(claim), primary.endpoint);
    w := Acquired(c, w, 0, primary.endpoint);
    if up.bindable { return Ready(primary, claim, lease), w, turned; }
    assert {} + Held(claim) == Held(claim);
    EndSettlesClaim(s, w0, w, 0, {}, {lease}, claim);
    w := HandBackAt(w, 0, claim);
    ReleaseSettlesLease(s, w0, w, {}, lease, up.clock(0).mono, false);
    w := ReleaseAt(s, w, lease, up.clock(0).mono, false);
    begun := NotBegun(BindingRefused);
    assert w.mine == Prelude(request, oracle, turned, primary, claim) + UnboundDeeds(c, claim, lease);
  }

  /** Announce the primary's stream and read it under its lease. */
  method ReadPrimary(c: Case, w0: World, start: World, claims: set<DispatchClaim>, lease: nat, armed: bool)
    returns (w: World, emitted: seq<Chunk>, result: Result, proven: bool, course: Course)
    requires Owes(c.s, w0, start, start.mine, claims, {lease})
    ensures Evolves(c.s, start, w) && course.lease == lease
    ensures Owes(c.s, w0, w, start.mine + PrimaryReading(c, c.primary.endpoint, course), claims, {lease})
    ensures Played(c.up, 0, true, armed, proven, course, emitted, result)
  {
    hide Owes, Evolves, Holdable, ReadDeeds, Ran;
    var feed := c.up.feed(0);
    emitted, result, proven, course := [], Gone, false, Course(lease, 0, false);
    if c.up.patience == 0 {
      w := Pause(c, w0, start, claims, {lease}, 0, feed.leaving);
    } else {
      var announced := Pause(c, w0, start, claims, {lease}, 0, feed.announcing);
      OwesIs(c.s, w0, announced, start.mine + [Waited(Some(0), feed.announcing)], claims, {lease});
      w, emitted, result, proven, course := AwaitStream(c, w0, announced, claims, 0, c.primary.endpoint, lease, armed);
      EvolvesTransitive(c.s, start, announced, w);
      Regroup(start.mine, [Waited(Some(0), feed.announcing)], ReadDeeds(0, c.primary.endpoint, feed, course));
    }
  }

  /** The primary's attempt. A stream's routing chunk goes out first; its lease was taken before that. */
  method RunPrimary(c: Case, w0: World, start: World, claim: Option<DispatchClaim>, lease: nat, armed: bool,
                    ghost before: seq<Deed>)
    returns (w: World, emitted: seq<Chunk>, first: Entry)
    requires Owes(c.s, w0, start, start.mine, Held(claim), {lease})
    requires start.mine == before + [TookDeed(c, 0, c.primary.endpoint, lease)]
    ensures Evolves(c.s, start, w) && first.Dispatched?
    ensures first == Dispatched(Ordinary(c.primary.adapter), c.primary, claim, start, armed, first.proven, first.course,
                                first.result)
    ensures Owes(c.s, w0, w, before + PrimaryDeeds(c, first), Held(claim), {})
    ensures Played(c.up, 0, c.request.streaming, armed, first.proven, first.course, emitted, first.result)
  {
    hide Owes, Evolves, Holdable, WholeDeeds, ReadDeeds, DownDeeds, Ran;
    var feed, e, end, claims := c.up.feed(0), c.primary.endpoint, EndOf(c.up.feed(0)), Held(claim);
    var result, proven, course := Concluded(feed.ending), feed.ending.Finished?, Course(lease, 0, false);
    emitted := [];
    if !c.request.streaming {
      w := AwaitWhole(c, w0, start, claims, 0, e, lease);
      Regroup(before, [TookDeed(c, 0, e, lease)], WholeDeeds(0, e, lease, feed));
    } else {
      var read;
      read, emitted, result, proven, course := ReadPrimary(c, w0, start, claims, lease, armed);
      OwesIs(c.s, w0, read, start.mine + PrimaryReading(c, c.primary.endpoint, course), claims, {lease});
      ReleaseSettlesLease(c.s, w0, read, claims, lease, end.mono, false);
      var released := ReleaseAt(c.s, read, lease, end.mono, false);
      EvolvesTransitive(c.s, start, read, released);
      w := Conclude(c, w0, released, claims, {}, e, result, end);
      EvolvesTransitive(c.s, start, released, w);
      FourParts(before, TookDeed(c, 0, e, lease), PrimaryReading(c, e, course), Freed(lease, end.mono, false),
                DownDeeds(e, result, end));
    }
    first := Dispatched(Ordinary(c.primary.adapter), c.primary, claim, start, armed, proven, course, result);
  }

  lemma FourParts(a: seq<Deed>, b: Deed, c: seq<Deed>, d: Deed, e: seq<Deed>)
    ensures (((a + [b]) + c) + [d]) + e == a + ([b] + (c + [d] + e))
  {
  }

  lemma OneAttempt(c: Case, first: Entry, emitted: seq<Chunk>)
    requires first.Dispatched? && first.handout == Ordinary(c.primary.adapter) && first.route == c.primary
    requires Claimed(c, [], first) && ArmedRight(c, [], first) && PlayedAs(c, [], first, emitted)
    ensures Disciplined(c, [first])
    ensures Failed(first) && emitted == [] && MayFall(c.request) ==> GoesOn(c, [first])
    ensures !(Failed(first) && emitted == [] && MayFall(c.request)) ==>
              Performed(c, [first], emitted, OutcomeOf(first, emitted))
  {
    hide Played, DeadlineArmed, Holding;
    FrontOf([], first);
    assert [] + [first] == [first];
    assert Quiet(c, []) && MalformedCount([]) == 0;
  }

  lemma DeedsOfOne(c: Case, prelude: seq<Deed>, first: Entry)
    requires first.Dispatched?
    ensures DeedsOf(c, prelude, [first]) == prelude + PrimaryDeeds(c, first) && HeldAfter(c, [first]) == first.claim
  {
    FrontOf([], first);
    assert [] + [first] == [first];
  }

  /** Run the primary and, if it failed without showing anything and may fall back, the rest of the walk. */
  method Dispatch(c: Case, w0: World, start: World, oracle: Oracle, turned: seq<EndpointId>,
                  claim: Option<DispatchClaim>, lease: nat)
    returns (outcome: Outcome, w: World, held: Option<DispatchClaim>, log: seq<Entry>, emitted: seq<Chunk>)
    requires GoodPrimary(c.routes, c.offload, c.request, turned, c.primary, claim) && DistinctRoutes(c.routes)
    requires Owes(c.s, w0, start, Prelude(c.request, oracle, turned, c.primary, claim)
                                  + [TookDeed(c, 0, c.primary.endpoint, lease)], Held(claim), {lease})
    ensures Owes(c.s, w0, w, DeedsOf(c, Prelude(c.request, oracle, turned, c.primary, claim), log), Held(held), {})
    ensures log != [] && Performed(c, log, emitted, outcome) && held == HeldAfter(c, log)
    ensures log[0].route == c.primary && log[0].Dispatched? && log[0].claim == claim
    ensures forall x :: x in log ==> OnPath(c.s, w0, w, x)
  {
    hide Owes, Evolves, Performed, Disciplined, GoesOn, DeadlineArmed, Played, DeedsOf, PrimaryDeeds, HeldAfter,
         DistinctRoutes, GoodPrimary, Prelude;
    ghost var prelude := Prelude(c.request, oracle, turned, c.primary, claim);
    OwesIs(c.s, w0, start, prelude + [TookDeed(c, 0, c.primary.endpoint, lease)], Held(claim), {lease});
    var pending := if MayFall(c.request) then PlanOf(c).offload else None;
    var armed := DeadlineArmed(c.s, start, c.routes, pending, None, c.up.keyForCaller(0), c.up.asked(0));
    var first;
    w, emitted, first := RunPrimary(c, w0, start, claim, lease, armed, prelude);
    PrimaryIsClaimed(c, start, oracle, turned, lease, first);
    OneAttempt(c, first, emitted);
    DeedsOfOne(c, prelude, first);
    held, log, outcome := claim, [first], OutcomeOf(first, emitted);
    if first.result.Broke? && emitted == [] && MayFall(c.request) {
      RoutedPrimary(c, turned, claim);
      outcome, w, held, log, emitted := WalkRoutes(c, w0, w, prelude, claim, first);
    }
  }

  lemma RoutedPrimary(c: Case, turned: seq<EndpointId>, claim: Option<DispatchClaim>)
    requires GoodPrimary(c.routes, c.offload, c.request, turned, c.primary, claim) && MayFall(c.request)
    ensures c.primary in c.routes
  {
  }

  /** The primary holds its claim when it begins: the claim is the last thing selection did. */
  lemma PrimaryIsClaimed(c: Case, start: World, oracle: Oracle, turned: seq<EndpointId>, lease: nat, first: Entry)
    requires first.Dispatched? && first.begun == start && first.route == c.primary
    requires GoodPrimary(c.routes, c.offload, c.request, turned, c.primary, first.claim)
    requires start.mine == Prelude(c.request, oracle, turned, c.primary, first.claim)
                           + [TookDeed(c, 0, c.primary.endpoint, lease)]
    ensures Claimed(c, [], first)
  {
    hide GoodRoute, Refusals;
    if c.request.pin.Unpinned? {
      var i := |start.mine| - 2;
      assert start.mine[i].Bade? && start.mine[i].claim == first.claim && start.mine[i].endpoint == c.primary.endpoint;
      assert !start.mine[i + 1].Ended?;
      assert Holding(start.mine, 0, c.primary.endpoint, first.claim.value);
    }
  }

  /** One request from start to finish: what became of each candidate, the upstream chunks its client got, and the
      endpoints that refused a claim during selection. */
  datatype Run = Run(start: World, finish: World, outcome: Outcome, log: seq<Entry>, emitted: seq<Chunk>,
                     turned: seq<EndpointId>)

  /** Execute one request, whole or streamed. */
  method Execute(s: Settings, w0: World, routes: seq<Route>, routeSize: nat, offload: Option<OffloadRoute>,
                 request: Request, oracle: Oracle, up: Upstream)
    returns (run: Run)
    requires |routes| <= routeSize && DistinctRoutes(routes) && w0.mine == []
    ensures run.start == w0 && Executed(s, routes, offload, request, oracle, up, run)
  {
    hide Owes, Evolves, Settled, WishesHeard, NeverBegan, Performed, GoodPrimary, OnPath, DistinctRoutes, DeedsOf,
         HeldAfter, Prelude;
    var begun, placed, turned := Place(s, w0, routes, routeSize, offload, request, oracle, up);
    if begun.NotBegun? { return Run(w0, placed, begun.outcome, [], [], turned); }
    var c := Case(s, routes, offload, request, up, begun.primary);
    var outcome, dispatched, held, log, emitted := Dispatch(c, w0, placed, oracle, turned, begun.claim, begun.lease);
    var w := Finish(c, w0, dispatched, Prelude(request, oracle, turned, begun.primary, begun.claim), held, log);
    WishesStay(c, w0, placed, w, oracle, turned, begun.claim, begun.lease, log);
    run := Run(w0, w, outcome, log, emitted, turned);
  }

  /** What executing a request promises. */
  ghost predicate Executed(s: Settings, routes: seq<Route>, offload: Option<OffloadRoute>, request: Request,
                           oracle: Oracle, up: Upstream, run: Run)
  {
    var w0, w, log := run.start, run.finish, run.log;
    && Evolves(s, w0, w) && Settled(w) && WishesHeard(s, w0, w, routes, offload, request, oracle, run.turned)
    && if log == [] then
         run.emitted == [] && NeverBegan(s, w, routes, offload, request, oracle, up, run.turned, run.outcome)
       else
         var c := Case(s, routes, offload, request, up, log[0].route);
         && Performed(c, log, run.emitted, run.outcome) && log[0].Dispatched?
         && GoodPrimary(routes, offload, request, run.turned, log[0].route, log[0].claim)
         && w.mine == DeedsOf(c, Prelude(request, oracle, run.turned, log[0].route, log[0].claim), log)
                      + EndDeeds(HeldAfter(c, log))
         && forall x :: x in log ==> OnPath(s, w0, w, x)
  }

  /** The outermost unwinding: the primary's claim goes back on every exit. */
  method Finish(c: Case, w0: World, start: World, ghost prelude: seq<Deed>, held: Option<DispatchClaim>,
                ghost log: seq<Entry>)
    returns (w: World)
    requires Owes(c.s, w0, start, DeedsOf(c, prelude, log), Held(held), {}) && held == HeldAfter(c, log)
    requires forall x :: x in log ==> OnPath(c.s, w0, start, x)
    ensures Evolves(c.s, w0, w) && Settled(w) && w.mine == DeedsOf(c, prelude, log) + EndDeeds(HeldAfter(c, log))
    ensures forall x :: x in log ==> OnPath(c.s, w0, w, x)
  {
    hide Evolves, DeedsOf, Outstanding, HeldAfter;
    assert {} + Held(held) == Held(held);
    EndSettlesClaim(c.s, w0, start, 0, {}, {}, held);
    w := HandBackAt(start, 0, held);
    forall x | x in log ensures OnPath(c.s, w0, w, x) {
      if x.Dispatched? {
        EvolvesTransitive(c.s, x.begun, start, w);
      }
    }
  }

  lemma {:induction false} DeedsBeginWith(c: Case, prelude: seq<Deed>, log: seq<Entry>)
    requires log != [] && log[0].Dispatched?
    ensures prelude + [TookDeed(c, 0, log[0].route.endpoint, log[0].course.lease)] <= DeedsOf(c, prelude, log)
  {
    if |log| == 1 {
      FrontOf([], log[0]);
      assert log == [] + [log[0]];
    } else {
      DeedsBeginWith(c, prelude, Front(log));
      assert Front(log)[0] == log[0];
    }
  }

  lemma WishesStay(c: Case, w0: World, placed: World, w: World, oracle: Oracle, turned: seq<EndpointId>,
                   claim: Option<DispatchClaim>, lease: nat, log: seq<Entry>)
    requires log != [] && log[0].Dispatched?
    requires Owes(c.s, w0, placed, Prelude(c.request, oracle, turned, c.primary, claim)
                                   + [TookDeed(c, 0, c.primary.endpoint, lease)], Held(claim), {lease})
    requires w.mine == DeedsOf(c, Prelude(c.request, oracle, turned, c.primary, claim), log)
                       + EndDeeds(HeldAfter(c, log))
    requires WishesHeard(c.s, w0, placed, c.routes, c.offload, c.request, oracle, turned)
    ensures WishesHeard(c.s, w0, w, c.routes, c.offload, c.request, oracle, turned)
  {
    hide Evolves, DeedsOf, Outstanding, Reachable, HeldAfter, Prelude;
    var prelude := Prelude(c.request, oracle, turned, c.primary, claim);
    DeedsBeginWith(c, prelude, log);
    assert |prelude| > 1 ==> w.mine[1] == prelude[1] == placed.mine[1];
    assert |prelude| == 1 ==> placed.mine[1].Took?;
  }
}

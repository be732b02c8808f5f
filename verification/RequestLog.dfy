/** What a request decided, candidate by candidate, and why each decision was right. */
module RequestLog {
  import opened Options
  import opened Identifiers
  import opened Failures
  import opened CircuitBreaker
  import opened EndpointHealth
  import opened Gateway
  import opened Selection
  import opened FallbackWalk
  import opened Attempts
  import opened Requests

  /** How far an attempt got: the lease it took, the chunks that arrived, and whether its client left. */
  datatype Course = Course(lease: nat, taken: nat, left: bool)

  /** What became of one candidate. A dispatched one has its claim (none for a pin), the shared state it began
      in, whether a deadline could cut it short, whether it proved its endpoint up, and how it went and ended. */
  datatype Entry =
    | Dispatched(handout: Handout, route: Route, claim: Option<DispatchClaim>, begun: World, armed: bool,
                 proven: bool, course: Course, result: Result)
    | TooNarrow(handout: Handout, route: Route)
    | TurnedAway(handout: Handout, route: Route)

  // ----- reading a log

  function Front(log: seq<Entry>): seq<Entry>
    requires log != []
  {
    log[..|log| - 1]
  }

  function Last(log: seq<Entry>): Entry
    requires log != []
  {
    log[|log| - 1]
  }

  lemma FrontOf(log: seq<Entry>, x: Entry)
    ensures Front(log + [x]) == log && Last(log + [x]) == x
  {
  }

  predicate Failed(x: Entry) { x.Dispatched? && x.result.Broke? }

  /** How many attempts were dispatched. */
  function AttemptsIn(log: seq<Entry>): nat {
    if log == [] then 0 else AttemptsIn(Front(log)) + if Last(log).Dispatched? then 1 else 0
  }

  /** The widest known window that refused the prompt as too long. */
  function Widest(log: seq<Entry>): Option<nat> {
    if log == [] then None
    else if Failed(Last(log)) then WidestRefused(Widest(Front(log)), Last(log).route, Last(log).result.failure)
    else Widest(Front(log))
  }

  /** How many attempts refused the request as malformed. */
  function MalformedCount(log: seq<Entry>): nat {
    if log == [] then 0
    else
      MalformedCount(Front(log))
      + if Failed(Last(log)) && CountsAsRequestRefusal(Last(log).result.failure) then 1 else 0
  }

  /** The offload route the request could still move to. */
  function OffloadPending(c: Case, log: seq<Entry>): Option<Adapter> {
    if log == [] then (if MayFall(c.request) then PlanOf(c).offload else None)
    else if Last(log).handout.Offloaded? then None
    else OffloadPending(c, Front(log))
  }

  /** The too-long wait the last candidate ended in, if it did. */
  function LastWaited(log: seq<Entry>): Option<OffloadReason> {
    if log == [] || !Failed(Last(log)) then None else OffloadReasonFor(Last(log).result.failure)
  }

  predicate WasCutShort(x: Entry) { Failed(x) && AbandonedForOffload(x.result.failure) }

  ghost predicate Seen(log: seq<Entry>, x: Route) {
    exists i :: 0 <= i < |log| && log[i].route == x
  }

  // ----- everything a request does

  /** The primary's claim, until its retry hands it back. */
  function HeldAfter(c: Case, log: seq<Entry>): Option<DispatchClaim> {
    if log == [] then None
    else if |log| == 1 then (if Last(log).Dispatched? then Last(log).claim else None)
    else if !Last(log).TooNarrow? && Last(log).route.adapter == c.primary.adapter then None
    else HeldAfter(c, Front(log))
  }

  function EndDeeds(claim: Option<DispatchClaim>): seq<Deed> {
    if claim.None? then [] else [Ended(0, claim.value)]
  }

  /** Taking a lease: always for this request's own tokens, caller, conversation and anchor. */
  function TookDeed(c: Case, n: nat, e: EndpointId, lease: nat): Deed {
    var r := c.request;
    Took(n, lease, c.up.clock(n).mono, e, r.wish.tokens, r.caller, r.fingerprint, r.anchor)
  }

  function DownDeeds(e: EndpointId, result: Result, clock: Clock): seq<Deed> {
    if result.Broke? then [ReportedDown(e, result.failure, clock)] else []
  }

  /** Reading an announced stream to its end, or until its client leaves. */
  function ReadDeeds(n: nat, e: EndpointId, feed: Feed, course: Course): seq<Deed> {
    if course.taken > |feed.chunks| then []
    else
      StreamDeeds(n, e, course.lease, feed, course.taken)
      + [Waited(Some(n), if course.left then feed.leaving else feed.others(|feed.chunks|))]
  }

  function EndOf(feed: Feed): Clock { feed.clock(|feed.chunks|) }

  /** The primary's stream from its routing chunk on. */
  function PrimaryReading(c: Case, e: EndpointId, course: Course): seq<Deed> {
    var feed := c.up.feed(0);
    if c.up.patience == 0 then [Waited(Some(0), feed.leaving)]
    else [Waited(Some(0), feed.announcing)] + ReadDeeds(0, e, feed, course)
  }

  /** The primary's lease and attempt. */
  function PrimaryDeeds(c: Case, x: Entry): seq<Deed>
    requires x.Dispatched?
  {
    var feed, e, l := c.up.feed(0), x.route.endpoint, x.course.lease;
    [TookDeed(c, 0, e, l)]
    + if !c.request.streaming then WholeDeeds(0, e, l, feed)
      else PrimaryReading(c, e, x.course) + [Freed(l, EndOf(feed).mono, false)] + DownDeeds(e, x.result, EndOf(feed))
  }

  /** A fallback's attempt under its claim; a stream announces itself before it takes a lease. */
  function AttemptDeeds(c: Case, n: nat, x: Entry): seq<Deed>
    requires x.Dispatched?
  {
    var feed, e, l := c.up.feed(n), x.route.endpoint, x.course.lease;
    if !c.request.streaming then [TookDeed(c, n, e, l)] + WholeDeeds(n, e, l, feed)
    else if c.up.patience <= n then [Waited(Some(n), feed.leaving)]
    else
      [Waited(Some(n), feed.announcing), TookDeed(c, n, e, l)] + ReadDeeds(n, e, feed, x.course)
      + DownDeeds(e, x.result, EndOf(feed)) + [Freed(l, EndOf(feed).mono, false)]
  }

  /** The primary's retry first hands back the claim of its first attempt; a claim goes back after its attempt. */
  function CandidateDeeds(c: Case, front: seq<Entry>, x: Entry): seq<Deed> {
    var n, e := AttemptsIn(front), x.route.endpoint;
    var first := if x.route.adapter == c.primary.adapter then EndDeeds(HeldAfter(c, front)) else [];
    match x
    case TooNarrow(_, _) => []
    case TurnedAway(_, _) => first + [Bade(n, e, c.up.clock(n).perf, None)]
    case Dispatched(_, _, claim, _, _, _, _, _) =>
      first + [Bade(n, e, c.up.clock(n).perf, claim)] + AttemptDeeds(c, n, x)
      + (if claim.None? then [] else [Ended(n, claim.value)])
  }

  /** Everything a request does after `prelude`, the deeds of its selection: nothing else, and in this order. */
  function DeedsOf(c: Case, prelude: seq<Deed>, log: seq<Entry>): seq<Deed> {
    if log == [] then prelude
    else
      DeedsOf(c, prelude, Front(log))
      + if |log| > 1 then CandidateDeeds(c, Front(log), Last(log))
        else if Last(log).Dispatched? then PrimaryDeeds(c, Last(log)) else []
  }

  lemma DeedsGrow(c: Case, prelude: seq<Deed>, log: seq<Entry>, x: Entry)
    requires log != []
    ensures DeedsOf(c, prelude, log + [x]) == DeedsOf(c, prelude, log) + CandidateDeeds(c, log, x)
    ensures HeldAfter(c, log + [x]) ==
            if !x.TooNarrow? && x.route.adapter == c.primary.adapter then None else HeldAfter(c, log)
  {
    hide CandidateDeeds, PrimaryDeeds;
    FrontOf(log, x);
  }

  // ----- one attempt

  /** How far an announced stream was read. */
  ghost predicate Ran(feed: Feed, emitted: seq<Chunk>, proven: bool, course: Course, result: Result) {
    && course.taken <= |feed.chunks| && emitted <= feed.chunks[..course.taken]
    && (proven <==> !NoContent(feed.chunks[..course.taken]))
    && if course.left then result == Gone else result == Concluded(feed.ending) && course.taken == |feed.chunks|
  }

  /** What attempt `n` showed the client and how it ended: the chunks of its own stream, all of them unless it
      broke while they were held back or the client left. Output, or a whole response, proves the endpoint up. */
  ghost predicate Played(up: Upstream, n: nat, streaming: bool, armed: bool, proven: bool, course: Course,
                         emitted: seq<Chunk>, result: Result)
  {
    var feed := up.feed(n);
    && (if !streaming then proven == result.Completed? && result == Concluded(feed.ending)
        else if up.patience <= n then !proven && result == Gone
        else Ran(feed, emitted, proven, course, result))
    && emitted <= (if streaming then feed.chunks else [])
    && (result.Completed? ==> feed.ending.Finished? && (streaming ==> emitted == feed.chunks))
    && (result.Broke? ==> feed.ending == Raised(result.failure)
                          && emitted == if streaming && !(armed && Holdable(feed.chunks)) then feed.chunks else [])
    && (result.Gone? ==> feed.ending.Interrupted? || (streaming && up.patience <= n + |emitted|))
  }

  ghost predicate PlayedAs(c: Case, front: seq<Entry>, x: Entry, emitted: seq<Chunk>) {
    x.Dispatched? ==>
      Played(c.up, AttemptsIn(front), c.request.streaming, x.armed, x.proven, x.course, emitted, x.result)
  }

  /** Every attempt failed and showed the client nothing. */
  ghost predicate Quiet(c: Case, log: seq<Entry>) {
    log == [] ||
    (Quiet(c, Front(log)) && PlayedAs(c, Front(log), Last(log), [])
     && (Last(log).Dispatched? ==> Last(log).result.Broke?))
  }

  // ----- why a candidate was next

  /** `x` is the primary, then a route that may serve, or the primary's retry. */
  ghost predicate Routed(c: Case, front: seq<Entry>, x: Entry) {
    && x.route.adapter == x.handout.adapter
    && if front == [] then x.Dispatched? && x.route == c.primary && x.handout.Ordinary?
       else MayServe(c, x.route) || (x.route == c.primary && x.handout.Retry?)
  }

  /** A route comes again only as its one retry, after it was cut short and after every other route was seen. */
  ghost predicate RetryInTurn(c: Case, front: seq<Entry>, x: Entry) {
    && (forall i :: 0 <= i < |front| && front[i].handout.adapter == x.handout.adapter ==>
          x.handout.Retry? && !front[i].handout.Retry?)
    && (!x.handout.Retry? ==> forall i :: 0 <= i < |front| ==> !front[i].handout.Retry?)
    && (x.handout.Retry? ==>
          && OffloadPending(c, front).None?
          && (exists i :: 0 <= i < |front| && WasCutShort(front[i]) && front[i].handout.adapter == x.handout.adapter)
          && forall y :: MayServe(c, y) ==> Seen(front, y))
  }

  /** The offload route comes directly after a too-long wait, and otherwise after every other route. */
  ghost predicate OffloadInTurn(c: Case, front: seq<Entry>, x: Entry) {
    && (x.handout.Offloaded? ==>
          && OffloadPending(c, front) == Some(x.handout.adapter)
          && (x.handout.reason != LastResort ==> LastWaited(front) == Some(x.handout.reason))
          && (x.handout.reason == LastResort ==>
                && LastWaited(front).None?
                && forall y :: MayServe(c, y) && y.adapter != x.handout.adapter ==> Seen(front, y)))
    && (x.handout.Ordinary? && front != [] ==>
          && OffloadPending(c, front) != Some(x.handout.adapter)
          && (OffloadPending(c, front).Some? ==> LastWaited(front).None?))
  }

  /** Ordinary candidates after the primary come in the order their routes are declared in. */
  ghost predicate DeclaredInTurn(c: Case, front: seq<Entry>, x: Entry) {
    x.handout.Ordinary? ==>
      forall i, p, q :: 0 < i < |front| && 0 <= p < |c.routes| && 0 <= q < |c.routes| ==>
        (front[i].handout.Ordinary? && c.routes[p] == front[i].route && c.routes[q] == x.route ==> p < q)
  }

  /** A window no wider than one that refused the prompt is passed over, and no other is. */
  ghost predicate Fits(front: seq<Entry>, x: Entry) {
    front != [] ==> (x.TooNarrow? <==> CannotFit(x.route, Widest(front)))
  }

  /** Attempt `n` was granted `claim` on `e`, and has not handed it back. */
  ghost predicate Holding(deeds: seq<Deed>, n: nat, e: EndpointId, claim: DispatchClaim) {
    exists i :: 0 <= i < |deeds| && deeds[i].Bade? && deeds[i].attempt == n && deeds[i].endpoint == e
                && deeds[i].claim == Some(claim) && forall j :: i < j < |deeds| ==> !deeds[j].Ended?
  }

  /** A dispatched attempt holds its claim when it begins, unless its request is pinned. */
  ghost predicate Claimed(c: Case, front: seq<Entry>, x: Entry) {
    x.Dispatched? ==>
      if c.request.pin.Pinned? then x.claim.None?
      else
        && x.claim.Some? && x.claim.value.endpoint == x.route.endpoint
        && Holding(x.begun.mine, AttemptsIn(front), x.route.endpoint, x.claim.value)
  }

  /** A deadline is armed exactly while an offload route could still take the request. */
  ghost predicate ArmedRight(c: Case, front: seq<Entry>, x: Entry) {
    x.Dispatched? ==>
      var n := AttemptsIn(front);
      var pending := if x.handout.Offloaded? then None else OffloadPending(c, front);
      x.armed <==> DeadlineArmed(c.s, x.begun, c.routes, pending, Widest(front), c.up.keyForCaller(n), c.up.asked(n))
  }

  ghost predicate Justified(c: Case, front: seq<Entry>, x: Entry) {
    && Routed(c, front, x) && DeclaredInTurn(c, front, x) && RetryInTurn(c, front, x) && OffloadInTurn(c, front, x)
    && Fits(front, x) && Claimed(c, front, x) && ArmedRight(c, front, x)
  }

  /** The walk goes on only if it may, nothing was shown, and fewer than two attempts called the request malformed. */
  ghost predicate GoesOn(c: Case, log: seq<Entry>) {
    log != [] ==> MayFall(c.request) && Quiet(c, log) && MalformedCount(log) < 2
  }

  /** Every entry is justified by those before it. */
  ghost predicate Disciplined(c: Case, log: seq<Entry>) {
    log == [] || (Disciplined(c, Front(log)) && GoesOn(c, Front(log)) && Justified(c, Front(log), Last(log)))
  }

  lemma DisciplineGrows(c: Case, log: seq<Entry>, x: Entry)
    requires Disciplined(c, log) && GoesOn(c, log) && Justified(c, log, x)
    ensures Disciplined(c, log + [x])
  {
    hide GoesOn, Justified;
    FrontOf(log, x);
  }

  lemma {:induction false} DisciplinedAt(c: Case, log: seq<Entry>, i: nat)
    requires Disciplined(c, log) && i < |log|
    ensures Disciplined(c, log[..i]) && GoesOn(c, log[..i]) && Justified(c, log[..i], log[i])
  {
    hide GoesOn, Justified;
    if i < |log| - 1 {
      DisciplinedAt(c, Front(log), i);
      assert Front(log)[..i] == log[..i];
    }
  }

  // ----- what discipline means over the whole log

  /** A route appears twice at most, the second time as its retry. */
  lemma {:induction false} RepeatsAreRetries(c: Case, log: seq<Entry>, i: nat, j: nat)
    requires Disciplined(c, log) && i < j < |log| && log[i].handout.adapter == log[j].handout.adapter
    ensures log[j].handout.Retry? && !log[i].handout.Retry?
  {
    DisciplinedAt(c, log, j);
    assert log[..j][i] == log[i];
  }

  /** Whatever became of them, the ordinary candidates come in the order their routes are declared in. */
  lemma OrdinariesKeepOrder(c: Case, log: seq<Entry>, i: nat, j: nat, p: nat, q: nat)
    requires Disciplined(c, log) && 0 < i < j < |log| && log[i].handout.Ordinary? && log[j].handout.Ordinary?
    requires p < |c.routes| && q < |c.routes| && c.routes[p] == log[i].route && c.routes[q] == log[j].route
    ensures p < q
  {
    hide Disciplined;
    DisciplinedAt(c, log, j);
    assert log[..j][i] == log[i];
  }

  /** A retry repeats an earlier attempt that was cut short. */
  lemma RetriesFollowCuts(c: Case, log: seq<Entry>, j: nat) returns (i: nat)
    requires Disciplined(c, log) && j < |log| && log[j].handout.Retry?
    ensures i < j && log[i].handout.adapter == log[j].handout.adapter && WasCutShort(log[i]) && !log[i].handout.Retry?
  {
    DisciplinedAt(c, log, j);
    var k :| 0 <= k < j && WasCutShort(log[..j][k]) && log[..j][k].handout.adapter == log[j].handout.adapter;
    i := k;
  }

  lemma {:induction false} WidestIsWidest(log: seq<Entry>, i: nat)
    requires i < |log| && Failed(log[i]) && ExceedsContextWindow(log[i].result.failure) && log[i].route.window.Some?
    ensures Widest(log).Some? && Widest(log).value >= log[i].route.window.value
  {
    if i < |log| - 1 {
      WidestIsWidest(Front(log), i);
    }
  }

  /** No attempt goes to a window no wider than one that refused the prompt. */
  lemma WindowsWiden(c: Case, log: seq<Entry>, i: nat, j: nat)
    requires Disciplined(c, log) && i < j < |log| && log[j].Dispatched? && log[j].route.window.Some?
    requires Failed(log[i]) && ExceedsContextWindow(log[i].result.failure) && log[i].route.window.Some?
    ensures log[i].route.window.value < log[j].route.window.value
  {
    DisciplinedAt(c, log, j);
    assert log[..j][i] == log[i];
    WidestIsWidest(log[..j], i);
  }

  /** Only an ordinary attempt can be cut short. */
  lemma {:induction false} OnlyOrdinaryIsArmed(c: Case, log: seq<Entry>, i: nat)
    requires Disciplined(c, log) && i < |log| && log[i].Dispatched? && log[i].armed
    ensures log[i].handout.Ordinary?
  {
    DisciplinedAt(c, log, i);
  }

  /** Route `x` could still take a request that its log so far has not moved to the offload route. */
  ghost predicate CouldTake(c: Case, front: seq<Entry>, x: Route) {
    && x in c.routes && x.weight > 0.0 && x.adapter != c.primary.adapter
    && c.offload.Some? && x.adapter == c.offload.value.adapter && TakesInput(c.offload.value, c.request.wish.tokens)
    && (forall j :: 0 <= j < |front| ==> !front[j].handout.Offloaded?)
    && (forall j :: 0 <= j < |front| && Failed(front[j]) && ExceedsContextWindow(front[j].result.failure)
                    && front[j].route.window.Some? && x.window.Some? ==>
          front[j].route.window.value < x.window.value)
  }

  lemma {:induction false} PendingIff(c: Case, front: seq<Entry>, a: Adapter)
    ensures OffloadPending(c, front) == Some(a) <==>
              && MayFall(c.request) && PlanOf(c).offload == Some(a)
              && forall j :: 0 <= j < |front| ==> !front[j].handout.Offloaded?
  {
    hide PlanOf;
    if front != [] {
      PendingIff(c, Front(front), a);
      assert forall j :: 0 <= j < |front| - 1 ==> Front(front)[j] == front[j];
    }
  }

  /** The widest known window that refused is that of an attempt. */
  lemma {:induction false} WidestIsOne(log: seq<Entry>)
    ensures Widest(log).Some? ==>
              exists i :: 0 <= i < |log| && Failed(log[i]) && ExceedsContextWindow(log[i].result.failure)
                          && log[i].route.window == Widest(log)
  {
    if log != [] {
      WidestIsOne(Front(log));
      assert forall i :: 0 <= i < |log| - 1 ==> Front(log)[i] == log[i];
    }
  }

  lemma CannotFitIff(front: seq<Entry>, x: Route)
    ensures !CannotFit(x, Widest(front)) <==>
              forall j :: 0 <= j < |front| && Failed(front[j]) && ExceedsContextWindow(front[j].result.failure)
                          && front[j].route.window.Some? && x.window.Some? ==>
                front[j].route.window.value < x.window.value
  {
    WidestIsOne(front);
    forall j | 0 <= j < |front| && Failed(front[j]) && ExceedsContextWindow(front[j].result.failure)
               && front[j].route.window.Some?
      ensures Widest(front).Some? && Widest(front).value >= front[j].route.window.value
    {
      WidestIsWidest(front, j);
    }
  }

  lemma PlannedOffload(c: Case, x: Route)
    requires DistinctRoutes(c.routes) && x in c.routes
    ensures PlanOf(c).offload == Some(x.adapter) <==>
              && x.weight > 0.0 && x.adapter != c.primary.adapter
              && c.offload.Some? && x.adapter == c.offload.value.adapter
              && TakesInput(c.offload.value, c.request.wish.tokens)
  {
    if c.offload.Some? && x.adapter == c.offload.value.adapter {
      if OffloadUsable(c.routes, c.offload) {
        var y :| y in c.routes && y.weight > 0.0 && y.adapter == c.offload.value.adapter;
        SameAdapterSameRoute(c.routes, x, y);
      }
    }
  }

  /** Exactly when an attempt runs under a deadline: it may fall back, is not the offload route itself, and that route
      could still take the request, now, for this caller and with a window wider than any that refused. */
  lemma ArmedIff(c: Case, log: seq<Entry>, i: nat)
    requires Disciplined(c, log) && DistinctRoutes(c.routes) && i < |log| && log[i].Dispatched?
    ensures var n := AttemptsIn(log[..i]);
            log[i].armed <==>
              && MayFall(c.request) && !log[i].handout.Offloaded? && c.up.keyForCaller(n)
              && exists x :: CouldTake(c, log[..i], x) && Allows(c.s, log[i].begun, x.endpoint, c.up.asked(n))
  {
    hide Disciplined, OffloadPending, Widest, AttemptsIn, PlanOf, CannotFit, Allows;
    DisciplinedAt(c, log, i);
    var front, n := log[..i], AttemptsIn(log[..i]);
    forall x | x in c.routes
      ensures CouldTake(c, front, x) <==>
                && PlanOf(c).offload == Some(x.adapter) && !CannotFit(x, Widest(front))
                && forall j :: 0 <= j < |front| ==> !front[j].handout.Offloaded?
    {
      PlannedOffload(c, x);
      CannotFitIff(front, x);
    }
    var pending := OffloadPending(c, front);
    if pending.Some? {
      PendingIff(c, front, pending.value);
      if pending.value in AdaptersOf(c.routes) {
        var x := RouteOf(c.routes, pending.value);
        forall y | CouldTake(c, front, y) ensures y == x {
          SameAdapterSameRoute(c.routes, x, y);
        }
      }
    }
    forall x | CouldTake(c, front, x) && MayFall(c.request) ensures pending == Some(x.adapter) {
      PendingIff(c, front, x.adapter);
    }
  }

  /** An oversize prompt is never sent to the offload route as a fallback. */
  lemma {:induction false} OversizeIsNotOffloaded(c: Case, log: seq<Entry>, i: nat)
    requires Disciplined(c, log) && 0 < i < |log| && !Oversize(c, c.primary)
    ensures !Oversize(c, log[i].route)
  {
    DisciplinedAt(c, log, i);
  }

  // ----- how a log ends

  datatype Outcome =
    | Answered(adapter: Adapter)
    | AllFailed
    | BrokenOff
    | Cancelled
    | NotPlaced(placement: Placement, at: real)
    | PinNotFound
    | BindingRefused

  function OutcomeOf(last: Entry, emitted: seq<Chunk>): Outcome {
    if !last.Dispatched? then AllFailed
    else
      match last.result
      case Completed => Answered(last.handout.adapter)
      case Broke(_) => if emitted == [] then AllFailed else BrokenOff
      case Gone => Cancelled
  }

  /** The outcome says how the last attempt ended, and what the client saw is that attempt's alone. */
  ghost predicate Accounted(c: Case, log: seq<Entry>, emitted: seq<Chunk>, outcome: Outcome)
    requires log != []
  {
    && outcome == OutcomeOf(Last(log), emitted)
    && if Last(log).Dispatched? then PlayedAs(c, Front(log), Last(log), emitted) else emitted == []
  }

  /** Nothing is left to try: every route that may serve has its entry, and every route cut short had its retry. */
  ghost predicate NothingLeft(c: Case, log: seq<Entry>) {
    && (forall x :: MayServe(c, x) ==> Seen(log, x))
    && (forall i :: 0 <= i < |log| && WasCutShort(log[i]) && !log[i].handout.Retry? ==>
          exists j :: i < j < |log| && log[j].handout == Retry(log[i].handout.adapter))
  }

  /** What a request that began did. */
  ghost predicate Performed(c: Case, log: seq<Entry>, emitted: seq<Chunk>, outcome: Outcome) {
    && log != [] && Disciplined(c, log) && Accounted(c, log, emitted, outcome)
    && (outcome.AllFailed? && MayFall(c.request) ==> MalformedCount(log) >= 2 || NothingLeft(c, log))
  }

  /** A request that failed altogether has only failed attempts, and showed nothing. */
  lemma FailedAltogether(c: Case, log: seq<Entry>, emitted: seq<Chunk>, i: nat)
    requires Performed(c, log, emitted, AllFailed) && i < |log| && log[i].Dispatched?
    ensures Failed(log[i]) && emitted == []
  {
    if i < |log| - 1 {
      assert Front(log)[i] == log[i];
      QuietAt(c, Front(log), i);
    }
  }

  lemma {:induction false} QuietAt(c: Case, log: seq<Entry>, i: nat)
    requires Quiet(c, log) && i < |log| && log[i].Dispatched?
    ensures Failed(log[i])
  {
    if i < |log| - 1 {
      QuietAt(c, Front(log), i);
    }
  }
}

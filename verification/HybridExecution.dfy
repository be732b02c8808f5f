/** The hybrid plan carried out by the per-request executor, one planned attempt at a time. */
module HybridExecution {
  import opened Options
  import opened Identifiers
  import opened Failures
  import opened Gateway
  import opened Selection
  import opened FallbackWalk
  import opened Attempts
  import opened Requests
  import opened RequestLog
  import opened Executor
  import HP = HybridPlan

  /** The options of one planned attempt: its endpoint is the target, required when the plan named one candidate,
      and the plan owns the order. */
  function AttemptRequest(request: Request, attempt: HP.Attempt): Request {
    request.(wish := request.wish.(preferred := attempt.endpoint, requireTarget := attempt.exact),
             pin := Unpinned, allowFallback := false, streaming := false)
  }

  /** What the hybrid layer sees of one inner run. The inner router names the endpoint it ran on its error. */
  function ResultOf(outcome: Outcome, log: seq<Entry>): HP.Result {
    if log == [] then (if outcome.NotPlaced? then HP.Refused else HP.Mismatch)
    else
      var ran := log[0].route.endpoint;
      if outcome.Answered? then HP.Answered(ran)
      else if Failed(log[0]) then HP.Errored(log[0].result.failure, ran, Some(ran))
      else HP.Interrupted(ran)
  }

  /** An exact attempt runs the endpoint it names: the inner router meets a required target or places nothing. */
  lemma InnerRunIsHonest(routes: seq<Route>, offload: Option<OffloadRoute>, request: Request, attempt: HP.Attempt,
                         turned: seq<EndpointId>, outcome: Outcome, log: seq<Entry>)
    requires attempt.exact ==> attempt.endpoint.Some?
    requires log != [] ==>
               && log[0].Dispatched?
               && GoodPrimary(routes, offload, AttemptRequest(request, attempt), turned, log[0].route, log[0].claim)
    ensures HP.HonestAt(attempt, ResultOf(outcome, log))
  {
  }

  /** Everything outside the hybrid request's control, by attempt. */
  datatype Inner = Inner(routes: seq<Route>, routeSize: nat, offload: Option<OffloadRoute>, oracle: Oracle,
                         up: Upstream)

  ghost predicate Sound(inner: Inner) { |inner.routes| <= inner.routeSize && DistinctRoutes(inner.routes) }

  /** Where a walk of the plan stands. */
  datatype Standing = Standing(errors: seq<Failure>, refused: bool, dispatched: set<EndpointId>,
                               ran: seq<EndpointId>)

  /** With these results, the whole walk is what `at` has seen and the walk from attempt `i` on. */
  ghost predicate Agrees(plan: seq<HP.Attempt>, results: seq<HP.Result>, i: nat, at: Standing)
    requires |results| == |plan| && i <= |plan|
  {
    var rest := HP.Follow(plan, results, i, at.errors, at.refused, at.dispatched);
    HP.Follow(plan, results, 0, [], false, {}) == HP.Course(rest.outcome, at.ran + rest.ran)
  }

  /** However the attempts still to come turn out. */
  ghost predicate Tracks(plan: seq<HP.Attempt>, seen: seq<HP.Result>, at: Standing) {
    |seen| <= |plan| && forall later: seq<HP.Result> :: |seen| + |later| == |plan| ==>
        Agrees(plan, seen + later, |seen|, at)
  }

  predicate Skips(attempt: HP.Attempt, at: Standing) {
    attempt.endpoint.Some? && attempt.endpoint.value in at.dispatched
  }

  /** The walk ends with this result. */
  predicate Ends(r: HP.Result, at: Standing) {
    || r.Answered? || r.Interrupted? || r.Mismatch?
    || (r.Errored? && CountRefusals(at.errors + [r.failure]) >= 2)
  }

  function Moved(attempt: HP.Attempt, r: HP.Result, at: Standing): Standing
    requires !Ends(r, at)
  {
    if Skips(attempt, at) then at
    else
      match r
      case Refused => at.(refused := true)
      case Errored(f, ran, reported) =>
        Standing(at.errors + [f], at.refused, HP.Remembered(at.dispatched, attempt, reported), at.ran + [ran])
      case _ => at
  }

  lemma TracksOn(plan: seq<HP.Attempt>, seen: seq<HP.Result>, at: Standing, r: HP.Result)
    requires Tracks(plan, seen, at) && |seen| < |plan| && !Ends(r, at)
    ensures Tracks(plan, seen + [r], Moved(plan[|seen|], r, at))
  {
    hide CountRefusals;
    var n, next := |seen|, Moved(plan[|seen|], r, at);
    forall later: seq<HP.Result> | n + 1 + |later| == |plan| ensures Agrees(plan, (seen + [r]) + later, n + 1, next) {
      assert seen + ([r] + later) == (seen + [r]) + later;
      assert Agrees(plan, seen + ([r] + later), n, at);
      if r.Errored? && !Skips(plan[n], at) {
        var rest := HP.Follow(plan, (seen + [r]) + later, n + 1, next.errors, next.refused, next.dispatched);
        assert at.ran + ([r.ran] + rest.ran) == (at.ran + [r.ran]) + rest.ran;
      }
    }
  }

  function Unreached(n: nat): (r: seq<HP.Result>)
    ensures |r| == n && forall i :: 0 <= i < n ==> r[i] == HP.Refused
  {
    seq(n, i => HP.Refused)
  }

  /** The last attempt's result, and how the walk ends with it. */
  lemma TracksEnd(plan: seq<HP.Attempt>, seen: seq<HP.Result>, at: Standing, r: HP.Result)
    returns (results: seq<HP.Result>)
    requires Tracks(plan, seen, at) && |seen| < |plan| && Ends(r, at) && !Skips(plan[|seen|], at)
    ensures results == (seen + [r]) + Unreached(|plan| - |seen| - 1) && |results| == |plan|
    ensures HP.Follow(plan, results, 0, [], false, {}) == Ending(|seen|, r, at)
  {
    hide CountRefusals;
    var later := Unreached(|plan| - |seen| - 1);
    results := (seen + [r]) + later;
    assert seen + ([r] + later) == results;
    assert Agrees(plan, seen + ([r] + later), |seen|, at);
    assert at.ran + [] == at.ran;
  }

  function Ending(n: nat, r: HP.Result, at: Standing): HP.Course
    requires Ends(r, at)
  {
    match r
    case Answered(ran) => HP.Course(HP.Answer(n), at.ran + [ran])
    case Interrupted(ran) => HP.Course(HP.Cancelled, at.ran + [ran])
    case Errored(f, ran, _) => HP.Course(HP.Surface(Surfaced(at.errors + [f]), true), at.ran + [ran])
    case _ => HP.Course(HP.MismatchError, at.ran)
  }

  // ----- the runs of a walk

  /** The endpoints a log's upstream requests went to, in order. */
  function RanOn(log: seq<Entry>): seq<EndpointId> {
    if log == [] then [] else RanOn(Front(log)) + if Last(log).Dispatched? then [Last(log).route.endpoint] else []
  }

  /** Those of all runs of a walk; an attempt that was skipped has no run. */
  function AllRanOn(runs: seq<Option<Run>>): seq<EndpointId> {
    if runs == [] then []
    else
      var last := runs[|runs| - 1];
      AllRanOn(runs[..|runs| - 1]) + if last.None? then [] else RanOn(last.value.log)
  }

  /** The shared state the runs end in. */
  function Reached(start: World, runs: seq<Option<Run>>): World {
    if runs == [] then start
    else if runs[|runs| - 1].Some? then runs[|runs| - 1].value.finish
    else Reached(start, runs[..|runs| - 1])
  }

  /** `run` is one of the inner router, on the attempt's own terms. */
  ghost predicate RunOf(s: Settings, attempt: HP.Attempt, request: Request, inner: Inner, run: Run) {
    Executed(s, inner.routes, inner.offload, AttemptRequest(request, attempt), inner.oracle, inner.up, run)
  }

  /** Attempt `i` is skipped exactly if its endpoint already ran; else it is run from where the last run ended. */
  ghost predicate RunsAt(s: Settings, start: World, plan: seq<HP.Attempt>, request: Request, inners: seq<Inner>,
                         runs: seq<Option<Run>>, i: nat)
    requires i < |runs| <= |plan| == |inners|
  {
    if runs[i].None? then plan[i].endpoint.Some? && plan[i].endpoint.value in AllRanOn(runs[..i])
    else
      && !(plan[i].endpoint.Some? && plan[i].endpoint.value in AllRanOn(runs[..i]))
      && runs[i].value.start == Reached(start, runs[..i]).(mine := [])
      && RunOf(s, plan[i], request, inners[i], runs[i].value)
  }

  ghost predicate Runs(s: Settings, start: World, plan: seq<HP.Attempt>, request: Request, inners: seq<Inner>,
                       runs: seq<Option<Run>>)
  {
    |runs| <= |plan| == |inners| && forall i :: 0 <= i < |runs| ==> RunsAt(s, start, plan, request, inners, runs, i)
  }

  function ResultAt(run: Option<Run>): HP.Result {
    if run.None? then HP.Refused else ResultOf(run.value.outcome, run.value.log)
  }

  function SeenOf(runs: seq<Option<Run>>): seq<HP.Result> {
    seq(|runs|, i requires 0 <= i < |runs| => ResultAt(runs[i]))
  }

  /** What the walk saw; it stops looking once it has ended. */
  function Results(runs: seq<Option<Run>>, n: nat): (results: seq<HP.Result>)
    requires |runs| <= n
    ensures |results| == n
  {
    SeenOf(runs) + Unreached(n - |runs|)
  }

  /** A walk stops short only on an answer, a cancellation, a mismatch or a second refusal. */
  predicate StopsShort(outcome: HP.Outcome, last: nat) {
    outcome == HP.Answer(last) || outcome.Cancelled? || outcome.MismatchError? || (outcome.Surface? && outcome.stopped)
  }

  /** An attempt of a plan that owns the order is at most one dispatch. */
  lemma OneDispatch(s: Settings, attempt: HP.Attempt, request: Request, inner: Inner, run: Run)
    requires RunOf(s, attempt, request, inner, run)
    ensures RanOn(run.log) == if run.log == [] then [] else [run.log[0].route.endpoint]
  {
    hide Evolves, Settled, WishesHeard, NeverBegan, Accounted, NothingLeft, GoodPrimary, DeedsOf, Prelude,
         HeldAfter, Justified, Quiet;
    if run.log != [] {
      assert |run.log| == 1;
      FrontOf([], run.log[0]);
      assert run.log == [] + [run.log[0]];
    }
  }

  lemma RunsGrow(s: Settings, start: World, plan: seq<HP.Attempt>, request: Request, inners: seq<Inner>,
                 runs: seq<Option<Run>>, next: Option<Run>)
    requires Runs(s, start, plan, request, inners, runs) && |runs| < |plan|
    requires if next.None? then plan[|runs|].endpoint.Some? && plan[|runs|].endpoint.value in AllRanOn(runs)
             else && !(plan[|runs|].endpoint.Some? && plan[|runs|].endpoint.value in AllRanOn(runs))
                  && next.value.start == Reached(start, runs).(mine := [])
                  && RunOf(s, plan[|runs|], request, inners[|runs|], next.value)
    ensures var more := runs + [next];
            && Runs(s, start, plan, request, inners, more) && SeenOf(more) == SeenOf(runs) + [ResultAt(next)]
            && AllRanOn(more) == AllRanOn(runs) + (if next.None? then [] else RanOn(next.value.log))
            && Reached(start, more) == if next.None? then Reached(start, runs) else next.value.finish
  {
    hide RunOf, AllRanOn, Reached, RanOn;
    var more := runs + [next];
    assert more[..|runs|] == runs;
    forall i | 0 <= i < |more| ensures RunsAt(s, start, plan, request, inners, more, i) {
      if i < |runs| {
        assert RunsAt(s, start, plan, request, inners, runs, i) && more[..i] == runs[..i];
      }
    }
    RanMore(start, runs, next);
  }

  lemma RanMore(start: World, runs: seq<Option<Run>>, next: Option<Run>)
    ensures var more := runs + [next];
            && AllRanOn(more) == AllRanOn(runs) + (if next.None? then [] else RanOn(next.value.log))
            && Reached(start, more) == if next.None? then Reached(start, runs) else next.value.finish
  {
    assert (runs + [next])[..|runs|] == runs;
  }

  /** Where the walk stands after `runs`. */
  ghost predicate Stands(plan: seq<HP.Attempt>, runs: seq<Option<Run>>, at: Standing) {
    && Tracks(plan, SeenOf(runs), at) && at.ran == AllRanOn(runs) && at.dispatched == Members(AllRanOn(runs))
    && forall j :: 0 <= j < |runs| <= |plan| ==> HP.HonestAt(plan[j], ResultAt(runs[j]))
  }

  /** Follow the plan, executing each attempt it reaches through its backend's router. */
  method FollowPlan(s: Settings, start: World, plan: seq<HP.Attempt>, request: Request, inners: seq<Inner>)
    returns (course: HP.Course, w: World, runs: seq<Option<Run>>)
    requires |inners| == |plan| && plan != [] && HP.DistinctPlan(plan) && !plan[0].exact
    requires forall i :: 0 <= i < |plan| ==> Sound(inners[i])
    ensures Runs(s, start, plan, request, inners, runs) && w == Reached(start, runs)
    ensures course == HP.Follow(plan, Results(runs, |plan|), 0, [], false, {})
    ensures HP.Honest(plan, Results(runs, |plan|))
    ensures |runs| < |plan| ==> runs != [] && StopsShort(course.outcome, |runs| - 1)
    ensures course.ran == AllRanOn(runs) && Distinct(course.ran)
  {
    hide HP.Follow, Ends, Moved, HP.HonestAt, Ending, Distinct, RunOf, Stands, Runs, AllRanOn, Reached, Skips, Results;
    w, runs := start, [];
    var at := Standing([], false, {}, []);
    NothingSeen(s, start, plan, request, inners);
    for i := 0 to |plan|
      invariant |runs| == i && Stands(plan, runs, at)
      invariant Runs(s, start, plan, request, inners, runs) && w == Reached(start, runs)
    {
      if Skips(plan[i], at) {
        SkipIsSafe(s, start, plan, request, inners, runs, at);
        runs := runs + [None];
        continue;
      }
      var run := RunAttempt(s, w, plan[i], request, inners[i]);
      var result := ResultOf(run.outcome, run.log);
      RunIsNext(s, start, plan, request, inners, runs, at, run);
      if Ends(result, at) {
        course := Ending(i, result, at);
        WalkEnds(s, plan, request, inners, runs, at, run);
        HP.NoEndpointRunsTwice(plan, Results(runs + [Some(run)], |plan|));
        return course, run.finish, runs + [Some(run)];
      }
      WalkGoesOn(s, plan, request, inners, runs, at, run);
      at, w, runs := Moved(plan[i], result, at), run.finish, runs + [Some(run)];
    }
    course := Exhausted(plan, runs, at);
    HP.NoEndpointRunsTwice(plan, Results(runs, |plan|));
  }

  lemma RunIsNext(s: Settings, start: World, plan: seq<HP.Attempt>, request: Request, inners: seq<Inner>,
                  runs: seq<Option<Run>>, at: Standing, run: Run)
    requires Runs(s, start, plan, request, inners, runs) && Stands(plan, runs, at) && |runs| < |plan|
    requires !Skips(plan[|runs|], at) && RunOf(s, plan[|runs|], request, inners[|runs|], run)
    requires run.start == Reached(start, runs).(mine := [])
    ensures Runs(s, start, plan, request, inners, runs + [Some(run)])
            && Reached(start, runs + [Some(run)]) == run.finish
  {
    hide RunOf, Runs, Tracks, AllRanOn, Reached;
    RunsGrow(s, start, plan, request, inners, runs, Some(run));
  }

  lemma WalkGoesOn(s: Settings, plan: seq<HP.Attempt>, request: Request, inners: seq<Inner>, runs: seq<Option<Run>>,
                   at: Standing, run: Run)
    requires |runs| < |plan| == |inners| && Stands(plan, runs, at) && !Skips(plan[|runs|], at)
    requires RunOf(s, plan[|runs|], request, inners[|runs|], run) && !Ends(ResultOf(run.outcome, run.log), at)
    requires HP.HonestAt(plan[|runs|], ResultOf(run.outcome, run.log))
    ensures Stands(plan, runs + [Some(run)], Moved(plan[|runs|], ResultOf(run.outcome, run.log), at))
  {
    hide RunOf, Tracks, AllRanOn, RanOn, CountRefusals, HP.HonestAt;
    var i, r, more := |runs|, ResultOf(run.outcome, run.log), runs + [Some(run)];
    TracksOn(plan, SeenOf(runs), at, r);
    assert SeenOf(more) == SeenOf(runs) + [r];
    RanMore(run.start, runs, Some(run));
    OneDispatch(s, plan[i], request, inners[i], run);
    MembersMore(AllRanOn(runs), RanOn(run.log));
  }

  lemma MembersMore(some: seq<EndpointId>, more: seq<EndpointId>)
    ensures Members(some + more) == Members(some) + Members(more)
  {
  }

  lemma WalkEnds(s: Settings, plan: seq<HP.Attempt>, request: Request, inners: seq<Inner>, runs: seq<Option<Run>>,
                 at: Standing, run: Run)
    requires |runs| < |plan| == |inners| && Stands(plan, runs, at) && !Skips(plan[|runs|], at)
    requires RunOf(s, plan[|runs|], request, inners[|runs|], run) && Ends(ResultOf(run.outcome, run.log), at)
    requires HP.HonestAt(plan[|runs|], ResultOf(run.outcome, run.log))
    ensures var more, course := runs + [Some(run)], Ending(|runs|, ResultOf(run.outcome, run.log), at);
            && course == HP.Follow(plan, Results(more, |plan|), 0, [], false, {})
            && HP.Honest(plan, Results(more, |plan|)) && course.ran == AllRanOn(more)
            && StopsShort(course.outcome, |runs|)
  {
    hide RunOf, Tracks, AllRanOn, RanOn, CountRefusals, HP.Follow, HP.HonestAt;
    var i, r, more := |runs|, ResultOf(run.outcome, run.log), runs + [Some(run)];
    var results := TracksEnd(plan, SeenOf(runs), at, r);
    assert SeenOf(more) == SeenOf(runs) + [r];
    RanMore(run.start, runs, Some(run));
    OneDispatch(s, plan[i], request, inners[i], run);
    AllHonest(plan, SeenOf(runs), r, results);
  }

  lemma NothingSeen(s: Settings, start: World, plan: seq<HP.Attempt>, request: Request, inners: seq<Inner>)
    requires |plan| == |inners|
    ensures Stands(plan, [], Standing([], false, {}, [])) && Runs(s, start, plan, request, inners, [])
    ensures Reached(start, []) == start
  {
    var none := Standing([], false, {}, []);
    forall later: seq<HP.Result> | |later| == |plan| ensures Agrees(plan, [] + later, 0, none) {
      var rest := HP.Follow(plan, [] + later, 0, [], false, {});
      assert [] + rest.ran == rest.ran;
    }
    assert SeenOf([]) == [];
    assert Tracks(plan, [], none);
  }

  lemma SkipIsSafe(s: Settings, start: World, plan: seq<HP.Attempt>, request: Request, inners: seq<Inner>,
                   runs: seq<Option<Run>>, at: Standing)
    requires Runs(s, start, plan, request, inners, runs) && Stands(plan, runs, at)
    requires |runs| < |plan| && Skips(plan[|runs|], at)
    ensures var more := runs + [None];
            && Runs(s, start, plan, request, inners, more) && Stands(plan, more, at)
            && Reached(start, more) == Reached(start, runs)
  {
    hide Tracks, AllRanOn, Reached, Runs;
    RunsGrow(s, start, plan, request, inners, runs, None);
    TracksOn(plan, SeenOf(runs), at, HP.Refused);
    assert AllRanOn(runs) + [] == AllRanOn(runs);
  }

  lemma AllHonest(plan: seq<HP.Attempt>, seen: seq<HP.Result>, r: HP.Result, results: seq<HP.Result>)
    requires |seen| < |plan| && results == (seen + [r]) + Unreached(|plan| - |seen| - 1)
    requires (forall j :: 0 <= j < |seen| ==> HP.HonestAt(plan[j], seen[j])) && HP.HonestAt(plan[|seen|], r)
    ensures HP.Honest(plan, results)
  {
  }

  /** How a walk that reached the end of its plan ends. */
  method Exhausted(plan: seq<HP.Attempt>, runs: seq<Option<Run>>, at: Standing) returns (course: HP.Course)
    requires Stands(plan, runs, at) && |runs| == |plan|
    ensures course == HP.Follow(plan, Results(runs, |plan|), 0, [], false, {}) && course.ran == AllRanOn(runs)
    ensures HP.Honest(plan, Results(runs, |plan|))
  {
    ghost var seen := SeenOf(runs);
    assert Results(runs, |plan|) == seen && seen + [] == seen;
    assert Agrees(plan, seen + [], |seen|, at);
    assert at.ran + [] == at.ran;
    var outcome := if at.errors != [] then HP.Surface(Surfaced(at.errors), false)
                   else if at.refused then HP.FirstRefusal else HP.NothingAttempted;
    course := HP.Course(outcome, at.ran);
  }

  /** One planned attempt, by the inner router. */
  method RunAttempt(s: Settings, start: World, attempt: HP.Attempt, request: Request, inner: Inner) returns (run: Run)
    requires Sound(inner) && (attempt.exact ==> attempt.endpoint.Some?)
    ensures run.start == start.(mine := []) && RunOf(s, attempt, request, inner, run)
    ensures HP.HonestAt(attempt, ResultOf(run.outcome, run.log))
  {
    hide Evolves, Performed, OnPath, NeverBegan, WishesHeard, Settled, HP.HonestAt, GoodPrimary, DeedsOf, Prelude,
         HeldAfter;
    run := Execute(s, start.(mine := []), inner.routes, inner.routeSize, inner.offload,
                   AttemptRequest(request, attempt), inner.oracle, inner.up);
    InnerRunIsHonest(inner.routes, inner.offload, request, attempt, run.turned, run.outcome, run.log);
  }
}

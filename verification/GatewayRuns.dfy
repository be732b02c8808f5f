/** The gateway as runs of its parts: whatever one request and all others do, every endpoint's breaker goes through a
    run of claims, returns and outcomes, and the prefill tracker through a run of leases, releases and forgets. */
module GatewayRuns {
  import opened Options
  import opened Identifiers
  import opened Failures
  import opened CircuitBreaker
  import opened EndpointHealth
  import opened Gateway
  import BR = BreakerRuns
  import PR = PrefillRuns

  // ----- one endpoint's breaker

  /** What a claim handed back is to the breaker of `e`. */
  function ReturnOf(claim: Option<DispatchClaim>, e: EndpointId): seq<BR.Timed> {
    if claim.Some? && claim.value.endpoint == e && claim.value.token.Some?
    then [BR.Timed(Clock(0.0, 0.0, 0.0), BR.Return(claim.value.token.value))] else []
  }

  /** What another request's step is to the breaker of `e`. */
  function OfAction(t: TimedAction, e: EndpointId): seq<BR.Timed> {
    match t.action
    case OtherBegin(x) => if x == e then [BR.Timed(t.clock, BR.Dispatch)] else []
    case OtherEnd(claim) => ReturnOf(Some(claim), e)
    case OtherSuccess(x) => if x == e then [BR.Timed(t.clock, BR.Success)] else []
    case OtherFailure(x, f, policy, scheduled) =>
      if x == e then [BR.Timed(t.clock, BR.Failed(f, policy, scheduled))] else []
    case OtherPrefill(_) => []
  }

  function OfActions(actions: seq<TimedAction>, e: EndpointId): seq<BR.Timed> {
    if actions == [] then [] else OfAction(actions[0], e) + OfActions(actions[1..], e)
  }

  /** What a move of the request is to the breaker of `e`. */
  function OfMove(m: Move, e: EndpointId): seq<BR.Timed> {
    match m
    case Claiming(_, x, now) => if x == e then [BR.Timed(Clock(now, 0.0, 0.0), BR.Dispatch)] else []
    case Ending(_, claim) => ReturnOf(claim, e)
    case Leasing(_, _, _, _, _, _, _) => []
    case Releasing(_, _, _) => []
    case ReportingUp(x) => if x == e then [BR.Timed(Clock(0.0, 0.0, 0.0), BR.Success)] else []
    case ReportingDown(x, f, policy, clock, scheduled) =>
      if x == e then [BR.Timed(clock, BR.Failed(f, policy, scheduled))] else []
    case Suspending(_, actions) => OfActions(actions, e)
  }

  function OfMoves(moves: seq<Move>, e: EndpointId): seq<BR.Timed> {
    if moves == [] then [] else OfMoves(moves[..|moves| - 1], e) + OfMove(moves[|moves| - 1], e)
  }

  /** An endpoint after these events. */
  ghost function Played(s: Settings, x: Endpoint, run: seq<BR.Timed>): Endpoint {
    if run == [] then x
    else
      var n := |run| - 1;
      BR.Step(s.breaker, s.alpha, BR.Machine(Played(s, x, run[..n]), [], 0), run[n]).endpoint
  }

  lemma {:induction false} PlayedMore(s: Settings, x: Endpoint, first: seq<BR.Timed>, more: seq<BR.Timed>)
    ensures Played(s, x, first + more) == Played(s, Played(s, x, first), more)
  {
    hide BR.Step;
    if more == [] {
      assert first + more == first;
    } else {
      var n := |more| - 1;
      PlayedMore(s, x, first, more[..n]);
      assert (first + more)[..|first| + n] == first + more[..n];
    }
  }

  lemma PlayedOne(s: Settings, x: Endpoint, t: BR.Timed)
    ensures Played(s, x, [t]) == BR.Step(s.breaker, s.alpha, BR.Machine(x, [], 0), t).endpoint
  {
    hide BR.Step;
    assert [t][..0] == [];
  }

  /** Claims, returns and outcomes move an endpoint without looking at its pages. */
  lemma PagesDoNotMatter(s: Settings, m: BR.Machine, t: BR.Timed)
    requires !t.event.PageDone?
    ensures BR.Step(s.breaker, s.alpha, m, t).endpoint ==
            BR.Step(s.breaker, s.alpha, BR.Machine(m.endpoint, [], 0), t).endpoint
  {
  }

  ghost predicate NoPages(run: seq<BR.Timed>) { forall t :: t in run ==> !t.event.PageDone? }

  lemma {:induction false} PlayedIsRun(s: Settings, run: seq<BR.Timed>, n: nat)
    requires NoPages(run) && n <= |run|
    ensures Played(s, FRESH, run[..n]) == BR.StateAt(s.breaker, s.alpha, run, n).endpoint
  {
    hide BR.Step;
    if n > 0 {
      PlayedIsRun(s, run, n - 1);
      assert run[..n][..n - 1] == run[..n - 1];
      PagesDoNotMatter(s, BR.StateAt(s.breaker, s.alpha, run, n - 1), run[n - 1]);
    }
  }

  lemma ClaimIsDispatch(s: Settings, w: World, x: EndpointId, e: EndpointId, clock: Clock)
    ensures At(BeginAt(s, w, x, clock.perf).0, e) ==
            Played(s, At(w, e), if x == e then [BR.Timed(clock, BR.Dispatch)] else [])
  {
    hide Begin;
    PlayedOne(s, At(w, e), BR.Timed(clock, BR.Dispatch));
  }

  lemma EndIsReturn(s: Settings, w: World, claim: Option<DispatchClaim>, e: EndpointId)
    ensures At(EndAt(w, claim), e) == Played(s, At(w, e), ReturnOf(claim, e))
  {
    if ReturnOf(claim, e) != [] {
      PlayedOne(s, At(w, e), ReturnOf(claim, e)[0]);
    }
  }

  lemma SuccessIsSuccess(s: Settings, w: World, x: EndpointId, e: EndpointId, clock: Clock)
    ensures At(SucceedAt(s, w, x), e) == Played(s, At(w, e), if x == e then [BR.Timed(clock, BR.Success)] else [])
  {
    hide RecordSuccess;
    PlayedOne(s, At(w, e), BR.Timed(clock, BR.Success));
  }

  lemma FailureIsFailed(s: Settings, w: World, x: EndpointId, f: Failure, policy: Policy, clock: Clock,
                        scheduled: bool, e: EndpointId)
    ensures At(FailAt(s, w, x, f, policy, clock, scheduled), e) ==
            Played(s, At(w, e), if x == e then [BR.Timed(clock, BR.Failed(f, policy, scheduled))] else [])
  {
    hide RecordFailure;
    PlayedOne(s, At(w, e), BR.Timed(clock, BR.Failed(f, policy, scheduled)));
  }

  lemma ActIsPlayed(s: Settings, w: World, t: TimedAction, e: EndpointId)
    ensures At(Act(s, w, t), e) == Played(s, At(w, e), OfAction(t, e))
  {
    hide BeginAt, EndAt, SucceedAt, FailAt, Played;
    match t.action
    case OtherBegin(x) => ClaimIsDispatch(s, w, x, e, t.clock);
    case OtherEnd(claim) => EndIsReturn(s, w, Some(claim), e);
    case OtherSuccess(x) => SuccessIsSuccess(s, w, x, e, t.clock);
    case OtherFailure(x, f, policy, scheduled) => FailureIsFailed(s, w, x, f, policy, t.clock, scheduled, e);
    case OtherPrefill(_) => NothingPlayed(s, At(w, e));
  }

  lemma NothingPlayed(s: Settings, x: Endpoint)
    ensures Played(s, x, []) == x
  {
  }

  lemma {:induction false} InterferenceIsPlayed(s: Settings, w: World, actions: seq<TimedAction>, e: EndpointId)
    ensures At(Interfere(s, w, actions), e) == Played(s, At(w, e), OfActions(actions, e))
    decreases |actions|
  {
    hide Act, Played, At;
    if actions == [] {
      NothingPlayed(s, At(w, e));
    } else {
      ActIsPlayed(s, w, actions[0], e);
      InterferenceIsPlayed(s, Act(s, w, actions[0]), actions[1..], e);
      PlayedMore(s, At(w, e), OfAction(actions[0], e), OfActions(actions[1..], e));
    }
  }

  lemma MoveIsPlayed(s: Settings, w: World, m: Move, e: EndpointId)
    ensures At(Make(s, w, m), e) == Played(s, At(w, e), OfMove(m, e))
  {
    hide BeginAt, EndAt, SucceedAt, FailAt, Interfere, Played, PrefillStep;
    match m
    case Claiming(_, x, now) => ClaimIsDispatch(s, w, x, e, Clock(now, 0.0, 0.0));
    case Ending(_, claim) =>
      NothingPlayed(s, At(w, e));
      EndIsReturn(s, w, claim, e);
    case Leasing(_, now, x, tokens, caller, fingerprint, anchor) =>
      LoadIsNotPlayed(s, w, now, PR.Acquire(x, tokens, caller, fingerprint, anchor), e);
    case Releasing(lease, now, confirmed) => LoadIsNotPlayed(s, w, now, PR.Release(lease, confirmed), e);
    case ReportingUp(x) => SuccessIsSuccess(s, w, x, e, Clock(0.0, 0.0, 0.0));
    case ReportingDown(x, f, policy, clock, scheduled) =>
      FailureIsFailed(s, w, x, f, policy, clock, scheduled, e);
    case Suspending(_, actions) => InterferenceIsPlayed(s, w, actions, e);
  }

  lemma LoadIsNotPlayed(s: Settings, w: World, now: real, event: PR.Event, e: EndpointId)
    ensures At(PrefillStep(s, w, now, event), e) == At(w, e) == Played(s, At(w, e), [])
  {
    hide PR.Step;
  }

  /** Every breaker goes through exactly the run that the request's moves and the others' actions are to it. */
  lemma {:induction false} ReplayIsPlayed(s: Settings, w: World, moves: seq<Move>, e: EndpointId)
    ensures At(Replay(s, w, moves), e) == Played(s, At(w, e), OfMoves(moves, e))
  {
    hide Make, Played, At;
    if moves == [] {
      NothingPlayed(s, At(w, e));
    } else {
      var n := |moves| - 1;
      ReplayIsPlayed(s, w, moves[..n], e);
      MoveIsPlayed(s, Replay(s, w, moves[..n]), moves[n], e);
      PlayedMore(s, At(w, e), OfMoves(moves[..n], e), OfMove(moves[n], e));
    }
  }

  lemma {:induction false} MovesHaveNoPages(moves: seq<Move>, e: EndpointId)
    ensures NoPages(OfMoves(moves, e))
  {
    if moves != [] {
      MovesHaveNoPages(moves[..|moves| - 1], e);
      var m := moves[|moves| - 1];
      if m.Suspending? {
        ActionsHaveNoPages(m.actions, e);
      }
    }
  }

  lemma {:induction false} ActionsHaveNoPages(actions: seq<TimedAction>, e: EndpointId)
    ensures NoPages(OfActions(actions, e))
  {
    if actions != [] {
      ActionsHaveNoPages(actions[1..], e);
    }
  }

  /** So what holds over every run of a breaker holds of every endpoint of a gateway that began fresh. */
  lemma EndpointsAreRuns(s: Settings, w0: World, moves: seq<Move>, e: EndpointId)
    requires At(w0, e) == FRESH
    ensures var run := OfMoves(moves, e);
            At(Replay(s, w0, moves), e) == BR.StateAt(s.breaker, s.alpha, run, |run|).endpoint
  {
    var run := OfMoves(moves, e);
    ReplayIsPlayed(s, w0, moves, e);
    MovesHaveNoPages(moves, e);
    PlayedIsRun(s, run, |run|);
    assert run[..|run|] == run;
  }

  // ----- the prefill tracker

  /** What another request's step is to the tracker. */
  function LoadOfAction(t: TimedAction): seq<PR.Timed> {
    match t.action
    case OtherPrefill(event) => [PR.Timed(t.clock.mono, event)]
    case OtherFailure(e, f, _, _) =>
      if MayLosePrefixCache(f) then [PR.Timed(t.clock.mono, PR.ForgetAll(e))] else []
    case _ => []
  }

  function LoadOfActions(actions: seq<TimedAction>): seq<PR.Timed> {
    if actions == [] then [] else LoadOfAction(actions[0]) + LoadOfActions(actions[1..])
  }

  /** What a move of the request is to the tracker. */
  function LoadOfMove(m: Move): seq<PR.Timed> {
    match m
    case Leasing(_, now, e, tokens, caller, fingerprint, anchor) =>
      [PR.Timed(now, PR.Acquire(e, tokens, caller, fingerprint, anchor))]
    case Releasing(lease, now, confirmed) => [PR.Timed(now, PR.Release(lease, confirmed))]
    case ReportingDown(e, f, _, clock, _) =>
      if MayLosePrefixCache(f) then [PR.Timed(clock.mono, PR.ForgetAll(e))] else []
    case Suspending(_, actions) => LoadOfActions(actions)
    case _ => []
  }

  function LoadOfMoves(moves: seq<Move>): seq<PR.Timed> {
    if moves == [] then [] else LoadOfMoves(moves[..|moves| - 1]) + LoadOfMove(moves[|moves| - 1])
  }

  ghost function Loaded(s: Settings, m: PR.Machine, run: seq<PR.Timed>): PR.Machine {
    if run == [] then m else PR.Step(s.prefill, Loaded(s, m, run[..|run| - 1]), run[|run| - 1])
  }

  lemma {:induction false} LoadedMore(s: Settings, m: PR.Machine, first: seq<PR.Timed>, more: seq<PR.Timed>)
    ensures Loaded(s, m, first + more) == Loaded(s, Loaded(s, m, first), more)
  {
    hide PR.Step;
    if more == [] {
      assert first + more == first;
    } else {
      var n := |more| - 1;
      LoadedMore(s, m, first, more[..n]);
      assert (first + more)[..|first| + n] == first + more[..n];
    }
  }

  lemma LoadedOne(s: Settings, m: PR.Machine, t: PR.Timed)
    ensures Loaded(s, m, [t]) == PR.Step(s.prefill, m, t) && Loaded(s, m, []) == m
  {
    hide PR.Step;
    assert [t][..0] == [];
  }

  lemma ActLoads(s: Settings, w: World, t: TimedAction)
    ensures Act(s, w, t).prefill == Loaded(s, w.prefill, LoadOfAction(t))
  {
    hide PR.Step, Loaded, RecordFailure, RecordSuccess, Begin, End;
    LoadedOne(s, w.prefill, if LoadOfAction(t) == [] then PR.Timed(0.0, PR.ForgetAll("")) else LoadOfAction(t)[0]);
  }

  lemma {:induction false} InterferenceLoads(s: Settings, w: World, actions: seq<TimedAction>)
    ensures Interfere(s, w, actions).prefill == Loaded(s, w.prefill, LoadOfActions(actions))
    decreases |actions|
  {
    hide Act, Loaded;
    if actions == [] {
      LoadedOne(s, w.prefill, PR.Timed(0.0, PR.ForgetAll("")));
    } else {
      ActLoads(s, w, actions[0]);
      InterferenceLoads(s, Act(s, w, actions[0]), actions[1..]);
      LoadedMore(s, w.prefill, LoadOfAction(actions[0]), LoadOfActions(actions[1..]));
    }
  }

  lemma MoveLoads(s: Settings, w: World, m: Move)
    ensures Make(s, w, m).prefill == Loaded(s, w.prefill, LoadOfMove(m))
  {
    hide PR.Step, Loaded, RecordFailure, RecordSuccess, Begin, End, Interfere;
    if m.Suspending? {
      InterferenceLoads(s, w, m.actions);
    } else {
      LoadedOne(s, w.prefill, if LoadOfMove(m) == [] then PR.Timed(0.0, PR.ForgetAll("")) else LoadOfMove(m)[0]);
    }
  }

  /** The tracker goes through exactly the run that the request's moves and the others' actions are to it. */
  lemma {:induction false} ReplayLoads(s: Settings, w: World, moves: seq<Move>)
    ensures Replay(s, w, moves).prefill == Loaded(s, w.prefill, LoadOfMoves(moves))
  {
    hide Make, Loaded;
    if moves == [] {
      LoadedOne(s, w.prefill, PR.Timed(0.0, PR.ForgetAll("")));
    } else {
      var n := |moves| - 1;
      ReplayLoads(s, w, moves[..n]);
      MoveLoads(s, Replay(s, w, moves[..n]), moves[n]);
      LoadedMore(s, w.prefill, LoadOfMoves(moves[..n]), LoadOfMove(moves[n]));
    }
  }

  lemma {:induction false} LoadedIsRun(s: Settings, run: seq<PR.Timed>, n: nat)
    requires n <= |run|
    ensures Loaded(s, PR.START, run[..n]) == PR.StateAt(s.prefill, run, n)
  {
    hide PR.Step;
    if n > 0 {
      LoadedIsRun(s, run, n - 1);
      assert run[..n][..n - 1] == run[..n - 1];
    }
  }

  /** So what holds over every run of the tracker holds of every gateway that began with an empty one. */
  lemma TrackerIsRun(s: Settings, w0: World, moves: seq<Move>)
    requires w0.prefill == PR.START
    ensures var run := LoadOfMoves(moves);
            Replay(s, w0, moves).prefill == PR.StateAt(s.prefill, run, |run|)
  {
    var run := LoadOfMoves(moves);
    ReplayLoads(s, w0, moves);
    LoadedIsRun(s, run, |run|);
    assert run[..|run|] == run;
  }
}

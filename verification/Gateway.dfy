/** The state concurrent requests share, and the steps other requests may take at any await point.
    The registry and the tracker appear here as the values their methods are specified by. */
module Gateway {
  import opened Options
  import opened Identifiers
  import opened Failures
  import opened CircuitBreaker
  import opened EndpointHealth
  import PL = PrefillLoad
  import PR = PrefillRuns

  datatype Settings = Settings(breaker: Config, alpha: real, prefill: PL.Knobs)

  /** What one request did, in order, with what it got. `attempt` numbers the request's attempts; `Waited` is a
      point where it was suspended, for an attempt of its own or before any, and what others did meanwhile. */
  datatype Deed =
    | Bade(attempt: nat, endpoint: EndpointId, now: real, claim: Option<DispatchClaim>)
    | Ended(attempt: nat, returned: DispatchClaim)
    | Took(attempt: nat, lease: nat, now: real, endpoint: EndpointId, tokens: nat, caller: Option<PL.Caller>,
           fingerprint: Option<PL.Fingerprint>, anchor: Option<PL.Anchor>)
    | Freed(lease: nat, now: real, confirmed: bool)
    | ReportedUp(endpoint: EndpointId)
    | ReportedDown(endpoint: EndpointId, failure: Failure, clock: Clock)
    | Waited(during: Option<nat>, actions: seq<TimedAction>)

  /** The shared state, seen from one request: `mine` is everything that request did so far. */
  datatype World = World(endpoints: map<EndpointId, Endpoint>, prefill: PR.Machine, mine: seq<Deed>)

  function Note(w: World, d: Deed): World { w.(mine := w.mine + [d]) }

  function At(w: World, e: EndpointId): Endpoint {
    if e in w.endpoints then w.endpoints[e] else FRESH
  }

  function Put(w: World, e: EndpointId, x: Endpoint): World { w.(endpoints := w.endpoints[e := x]) }

  // ----- the steps a request takes

  predicate Allows(s: Settings, w: World, e: EndpointId, now: real) {
    Admits(s.breaker, At(w, e).breaker, now)
  }

  function BeginAt(s: Settings, w: World, e: EndpointId, now: real): (World, Option<DispatchClaim>) {
    var (b, admission) := Begin(s.breaker, At(w, e).breaker, now);
    (Put(w, e, At(w, e).(breaker := b)),
     if admission.Refused? then None else Some(DispatchClaim(e, admission.token)))
  }

  function EndAt(w: World, claim: Option<DispatchClaim>): World {
    if claim.None? || claim.value.token.None? || claim.value.endpoint !in w.endpoints then w
    else
      var e := claim.value.endpoint;
      Put(w, e, At(w, e).(breaker := End(At(w, e).breaker, claim.value.token.value)))
  }

  function SucceedAt(s: Settings, w: World, e: EndpointId): (after: World)
    ensures after.mine == w.mine
  {
    Put(w, e, RecordSuccess(s.alpha, At(w, e)))
  }

  /** A failed attempt: an endpoint that may have lost its cache also loses its warm-prefix hints. */
  function FailAt(s: Settings, w: World, e: EndpointId, f: Failure, policy: Policy, clock: Clock,
                  scheduled: bool): (after: World)
    ensures after.mine == w.mine
  {
    var forgotten := if MayLosePrefixCache(f) then PrefillStep(s, w, clock.mono, PR.ForgetAll(e)) else w;
    Put(forgotten, e, RecordFailure(s.breaker, s.alpha, At(w, e), f, policy, clock, scheduled).0)
  }

  function PrefillStep(s: Settings, w: World, now: real, event: PR.Event): World {
    w.(prefill := PR.Step(s.prefill, w.prefill, PR.Timed(now, event)))
  }

  // ----- everyone else

  /** One step of some other request. */
  datatype Action =
    | OtherBegin(endpoint: EndpointId)
    | OtherEnd(claim: DispatchClaim)
    | OtherSuccess(endpoint: EndpointId)
    | OtherFailure(endpoint: EndpointId, failure: Failure, policy: Policy, scheduled: bool)
    | OtherPrefill(event: PR.Event)

  datatype TimedAction = TimedAction(clock: Clock, action: Action)

  function Act(s: Settings, w: World, t: TimedAction): World {
    match t.action
    case OtherBegin(e) => BeginAt(s, w, e, t.clock.perf).0
    case OtherEnd(claim) => EndAt(w, Some(claim))
    case OtherSuccess(e) => SucceedAt(s, w, e)
    case OtherFailure(e, f, policy, scheduled) => FailAt(s, w, e, f, policy, t.clock, scheduled)
    case OtherPrefill(event) => PrefillStep(s, w, t.clock.mono, event)
  }

  function Interfere(s: Settings, w: World, actions: seq<TimedAction>): (after: World)
    ensures after.mine == w.mine
    decreases |actions|
  {
    if actions == [] then w else Interfere(s, Act(s, w, actions[0]), actions[1..])
  }

  // ----- this request's own steps, each noted

  function ClaimAt(s: Settings, w: World, n: nat, e: EndpointId, now: real): (World, Option<DispatchClaim>) {
    var (begun, claim) := BeginAt(s, w, e, now);
    (Note(begun, Bade(n, e, now, claim)), claim)
  }

  /** No claim, nothing to hand back. */
  function HandBackAt(w: World, n: nat, claim: Option<DispatchClaim>): World {
    if claim.None? then w else Note(EndAt(w, claim), Ended(n, claim.value))
  }

  /** The lease's number is the next one. */
  function AcquireAt(s: Settings, w: World, n: nat, now: real, e: EndpointId, tokens: nat, caller: Option<PL.Caller>,
                     fingerprint: Option<PL.Fingerprint>, anchor: Option<PL.Anchor>): World
  {
    Note(PrefillStep(s, w, now, PR.Acquire(e, tokens, caller, fingerprint, anchor)),
         Took(n, |w.prefill.leases|, now, e, tokens, caller, fingerprint, anchor))
  }

  function ReleaseAt(s: Settings, w: World, lease: nat, now: real, confirmed: bool): World {
    Note(PrefillStep(s, w, now, PR.Release(lease, confirmed)), Freed(lease, now, confirmed))
  }

  function ScoreUp(s: Settings, w: World, e: EndpointId): World {
    Note(SucceedAt(s, w, e), ReportedUp(e))
  }

  function ScoreDown(s: Settings, w: World, e: EndpointId, f: Failure, policy: Policy, clock: Clock,
                     scheduled: bool): World
  {
    Note(FailAt(s, w, e, f, policy, clock, scheduled), ReportedDown(e, f, clock))
  }

  function Suspend(s: Settings, w: World, attempt: Option<nat>, actions: seq<TimedAction>): (after: World)
    ensures after.mine == w.mine + [Waited(attempt, actions)]
  {
    Note(Interfere(s, w, actions), Waited(attempt, actions))
  }

  // ----- what a request may rely on whatever the others do

  /** The claim's token was issued and its slot is not this claim's any more. */
  ghost predicate HandedBack(w: World, claim: DispatchClaim) {
    claim.token.Some? ==> claim.token.value < At(w, claim.endpoint).breaker.nextToken
                          && At(w, claim.endpoint).breaker.probeToken != Some(claim.token.value)
  }

  ghost predicate Issued(w: World, claim: DispatchClaim) {
    claim.token.Some? ==> claim.token.value < At(w, claim.endpoint).breaker.nextToken && claim.endpoint in w.endpoints
  }

  ghost predicate GivenBack(w: World, lease: nat) {
    lease < |w.prefill.leases| && w.prefill.leases[lease].released
  }

  ghost predicate Granted(w: World, lease: nat) { lease < |w.prefill.leases| }

  /** Lease `lease` charges endpoint `e`. */
  ghost predicate LeaseOn(w: World, lease: nat, e: EndpointId) {
    Granted(w, lease) && w.prefill.leases[lease].lease.endpoint == e
  }

  /** Nothing is ever un-issued or un-returned, and the load counters stay balanced. */
  ghost predicate Keeps(before: World, after: World) {
    && (forall c :: Issued(before, c) ==> Issued(after, c))
    && (forall c :: HandedBack(before, c) ==> HandedBack(after, c))
    && (forall l :: GivenBack(before, l) ==> GivenBack(after, l))
    && (forall l :: Granted(before, l) ==> Granted(after, l))
    && (forall l, e :: LeaseOn(before, l, e) ==> LeaseOn(after, l, e))
    && (PR.Balanced(before.prefill) ==> PR.Balanced(after.prefill))
    && (PR.HintsCoherent(before.prefill.tracker) ==> PR.HintsCoherent(after.prefill.tracker))
  }

  lemma BreakerKeeps(before: World, after: World, e: EndpointId, x: Endpoint)
    requires after == Put(before, e, x)
    requires At(before, e).breaker.nextToken <= x.breaker.nextToken
    requires x.breaker.probeToken == At(before, e).breaker.probeToken || x.breaker.probeToken.None?
             || x.breaker.probeToken == Some(At(before, e).breaker.nextToken)
    ensures Keeps(before, after)
  {
  }

  lemma PrefillKeeps(s: Settings, w: World, now: real, event: PR.Event)
    ensures Keeps(w, PrefillStep(s, w, now, event))
  {
    hide PR.HintsCoherent;
    var t := PR.Timed(now, event);
    if PR.HintsCoherent(w.prefill.tracker) {
      PR.StepKeepsHintsCoherent(s.prefill, w.prefill, t);
    }
    if PR.Balanced(w.prefill) {
      match event
      case Acquire(_, _, _, _, _) => PR.AcquireKeepsBalance(s.prefill, w.prefill, t);
      case Release(i, _) =>
        if i < |w.prefill.leases| && !w.prefill.leases[i].released {
          PR.ReleaseKeepsBalance(s.prefill, w.prefill, t);
        }
      case ForgetAll(_) =>
    }
  }

  lemma BeginKeeps(s: Settings, w: World, e: EndpointId, now: real)
    ensures Keeps(w, BeginAt(s, w, e, now).0)
  {
    BreakerKeeps(w, BeginAt(s, w, e, now).0, e, At(w, e).(breaker := Begin(s.breaker, At(w, e).breaker, now).0));
  }

  lemma EndKeeps(w: World, claim: Option<DispatchClaim>)
    ensures Keeps(w, EndAt(w, claim))
    ensures claim.Some? && Issued(w, claim.value) ==> HandedBack(EndAt(w, claim), claim.value)
  {
    if claim.Some? && claim.value.token.Some? && claim.value.endpoint in w.endpoints {
      var e := claim.value.endpoint;
      BreakerKeeps(w, EndAt(w, claim), e, At(w, e).(breaker := End(At(w, e).breaker, claim.value.token.value)));
    }
  }

  lemma SucceedKeeps(s: Settings, w: World, e: EndpointId)
    ensures Keeps(w, SucceedAt(s, w, e))
  {
    BreakerKeeps(w, SucceedAt(s, w, e), e, RecordSuccess(s.alpha, At(w, e)));
  }

  lemma KeepsTransitive(a: World, b: World, c: World)
    requires Keeps(a, b) && Keeps(b, c)
    ensures Keeps(a, c)
  {
  }

  lemma FailKeeps(s: Settings, w: World, e: EndpointId, f: Failure, policy: Policy, clock: Clock, scheduled: bool)
    ensures Keeps(w, FailAt(s, w, e, f, policy, clock, scheduled))
  {
    var forgotten := if MayLosePrefixCache(f) then PrefillStep(s, w, clock.mono, PR.ForgetAll(e)) else w;
    if MayLosePrefixCache(f) {
      PrefillKeeps(s, w, clock.mono, PR.ForgetAll(e));
    }
    assert At(forgotten, e) == At(w, e);
    var x := RecordFailure(s.breaker, s.alpha, At(w, e), f, policy, clock, scheduled).0;
    BreakerKeeps(forgotten, Put(forgotten, e, x), e, x);
    KeepsTransitive(w, forgotten, Put(forgotten, e, x));
  }

  lemma ActKeeps(s: Settings, w: World, t: TimedAction)
    ensures Keeps(w, Act(s, w, t)) && Act(s, w, t).mine == w.mine
  {
    match t.action
    case OtherBegin(e) => BeginKeeps(s, w, e, t.clock.perf);
    case OtherEnd(claim) => EndKeeps(w, Some(claim));
    case OtherSuccess(e) => SucceedKeeps(s, w, e);
    case OtherFailure(e, f, policy, scheduled) => FailKeeps(s, w, e, f, policy, t.clock, scheduled);
    case OtherPrefill(event) => PrefillKeeps(s, w, t.clock.mono, event);
  }

  lemma {:induction false} InterferenceKeeps(s: Settings, w: World, actions: seq<TimedAction>)
    ensures Keeps(w, Interfere(s, w, actions))
    decreases |actions|
  {
    hide Keeps, Act;
    if actions == [] {
      KeepsReflexive(w);
    } else {
      ActKeeps(s, w, actions[0]);
      InterferenceKeeps(s, Act(s, w, actions[0]), actions[1..]);
      KeepsTransitive(w, Act(s, w, actions[0]), Interfere(s, w, actions));
    }
  }

  lemma KeepsReflexive(w: World)
    ensures Keeps(w, w)
  {
  }

  lemma NotingKeeps(before: World, after: World, d: Deed)
    requires Keeps(before, after)
    ensures Keeps(before, Note(after, d))
  {
  }

  // ----- what can happen between two points of a request

  /** One move of this request, or one suspension of it. */
  datatype Move =
    | Claiming(attempt: nat, endpoint: EndpointId, now: real)
    | Ending(attempt: nat, claim: Option<DispatchClaim>)
    | Leasing(attempt: nat, now: real, endpoint: EndpointId, tokens: nat, caller: Option<PL.Caller>,
              fingerprint: Option<PL.Fingerprint>, anchor: Option<PL.Anchor>)
    | Releasing(lease: nat, now: real, confirmed: bool)
    | ReportingUp(endpoint: EndpointId)
    | ReportingDown(endpoint: EndpointId, failure: Failure, policy: Policy, clock: Clock, scheduled: bool)
    | Suspending(during: Option<nat>, actions: seq<TimedAction>)

  function Make(s: Settings, w: World, m: Move): World {
    match m
    case Claiming(n, e, now) => ClaimAt(s, w, n, e, now).0
    case Ending(n, claim) => HandBackAt(w, n, claim)
    case Leasing(n, now, e, tokens, caller, fingerprint, anchor) =>
      AcquireAt(s, w, n, now, e, tokens, caller, fingerprint, anchor)
    case Releasing(lease, now, confirmed) => ReleaseAt(s, w, lease, now, confirmed)
    case ReportingUp(e) => ScoreUp(s, w, e)
    case ReportingDown(e, f, policy, clock, scheduled) => ScoreDown(s, w, e, f, policy, clock, scheduled)
    case Suspending(attempt, actions) => Suspend(s, w, attempt, actions)
  }

  function Replay(s: Settings, w: World, moves: seq<Move>): World {
    if moves == [] then w else Make(s, Replay(s, w, moves[..|moves| - 1]), moves[|moves| - 1])
  }

  /** `after` is `before` after some moves and suspensions of this request, each noted, and nothing else. */
  ghost predicate Evolves(s: Settings, before: World, after: World) {
    exists moves :: Replay(s, before, moves) == after
  }

  lemma MakeKeeps(s: Settings, w: World, m: Move)
    ensures Keeps(w, Make(s, w, m))
  {
    hide Keeps;
    match m
    case Claiming(n, e, now) =>
      BeginKeeps(s, w, e, now);
      NotingKeeps(w, BeginAt(s, w, e, now).0, Bade(n, e, now, BeginAt(s, w, e, now).1));
    case Ending(n, claim) =>
      EndKeeps(w, claim);
      KeepsReflexive(w);
      if claim.Some? {
        NotingKeeps(w, EndAt(w, claim), Ended(n, claim.value));
      }
    case Leasing(n, now, e, tokens, caller, fingerprint, anchor) =>
      var event := PR.Acquire(e, tokens, caller, fingerprint, anchor);
      PrefillKeeps(s, w, now, event);
      NotingKeeps(w, PrefillStep(s, w, now, event),
                  Took(n, |w.prefill.leases|, now, e, tokens, caller, fingerprint, anchor));
    case Releasing(lease, now, confirmed) =>
      PrefillKeeps(s, w, now, PR.Release(lease, confirmed));
      NotingKeeps(w, PrefillStep(s, w, now, PR.Release(lease, confirmed)), Freed(lease, now, confirmed));
    case ReportingUp(e) =>
      SucceedKeeps(s, w, e);
      NotingKeeps(w, SucceedAt(s, w, e), ReportedUp(e));
    case ReportingDown(e, f, policy, clock, scheduled) =>
      FailKeeps(s, w, e, f, policy, clock, scheduled);
      NotingKeeps(w, FailAt(s, w, e, f, policy, clock, scheduled), ReportedDown(e, f, clock));
    case Suspending(attempt, actions) =>
      InterferenceKeeps(s, w, actions);
      NotingKeeps(w, Interfere(s, w, actions), Waited(attempt, actions));
  }

  lemma {:induction false} ReplayKeeps(s: Settings, w: World, moves: seq<Move>)
    ensures Keeps(w, Replay(s, w, moves))
  {
    hide Make;
    if moves != [] {
      var n := |moves| - 1;
      ReplayKeeps(s, w, moves[..n]);
      MakeKeeps(s, Replay(s, w, moves[..n]), moves[n]);
      KeepsTransitive(w, Replay(s, w, moves[..n]), Replay(s, w, moves));
    }
  }

  lemma {:induction false} ReplayConcat(s: Settings, w: World, first: seq<Move>, second: seq<Move>)
    ensures Replay(s, w, first + second) == Replay(s, Replay(s, w, first), second)
  {
    hide Make;
    if second == [] {
      assert first + second == first;
    } else {
      var n := |second| - 1;
      ReplayConcat(s, w, first, second[..n]);
      assert (first + second)[..|first| + n] == first + second[..n];
    }
  }

  lemma EvolvesKeeps(s: Settings, before: World, after: World)
    requires Evolves(s, before, after)
    ensures Keeps(before, after)
  {
    hide Keeps, Replay;
    var moves :| Replay(s, before, moves) == after;
    ReplayKeeps(s, before, moves);
  }

  lemma EvolvesReflexive(s: Settings, w: World)
    ensures Evolves(s, w, w)
  {
    assert Replay(s, w, []) == w;
  }

  lemma EvolvesTransitive(s: Settings, a: World, b: World, c: World)
    requires Evolves(s, a, b) && Evolves(s, b, c)
    ensures Evolves(s, a, c)
  {
    hide Replay;
    var first :| Replay(s, a, first) == b;
    var second :| Replay(s, b, second) == c;
    ReplayConcat(s, a, first, second);
  }

  lemma MoveEvolves(s: Settings, w: World, m: Move)
    ensures Evolves(s, w, Make(s, w, m))
  {
    assert [m][..0] == [];
    assert Replay(s, w, [m]) == Make(s, w, m);
  }

  /** One more move. */
  lemma EvolvesOn(s: Settings, before: World, w: World, m: Move)
    requires Evolves(s, before, w)
    ensures Evolves(s, before, Make(s, w, m))
  {
    hide Evolves;
    MoveEvolves(s, w, m);
    EvolvesTransitive(s, before, w, Make(s, w, m));
  }

  /** Nothing is un-done. */
  lemma MakeRemembers(s: Settings, w: World, m: Move)
    ensures w.mine <= Make(s, w, m).mine
  {
  }

  /** Whatever any number of other requests do, in any order, while this one is suspended. */
  lemma InterferenceEvolves(s: Settings, w: World, attempt: Option<nat>, actions: seq<TimedAction>)
    ensures Evolves(s, w, Suspend(s, w, attempt, actions))
  {
    MoveEvolves(s, w, Suspending(attempt, actions));
  }

  /** A claim just granted names its endpoint, and its token is that breaker's live probe. */
  lemma ClaimIsIssued(s: Settings, w: World, n: nat, e: EndpointId, now: real)
    requires ClaimAt(s, w, n, e, now).1.Some?
    ensures var (after, claim) := ClaimAt(s, w, n, e, now);
            && claim.value.endpoint == e && Issued(after, claim.value)
            && (claim.value.token.Some? ==> At(after, e).breaker.probeToken == claim.value.token)
            && Allows(s, w, e, now)
  {
  }

  /** A claim is refused only by a breaker that does not admit. */
  lemma RefusalIsReal(s: Settings, w: World, n: nat, e: EndpointId, now: real)
    ensures ClaimAt(s, w, n, e, now).1.None? <==> !Allows(s, w, e, now)
  {
  }

  /** A report of a failure that may have lost the endpoint's cache leaves no hint on it. */
  lemma LostCacheIsForgotten(s: Settings, w: World, e: EndpointId, f: Failure, policy: Policy, clock: Clock,
                             scheduled: bool, caller: PL.Caller)
    requires MayLosePrefixCache(f) && PR.HintsCoherent(w.prefill.tracker)
    ensures !PR.HasHint(ScoreDown(s, w, e, f, policy, clock, scheduled).prefill.tracker.hints, caller, e)
  {
    var after := ScoreDown(s, w, e, f, policy, clock, scheduled).prefill.tracker;
    PR.ForgetRemovesExactly(w.prefill.tracker, e);
    assert after.hints == PL.Forget(w.prefill.tracker, e).hints;
    assert forall i :: 0 <= i < |after.hints| ==> after.hints[i] in after.hints;
  }

  // ----- who gave a lease back

  /** Some other request gave lease `l` back in this suspension. */
  predicate FreedByOther(actions: seq<TimedAction>, l: nat) {
    exists i :: 0 <= i < |actions| && actions[i].action.OtherPrefill? && actions[i].action.event.Release?
                && actions[i].action.event.index == l
  }

  /** Lease `l` was given back by this request, or by another while it was suspended. */
  ghost predicate FreedIn(deeds: seq<Deed>, l: nat) {
    exists d :: d in deeds && ((d.Freed? && d.lease == l) || (d.Waited? && FreedByOther(d.actions, l)))
  }

  lemma {:induction false} InterferenceFrees(s: Settings, w: World, actions: seq<TimedAction>, l: nat)
    requires GivenBack(Interfere(s, w, actions), l)
    ensures GivenBack(w, l) || FreedByOther(actions, l)
    decreases |actions|
  {
    if actions != [] {
      var next := Act(s, w, actions[0]);
      InterferenceFrees(s, next, actions[1..], l);
      if GivenBack(next, l) && !GivenBack(w, l) {
        var a := actions[0].action;
        assert a.OtherPrefill? && a.event.Release? && a.event.index == l;
      } else if FreedByOther(actions[1..], l) {
        var i :| 0 <= i < |actions[1..]| && actions[1..][i].action.OtherPrefill?
                 && actions[1..][i].action.event.Release? && actions[1..][i].action.event.index == l;
        assert actions[i + 1] == actions[1..][i];
      }
    }
  }

  lemma MakeFrees(s: Settings, w: World, m: Move, l: nat) returns (d: Deed)
    requires GivenBack(Make(s, w, m), l) && !GivenBack(w, l)
    ensures Make(s, w, m).mine == w.mine + [d] && FreedIn([d], l)
  {
    d := Make(s, w, m).mine[|w.mine|];
    assert d in [d];
    if m.Suspending? {
      InterferenceFrees(s, w, m.actions, l);
    }
  }

  lemma FreedInMore(some: seq<Deed>, all: seq<Deed>, l: nat)
    requires FreedIn(some, l) && forall d :: d in some ==> d in all
    ensures FreedIn(all, l)
  {
  }

  lemma {:induction false} ReplayFrees(s: Settings, w: World, moves: seq<Move>, l: nat)
    requires GivenBack(Replay(s, w, moves), l) && !GivenBack(w, l)
    ensures FreedIn(Replay(s, w, moves).mine, l)
  {
    hide Make, GivenBack, FreedIn;
    if moves != [] {
      var before := Replay(s, w, moves[..|moves| - 1]);
      var after := Replay(s, w, moves);
      if GivenBack(before, l) {
        ReplayFrees(s, w, moves[..|moves| - 1], l);
        MakeRemembers(s, before, moves[|moves| - 1]);
        FreedInMore(before.mine, after.mine, l);
      } else {
        var d := MakeFrees(s, before, moves[|moves| - 1], l);
        FreedInMore([d], after.mine, l);
      }
    }
  }

  /** A lease is given back only by this request or by another, and either way it shows. */
  lemma EvolvesFrees(s: Settings, before: World, after: World, l: nat)
    requires Evolves(s, before, after) && GivenBack(after, l) && !GivenBack(before, l)
    ensures FreedIn(after.mine, l)
  {
    hide FreedIn, GivenBack, Replay;
    var moves :| Replay(s, before, moves) == after;
    ReplayFrees(s, before, moves, l);
  }

  // ----- a lease this request takes is a new one

  lemma MakeTakesNew(s: Settings, w: World, m: Move, d: Deed)
    requires d in Make(s, w, m).mine && d !in w.mine && d.Took?
    ensures d.lease == |w.prefill.leases|
  {
    MakeRemembers(s, w, m);
  }

  lemma {:induction false} ReplayTakesNew(s: Settings, w: World, moves: seq<Move>, d: Deed)
    requires d in Replay(s, w, moves).mine && d !in w.mine && d.Took?
    ensures !Granted(w, d.lease)
  {
    hide Make, Keeps;
    if moves != [] {
      var n := |moves| - 1;
      var before := Replay(s, w, moves[..n]);
      if d in before.mine {
        ReplayTakesNew(s, w, moves[..n], d);
      } else {
        MakeTakesNew(s, before, moves[n], d);
        ReplayKeeps(s, w, moves[..n]);
        StillGranted(w, before, d.lease);
      }
    }
  }

  lemma StillGranted(before: World, after: World, l: nat)
    requires Keeps(before, after) && !Granted(after, l)
    ensures !Granted(before, l)
  {
  }

  lemma EvolvesTakesNew(s: Settings, before: World, after: World, d: Deed)
    requires Evolves(s, before, after) && d in after.mine && d !in before.mine && d.Took?
    ensures !Granted(before, d.lease)
  {
    hide Replay;
    var moves :| Replay(s, before, moves) == after;
    ReplayTakesNew(s, before, moves, d);
  }
}

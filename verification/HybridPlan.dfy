/** The hybrid layer's attempt plan under the fixed policy, and the non-streaming walk over it. */
module HybridPlan {
  import opened Options
  import opened Identifiers
  import opened Failures

  type Label = string

  datatype Domain = Local | Cloud

  /** An eligible candidate of the model's route, in route order. */
  datatype Candidate = Candidate(endpoint: EndpointId, provider: Label, takesMedia: bool)

  /** Declared ranges: endpoint ids or provider labels. No cloud range means every non-local candidate. */
  datatype Scopes = Scopes(local: set<Label>, cloud: Option<set<Label>>)

  predicate InDeclared(c: Candidate, declared: set<Label>) {
    c.endpoint in declared || c.provider in declared
  }

  function DomainOf(c: Candidate, scopes: Scopes): Domain {
    if scopes.local != {} && InDeclared(c, scopes.local) then Local else Cloud
  }

  predicate Declared(c: Candidate, scopes: Scopes) {
    match DomainOf(c, scopes)
    case Local => InDeclared(c, scopes.local)
    case Cloud => scopes.cloud.None? || InDeclared(c, scopes.cloud.value)
  }

  datatype Attempt = Attempt(domain: Domain, endpoint: Option<EndpointId>, exact: bool)

  /** Whether each backend serves the model and which endpoints it can resolve. */
  datatype Backends = Backends(servesLocal: bool, servesCloud: bool, localRange: set<EndpointId>,
                               cloudRange: set<EndpointId>)

  predicate Serves(b: Backends, d: Domain) { if d.Local? then b.servesLocal else b.servesCloud }

  predicate Reaches(b: Backends, d: Domain, e: EndpointId) { e in (if d.Local? then b.localRange else b.cloudRange) }

  /** The policy's remaining candidates, as (domain, endpoint) pairs. */
  method FallbackAttempts(eligible: seq<Candidate>, primary: Option<EndpointId>, scopes: Scopes, media: bool,
                          pinned: bool)
    returns (attempts: seq<(Domain, EndpointId)>)
    ensures attempts == if pinned then [] else Remaining(eligible, primary, scopes, media)
  {
    attempts := [];
    if pinned { return; }
    for i := 0 to |eligible|
      invariant attempts == Remaining(eligible[..i], primary, scopes, media)
    {
      assert eligible[..i + 1][..i] == eligible[..i];
      var c := eligible[i];
      if media && !c.takesMedia { continue; }
      if Some(c.endpoint) == primary { continue; }
      var owner := DomainOf(c, scopes);
      if !Declared(c, scopes) { continue; }
      attempts := attempts + [(owner, c.endpoint)];
    }
    assert eligible[..|eligible|] == eligible;
  }

  function Remaining(eligible: seq<Candidate>, primary: Option<EndpointId>, scopes: Scopes, media: bool)
    : seq<(Domain, EndpointId)>
  {
    if eligible == [] then []
    else
      var n := |eligible| - 1;
      var c := eligible[n];
      Remaining(eligible[..n], primary, scopes, media)
      + if (media && !c.takesMedia) || Some(c.endpoint) == primary || !Declared(c, scopes) then []
        else [(DomainOf(c, scopes), c.endpoint)]
  }

  /** Turn the policy's order into dispatches: the primary always stays, a candidate its backend cannot
      reach is dropped. */
  method AttemptPlan(decided: Domain, primary: Option<EndpointId>, fallbacks: seq<(Domain, EndpointId)>,
                     backends: Backends)
    returns (plan: seq<Attempt>)
    ensures plan == [Attempt(decided, primary, false)] + Planned(fallbacks, primary, backends)
  {
    plan := [Attempt(decided, primary, false)];
    for i := 0 to |fallbacks|
      invariant plan == [Attempt(decided, primary, false)] + Planned(fallbacks[..i], primary, backends)
    {
      assert fallbacks[..i + 1][..i] == fallbacks[..i];
      var (domain, endpoint) := fallbacks[i];
      if !Serves(backends, domain) { continue; }
      if Some(endpoint) == primary { continue; }
      if !Reaches(backends, domain, endpoint) { continue; }
      plan := plan + [Attempt(domain, Some(endpoint), true)];
    }
    assert fallbacks[..|fallbacks|] == fallbacks;
  }

  function Planned(fallbacks: seq<(Domain, EndpointId)>, primary: Option<EndpointId>,
                   backends: Backends): seq<Attempt>
  {
    if fallbacks == [] then []
    else
      var n := |fallbacks| - 1;
      var (domain, endpoint) := fallbacks[n];
      Planned(fallbacks[..n], primary, backends)
      + if Serves(backends, domain) && Some(endpoint) != primary && Reaches(backends, domain, endpoint)
        then [Attempt(domain, Some(endpoint), true)] else []
  }

  // ----- the plan is the route, interleaved across domains

  /** The local range names the candidate, by endpoint or by provider. */
  ghost predicate Owned(c: Candidate, scopes: Scopes) {
    c.endpoint in scopes.local || c.provider in scopes.local
  }

  /** No other domain's range is asked about a locally owned candidate, and no cloud range means any other one. */
  ghost predicate InSomeRange(c: Candidate, scopes: Scopes) {
    Owned(c, scopes) || scopes.cloud.None? || c.endpoint in scopes.cloud.value || c.provider in scopes.cloud.value
  }

  /** The candidate's own backend serves the model and resolves its endpoint. */
  ghost predicate Dispatchable(c: Candidate, scopes: Scopes, backends: Backends) {
    if Owned(c, scopes) then backends.servesLocal && c.endpoint in backends.localRange
    else backends.servesCloud && c.endpoint in backends.cloudRange
  }

  /** A candidate that may follow the primary. */
  ghost predicate MayFollow(c: Candidate, primary: Option<EndpointId>, scopes: Scopes, media: bool) {
    Some(c.endpoint) != primary && (media ==> c.takesMedia) && InSomeRange(c, scopes)
  }

  ghost function OwnerOf(c: Candidate, scopes: Scopes): Domain { if Owned(c, scopes) then Local else Cloud }

  /** The attempts are exactly the candidates that may follow, each under the domain that owns it. */
  lemma {:induction false} AttemptsAreCandidates(eligible: seq<Candidate>, primary: Option<EndpointId>, scopes: Scopes,
                                                 media: bool, d: Domain, e: EndpointId)
    ensures (d, e) in Remaining(eligible, primary, scopes, media) <==>
              exists c :: c in eligible && c.endpoint == e && MayFollow(c, primary, scopes, media)
                          && d == OwnerOf(c, scopes)
  {
    if eligible != [] {
      var n := |eligible| - 1;
      AttemptsAreCandidates(eligible[..n], primary, scopes, media, d, e);
      assert forall c :: c in eligible <==> c in eligible[..n] || c == eligible[n];
      DomainIsOwner(eligible[n], scopes);
    }
  }

  lemma DomainIsOwner(c: Candidate, scopes: Scopes)
    ensures DomainOf(c, scopes) == OwnerOf(c, scopes) && (Declared(c, scopes) <==> InSomeRange(c, scopes))
  {
  }

  lemma {:induction false} PlannedAreReached(fallbacks: seq<(Domain, EndpointId)>, primary: Option<EndpointId>,
                                             backends: Backends, a: Attempt)
    ensures a in Planned(fallbacks, primary, backends) <==>
              && a.exact && a.endpoint.Some? && a.endpoint != primary && (a.domain, a.endpoint.value) in fallbacks
              && if a.domain.Local? then backends.servesLocal && a.endpoint.value in backends.localRange
                 else backends.servesCloud && a.endpoint.value in backends.cloudRange
  {
    if fallbacks != [] {
      var n := |fallbacks| - 1;
      PlannedAreReached(fallbacks[..n], primary, backends, a);
      assert forall f :: f in fallbacks <==> f in fallbacks[..n] || f == fallbacks[n];
    }
  }

  /** What follows the primary in a plan is exactly the candidates that may follow and whose own backend can run
      them: a locally owned one is an attempt of the local backend, and of no other. */
  lemma PlanIsOwned(eligible: seq<Candidate>, primary: Option<EndpointId>, scopes: Scopes, media: bool,
                    backends: Backends, a: Attempt)
    ensures a in Planned(Remaining(eligible, primary, scopes, media), primary, backends) <==>
              exists c :: c in eligible && MayFollow(c, primary, scopes, media) && Dispatchable(c, scopes, backends)
                          && a == Attempt(OwnerOf(c, scopes), Some(c.endpoint), true)
  {
    hide InSomeRange;
    var fallbacks := Remaining(eligible, primary, scopes, media);
    PlannedAreReached(fallbacks, primary, backends, a);
    if a.endpoint.Some? {
      AttemptsAreCandidates(eligible, primary, scopes, media, a.domain, a.endpoint.value);
    }
  }

  /** So with distinct endpoints an attempt on candidate `c` is local if and only if the local range names `c`. */
  lemma LocalIffOwned(eligible: seq<Candidate>, primary: Option<EndpointId>, scopes: Scopes, media: bool,
                      backends: Backends, d: Domain, c: Candidate)
    requires DistinctEndpoints(eligible) && c in eligible
    requires || (d, c.endpoint) in Remaining(eligible, primary, scopes, media)
             || Attempt(d, Some(c.endpoint), true) in
                Planned(Remaining(eligible, primary, scopes, media), primary, backends)
    ensures d == Local <==> c.endpoint in scopes.local || c.provider in scopes.local
  {
    hide MayFollow, Dispatchable;
    AttemptsAreCandidates(eligible, primary, scopes, media, d, c.endpoint);
    PlanIsOwned(eligible, primary, scopes, media, backends, Attempt(d, Some(c.endpoint), true));
    var x :| x in eligible && x.endpoint == c.endpoint && d == OwnerOf(x, scopes);
    assert x == c;
  }

  /** Every candidate is in a declared range, and its own backend serves the model and reaches it. */
  ghost predicate WellComposed(eligible: seq<Candidate>, scopes: Scopes, backends: Backends) {
    forall c :: c in eligible ==> InSomeRange(c, scopes) && Dispatchable(c, scopes, backends)
  }

  /** The endpoints of the other candidates that take the request's media, in route order. */
  ghost function OtherEndpoints(eligible: seq<Candidate>, primary: Option<EndpointId>, media: bool): seq<EndpointId> {
    if eligible == [] then []
    else
      var n := |eligible| - 1;
      var c := eligible[n];
      OtherEndpoints(eligible[..n], primary, media)
      + if (media && !c.takesMedia) || Some(c.endpoint) == primary then [] else [c.endpoint]
  }

  ghost function Endpoints(plan: seq<Attempt>): seq<Option<EndpointId>> {
    seq(|plan|, i requires 0 <= i < |plan| => plan[i].endpoint)
  }

  ghost function Somes(es: seq<EndpointId>): seq<Option<EndpointId>> {
    seq(|es|, i requires 0 <= i < |es| => Some(es[i]))
  }

  lemma {:induction false} PlanFollowsRoute(eligible: seq<Candidate>, primary: Option<EndpointId>, scopes: Scopes,
                                            media: bool, backends: Backends)
    requires WellComposed(eligible, scopes, backends)
    ensures Endpoints(Planned(Remaining(eligible, primary, scopes, media), primary, backends))
         == Somes(OtherEndpoints(eligible, primary, media))
  {
    if eligible != [] {
      var n := |eligible| - 1;
      var c := eligible[n];
      assert c in eligible;
      PlanFollowsRoute(eligible[..n], primary, scopes, media, backends);
      var before := Remaining(eligible[..n], primary, scopes, media);
      if !((media && !c.takesMedia) || Some(c.endpoint) == primary) {
        var pair := (DomainOf(c, scopes), c.endpoint);
        DomainIsOwner(c, scopes);
        assert Remaining(eligible, primary, scopes, media) == before + [pair];
        assert (before + [pair])[..|before|] == before;
        var planned := Planned(before, primary, backends);
        assert Planned(before + [pair], primary, backends) == planned + [Attempt(pair.0, Some(pair.1), true)];
        assert Endpoints(planned + [Attempt(pair.0, Some(pair.1), true)]) == Endpoints(planned) + [Some(c.endpoint)];
        var others := OtherEndpoints(eligible[..n], primary, media);
        assert Somes(others + [c.endpoint]) == Somes(others) + [Some(c.endpoint)];
      } else {
        assert Remaining(eligible, primary, scopes, media) == before;
        assert OtherEndpoints(eligible, primary, media) == OtherEndpoints(eligible[..n], primary, media);
      }
    }
  }

  ghost predicate DistinctEndpoints(eligible: seq<Candidate>) {
    forall i, j :: 0 <= i < j < |eligible| ==> eligible[i].endpoint != eligible[j].endpoint
  }

  ghost predicate IsOther(c: Candidate, e: EndpointId, primary: Option<EndpointId>, media: bool) {
    c.endpoint == e && Some(e) != primary && (media ==> c.takesMedia)
  }

  lemma {:induction false} OthersAre(eligible: seq<Candidate>, primary: Option<EndpointId>, media: bool, e: EndpointId)
    ensures e in OtherEndpoints(eligible, primary, media) <==>
              exists c :: c in eligible && IsOther(c, e, primary, media)
  {
    if eligible != [] {
      var n := |eligible| - 1;
      OthersAre(eligible[..n], primary, media, e);
      assert forall c :: c in eligible <==> c in eligible[..n] || c == eligible[n];
      assert e in OtherEndpoints(eligible, primary, media) <==>
             e in OtherEndpoints(eligible[..n], primary, media) || IsOther(eligible[n], e, primary, media);
    }
  }

  lemma {:induction false} OthersAreDistinct(eligible: seq<Candidate>, primary: Option<EndpointId>, media: bool)
    requires DistinctEndpoints(eligible)
    ensures Distinct(OtherEndpoints(eligible, primary, media))
  {
    hide Distinct;
    if eligible == [] {
      NoneIsDistinct();
    } else {
      var n := |eligible| - 1;
      var front, e := OtherEndpoints(eligible[..n], primary, media), eligible[n].endpoint;
      OthersAreDistinct(eligible[..n], primary, media);
      OthersAre(eligible[..n], primary, media, e);
      assert e !in front;
      OneMoreDistinct(front, e);
      assert front + [] == front;
    }
  }

  lemma NoneIsDistinct()
    ensures Distinct<EndpointId>([])
  {
  }

  lemma OneMoreDistinct(s: seq<EndpointId>, e: EndpointId)
    requires Distinct(s) && e !in s
    ensures Distinct(s + [e])
  {
  }

  lemma OthersAreOtherCandidates(eligible: seq<Candidate>, primary: Option<EndpointId>, media: bool)
    requires DistinctEndpoints(eligible)
    ensures var others := OtherEndpoints(eligible, primary, media);
            && (forall i, j :: 0 <= i < j < |others| ==> others[i] != others[j])
            && (forall e :: e in others <==> exists c :: c in eligible && IsOther(c, e, primary, media))
  {
    OthersAreDistinct(eligible, primary, media);
    forall e ensures e in OtherEndpoints(eligible, primary, media) <==>
                       exists c :: c in eligible && IsOther(c, e, primary, media)
    {
      OthersAre(eligible, primary, media, e);
    }
  }

  /** With distinct endpoints in declared, reachable domains: the plan is the primary followed by every other
      candidate that takes the media, once each, in route order. */
  lemma PlanCoversRoute(eligible: seq<Candidate>, decided: Domain, primary: Option<EndpointId>, scopes: Scopes,
                        media: bool, backends: Backends)
    requires WellComposed(eligible, scopes, backends) && DistinctEndpoints(eligible)
    ensures var plan := [Attempt(decided, primary, false)] + Planned(Remaining(eligible, primary, scopes, media),
                                                                     primary, backends);
            && Endpoints(plan) == [primary] + Somes(OtherEndpoints(eligible, primary, media))
            && DistinctPlan(plan)
  {
    hide Planned, Remaining, OtherEndpoints, WellComposed, DistinctEndpoints, DistinctPlan;
    PlanFollowsRoute(eligible, primary, scopes, media, backends);
    OthersAreOtherCandidates(eligible, primary, media);
    AllExact(Remaining(eligible, primary, scopes, media), primary, backends);
    var others := OtherEndpoints(eligible, primary, media);
    assert forall i :: 0 <= i < |others| ==> others[i] in others;
    PrimaryThenOthers(decided, primary, Planned(Remaining(eligible, primary, scopes, media), primary, backends),
                      others);
  }

  lemma PrimaryThenOthers(decided: Domain, primary: Option<EndpointId>, rest: seq<Attempt>, others: seq<EndpointId>)
    requires Endpoints(rest) == Somes(others)
    requires forall i :: 0 <= i < |rest| ==> rest[i].exact
    requires forall i :: 0 <= i < |others| ==> Some(others[i]) != primary
    requires forall i, j :: 0 <= i < j < |others| ==> others[i] != others[j]
    ensures var plan := [Attempt(decided, primary, false)] + rest;
            Endpoints(plan) == [primary] + Somes(others) && DistinctPlan(plan)
  {
    assert |rest| == |Endpoints(rest)| == |others|;
    assert forall i :: 0 <= i < |rest| ==>
           rest[i].endpoint == Endpoints(rest)[i] == Somes(others)[i] == Some(others[i]);
  }

  lemma {:induction false} AllExact(fallbacks: seq<(Domain, EndpointId)>, primary: Option<EndpointId>,
                                    backends: Backends)
    ensures forall a :: a in Planned(fallbacks, primary, backends) ==> a.exact && a.endpoint.Some?
  {
    if fallbacks != [] {
      AllExact(fallbacks[..|fallbacks| - 1], primary, backends);
    }
  }

  // ----- walking the plan without streaming

  /** The plan's entries after the primary name distinct endpoints, none of them the primary's. */
  ghost predicate DistinctPlan(plan: seq<Attempt>) {
    && (forall i :: 0 < i < |plan| ==> plan[i].exact && plan[i].endpoint.Some?)
    && (forall i, j :: 0 <= i < j < |plan| ==> plan[i].endpoint != plan[j].endpoint)
  }

  /** What one backend call did: `ran` is the endpoint an upstream request really went to, `reported` the one
      its error names. */
  datatype Result =
    | Answered(ran: EndpointId)
    | Errored(failure: Failure, ran: EndpointId, reported: Option<EndpointId>)
    | Interrupted(ran: EndpointId)
    | Refused
    | Mismatch

  /** An exact attempt runs the endpoint it names. The primary's target is only a preference, but an error
      names the endpoint that ran, unless it is the planned one. */
  ghost predicate HonestAt(attempt: Attempt, result: Result) {
    && (attempt.exact && (result.Answered? || result.Errored? || result.Interrupted?) ==>
        Some(result.ran) == attempt.endpoint)
    && (result.Errored? ==>
          result.reported == Some(result.ran) || (result.reported.None? && Some(result.ran) == attempt.endpoint))
  }

  ghost predicate Honest(plan: seq<Attempt>, results: seq<Result>)
    requires |plan| == |results|
  {
    forall i :: 0 <= i < |plan| ==> HonestAt(plan[i], results[i])
  }

  /** How the walk ends: `Surface` names the error raised, and whether two refusals stopped it early. */
  datatype Outcome =
    | Answer(attempt: nat)
    | Surface(error: nat, stopped: bool)
    | FirstRefusal
    | NothingAttempted
    | MismatchError
    | Cancelled

  /** The walk from attempt `i` on: how it ends, and the endpoints upstream requests went to. */
  datatype Course = Course(outcome: Outcome, ran: seq<EndpointId>)

  function Remembered(dispatched: set<EndpointId>, attempt: Attempt, reported: Option<EndpointId>): set<EndpointId> {
    if reported.Some? then dispatched + {reported.value}
    else if attempt.endpoint.Some? then dispatched + {attempt.endpoint.value}
    else dispatched
  }

  function Follow(plan: seq<Attempt>, results: seq<Result>, i: nat, errors: seq<Failure>, refused: bool,
                  dispatched: set<EndpointId>): Course
    requires |plan| == |results| && i <= |plan|
    decreases |plan| - i
  {
    if i == |plan| then
      Course(if errors != [] then Surface(Surfaced(errors), false)
             else if refused then FirstRefusal else NothingAttempted, [])
    else if plan[i].endpoint.Some? && plan[i].endpoint.value in dispatched then
      Follow(plan, results, i + 1, errors, refused, dispatched)
    else
      match results[i]
      case Refused => Follow(plan, results, i + 1, errors, true, dispatched)
      case Mismatch => Course(MismatchError, [])
      case Answered(ran) => Course(Answer(i), [ran])
      case Interrupted(ran) => Course(Cancelled, [ran])
      case Errored(failure, ran, reported) =>
        if CountRefusals(errors + [failure]) >= 2 then Course(Surface(Surfaced(errors + [failure]), true), [ran])
        else
          var rest := Follow(plan, results, i + 1, errors + [failure], refused,
                             Remembered(dispatched, plan[i], reported));
          Course(rest.outcome, [ran] + rest.ran)
  }

  /** Follow the plan until an attempt answers. */
  method ChatCompletion(plan: seq<Attempt>, results: seq<Result>) returns (outcome: Outcome, ran: seq<EndpointId>)
    requires |plan| == |results|
    ensures Course(outcome, ran) == Follow(plan, results, 0, [], false, {})
  {
    ran := [];
    var errors: seq<Failure>, refused, dispatched: set<EndpointId> := [], false, {};
    ghost var whole := Follow(plan, results, 0, [], false, {});
    for i := 0 to |plan|
      invariant var rest := Follow(plan, results, i, errors, refused, dispatched);
                whole == Course(rest.outcome, ran + rest.ran)
    {
      var attempt := plan[i];
      if attempt.endpoint.Some? && attempt.endpoint.value in dispatched { continue; }
      match results[i] {
        case Refused => refused := true;
        case Mismatch =>
          assert ran + [] == ran;
          return MismatchError, ran;
        case Answered(endpoint) => return Answer(i), ran + [endpoint];
        case Interrupted(endpoint) => return Cancelled, ran + [endpoint];
        case Errored(failure, endpoint, reported) =>
          ghost var next := Follow(plan, results, i + 1, errors + [failure], refused,
                                   Remembered(dispatched, attempt, reported));
          assert ran + ([endpoint] + next.ran) == (ran + [endpoint]) + next.ran;
          ran, errors := ran + [endpoint], errors + [failure];
          if CountRefusals(errors) >= 2 { return Surface(Surfaced(errors), true), ran; }
          dispatched := Remembered(dispatched, attempt, reported);
      }
    }
    assert ran + [] == ran;
    outcome := if errors != [] then Surface(Surfaced(errors), false)
               else if refused then FirstRefusal else NothingAttempted;
  }

  /** Every attempt after the first runs the endpoint it names and reports it. */
  ghost predicate HonestAfterFirst(plan: seq<Attempt>, results: seq<Result>)
    requires |plan| == |results|
  {
    forall i :: 0 < i < |plan| ==> HonestAt(plan[i], results[i])
  }

  lemma {:induction false} ExactAttemptsRunOnce(plan: seq<Attempt>, results: seq<Result>, i: nat, errors: seq<Failure>,
                                                refused: bool, dispatched: set<EndpointId>)
    requires |plan| == |results| && 0 < i <= |plan| && DistinctPlan(plan) && HonestAfterFirst(plan, results)
    ensures var ran := Follow(plan, results, i, errors, refused, dispatched).ran;
            && Distinct(ran)
            && (forall e :: e in ran ==> e !in dispatched && exists j :: i <= j < |plan| && plan[j].endpoint == Some(e))
    decreases |plan| - i
  {
    if i < |plan| {
      if plan[i].endpoint.Some? && plan[i].endpoint.value in dispatched {
        ExactAttemptsRunOnce(plan, results, i + 1, errors, refused, dispatched);
      } else {
        match results[i]
        case Refused => ExactAttemptsRunOnce(plan, results, i + 1, errors, true, dispatched);
        case Errored(failure, ran, reported) =>
          ExactAttemptsRunOnce(plan, results, i + 1, errors + [failure], refused,
                               Remembered(dispatched, plan[i], reported));
        case _ =>
      }
    }
  }

  /** The walk remembers the endpoint its first attempt failed on, or no later attempt names that endpoint. */
  ghost predicate FirstIsAccountedFor(plan: seq<Attempt>, first: Result)
    requires plan != []
  {
    first.Errored? ==>
      || first.ran in Remembered({}, plan[0], first.reported)
      || forall j :: 0 < j < |plan| ==> plan[j].endpoint != Some(first.ran)
  }

  lemma {:induction false} RunsOnceIfAccountedFor(plan: seq<Attempt>, results: seq<Result>)
    requires plan != [] && |plan| == |results| && DistinctPlan(plan) && HonestAfterFirst(plan, results)
    requires FirstIsAccountedFor(plan, results[0])
    ensures Distinct(Follow(plan, results, 0, [], false, {}).ran)
  {
    match results[0]
    case Refused => ExactAttemptsRunOnce(plan, results, 1, [], true, {});
    case Errored(failure, ran, reported) =>
      ExactAttemptsRunOnce(plan, results, 1, [failure], false, Remembered({}, plan[0], reported));
    case _ =>
  }

  /** No endpoint runs twice for one request, even when the primary's router substitutes a later candidate:
      it names that endpoint on its error and the plan then skips it. */
  lemma {:induction false} NoEndpointRunsTwice(plan: seq<Attempt>, results: seq<Result>)
    requires plan != [] && |plan| == |results| && DistinctPlan(plan) && Honest(plan, results)
    ensures Distinct(Follow(plan, results, 0, [], false, {}).ran)
  {
    assert HonestAt(plan[0], results[0]);
    RunsOnceIfAccountedFor(plan, results);
  }

  /** Results in which attempt `j` alone, of those after the first, is not refused, and answers. */
  function OnlyAnswers(n: nat, first: Result, j: nat, e: EndpointId): (results: seq<Result>)
    requires 0 < j < n
    ensures |results| == n && results[0] == first && results[j] == Answered(e)
    ensures forall i :: 0 < i < n && i != j ==> results[i] == Refused
  {
    seq(n, i => if i == 0 then first else if i == j then Answered(e) else Refused)
  }

  lemma {:induction false} RefusalsLeadTo(plan: seq<Attempt>, results: seq<Result>, i: nat, j: nat,
                                          errors: seq<Failure>, refused: bool, dispatched: set<EndpointId>,
                                          e: EndpointId)
    requires |plan| == |results| && i <= j < |plan| && results[j] == Answered(e)
    requires plan[j].endpoint == Some(e) && e !in dispatched
    requires forall k :: i <= k < j ==> results[k] == Refused
    ensures Follow(plan, results, i, errors, refused, dispatched).ran == [e]
    decreases j - i
  {
    if i < j {
      var skipped := plan[i].endpoint.Some? && plan[i].endpoint.value in dispatched;
      RefusalsLeadTo(plan, results, i + 1, j, errors, refused || !skipped, dispatched, e);
    }
  }

  /** Whatever the first attempt did: no endpoint runs twice, however the later ones go, exactly if the walk remembers
      the endpoint the first one failed on or never reaches for it again. */
  lemma {:induction false} RunsOnceIff(plan: seq<Attempt>, first: Result)
    requires plan != [] && DistinctPlan(plan)
    ensures FirstIsAccountedFor(plan, first) <==>
              forall results :: |results| == |plan| && results[0] == first && HonestAfterFirst(plan, results) ==>
                Distinct(Follow(plan, results, 0, [], false, {}).ran)
  {
    hide Follow, HonestAfterFirst, FirstIsAccountedFor, DistinctPlan, Distinct;
    forall results | |results| == |plan| && results[0] == first && HonestAfterFirst(plan, results)
                     && FirstIsAccountedFor(plan, first)
      ensures Distinct(Follow(plan, results, 0, [], false, {}).ran)
    {
      RunsOnceIfAccountedFor(plan, results);
    }
    if !FirstIsAccountedFor(plan, first) {
      var results := UnaccountedRunsTwice(plan, first);
    }
  }

  lemma {:induction false} UnaccountedRunsTwice(plan: seq<Attempt>, first: Result) returns (results: seq<Result>)
    requires plan != [] && DistinctPlan(plan) && !FirstIsAccountedFor(plan, first)
    ensures |results| == |plan| && results[0] == first && HonestAfterFirst(plan, results)
    ensures !Distinct(Follow(plan, results, 0, [], false, {}).ran)
  {
    hide CountRefusals;
    var j :| 0 < j < |plan| && plan[j].endpoint == Some(first.ran);
    results := OnlyAnswers(|plan|, first, j, first.ran);
    var remembered := Remembered({}, plan[0], first.reported);
    RefusalsLeadTo(plan, results, 1, j, [] + [first.failure], false, remembered, first.ran);
    OneIsNotTwo(first.failure);
    var ran := Follow(plan, results, 0, [], false, {}).ran;
    assert ran == [first.ran] + [first.ran];
    assert ran[0] == ran[1];
  }

  lemma OneIsNotTwo(f: Failure)
    ensures CountRefusals([] + [f]) < 2
  {
    assert ([] + [f])[..0] == [];
    assert CountRefusals([]) == 0;
  }

  /** A walk that fails without an early stop has tried every attempt: one that would have answered is passed
      over only because its endpoint had already run. */
  lemma {:induction false} FailureExhaustsPlan(plan: seq<Attempt>, results: seq<Result>, i: nat, errors: seq<Failure>,
                                               refused: bool,
                                               dispatched: set<EndpointId>, j: nat)
    requires |plan| == |results| && i <= j < |plan| && results[j].Answered?
    requires var o := Follow(plan, results, i, errors, refused, dispatched).outcome;
             o == FirstRefusal || o == NothingAttempted || (o.Surface? && !o.stopped)
    ensures plan[j].endpoint.Some?
    ensures || plan[j].endpoint.value in dispatched
            || exists k :: i <= k < j && RanOn(plan, results, k, plan[j].endpoint.value)
    decreases |plan| - i
  {
    if i < j {
      if plan[i].endpoint.Some? && plan[i].endpoint.value in dispatched {
        FailureExhaustsPlan(plan, results, i + 1, errors, refused, dispatched, j);
      } else {
        match results[i]
        case Refused => FailureExhaustsPlan(plan, results, i + 1, errors, true, dispatched, j);
        case Errored(failure, ran, reported) =>
          FailureExhaustsPlan(plan, results, i + 1, errors + [failure], refused,
                              Remembered(dispatched, plan[i], reported), j);
          assert plan[j].endpoint.value in Remembered(dispatched, plan[i], reported) ==>
                   plan[j].endpoint.value in dispatched || RanOn(plan, results, i, plan[j].endpoint.value);
        case _ =>
      }
    }
  }

  /** Attempt `k` failed, and `e` is the endpoint its error names, or the planned one when it names none. */
  ghost predicate RanOn(plan: seq<Attempt>, results: seq<Result>, k: nat, e: EndpointId)
    requires |plan| == |results| && k < |plan|
  {
    results[k].Errored? && e in Remembered({}, plan[k], results[k].reported)
  }

  /** A primary that substitutes a later candidate without naming it makes that endpoint run twice. */
  lemma UnreportedSubstituteRunsAgain()
    ensures var plan := [Attempt(Local, Some("a"), false), Attempt(Local, Some("b"), true)];
            var results := [Errored(Fault(None, false, None), "b", None), Answered("b")];
            DistinctPlan(plan) && Follow(plan, results, 0, [], false, {}).ran == ["b", "b"]
  {
    var plan := [Attempt(Local, Some("a"), false), Attempt(Local, Some("b"), true)];
    var results := [Errored(Fault(None, false, None), "b", None), Answered("b")];
    assert Follow(plan, results, 1, [Fault(None, false, None)], false, {"a"}) == Course(Answer(1), ["b"]);
  }
}

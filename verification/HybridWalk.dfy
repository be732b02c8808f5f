/** Where a walk of the hybrid plan ends: at the first attempt that ends it, told attempt by attempt. */
module HybridWalk {
  import opened Options
  import opened Identifiers
  import opened Failures
  import opened HybridPlan

  /** The endpoints known to have run before attempt `j`. */
  ghost function KnownAt(plan: seq<Attempt>, results: seq<Result>, j: nat): set<EndpointId>
    requires j <= |plan| == |results|
  {
    if j == 0 then {}
    else
      var known, attempt, result := KnownAt(plan, results, j - 1), plan[j - 1], results[j - 1];
      if !result.Errored? || (attempt.endpoint.Some? && attempt.endpoint.value in known) then known
      else if result.reported.Some? then known + {result.reported.value}
      else if attempt.endpoint.Some? then known + {attempt.endpoint.value}
      else known
  }

  /** Attempt `j` is dispatched if the walk reaches it: its endpoint is not known to have run. */
  ghost predicate Tried(plan: seq<Attempt>, results: seq<Result>, j: nat)
    requires j < |plan| == |results|
  {
    plan[j].endpoint.None? || plan[j].endpoint.value !in KnownAt(plan, results, j)
  }

  ghost predicate FailsAt(plan: seq<Attempt>, results: seq<Result>, j: nat)
    requires j < |plan| == |results|
  {
    Tried(plan, results, j) && results[j].Errored?
  }

  /** Attempt `j` is tried and calls the request malformed. */
  ghost predicate RefusesAt(plan: seq<Attempt>, results: seq<Result>, j: nat)
    requires j < |plan| == |results|
  {
    FailsAt(plan, results, j) && CountsAsRequestRefusal(results[j].failure)
  }

  ghost predicate AnyRefused(plan: seq<Attempt>, results: seq<Result>, n: nat)
    requires n <= |plan| == |results|
  {
    exists m :: 0 <= m < n && RefusesAt(plan, results, m)
  }

  /** Attempt `j` ends the walk: it does anything but fail or be refused, or is the second to refuse the request. */
  ghost predicate EndsAt(plan: seq<Attempt>, results: seq<Result>, j: nat)
    requires j < |plan| == |results|
  {
    && Tried(plan, results, j)
    && match results[j]
       case Refused => false
       case Errored(_, _, _) => RefusesAt(plan, results, j) && AnyRefused(plan, results, j)
       case _ => true
  }

  ghost predicate GoesOnTo(plan: seq<Attempt>, results: seq<Result>, n: nat)
    requires n <= |plan| == |results|
  {
    forall j :: 0 <= j < n ==> !EndsAt(plan, results, j)
  }

  /** The failures of the tried attempts before attempt `j`, in order. */
  ghost function ErrorsAt(plan: seq<Attempt>, results: seq<Result>, j: nat): seq<Failure>
    requires j <= |plan| == |results|
  {
    if j == 0 then []
    else ErrorsAt(plan, results, j - 1) + if FailsAt(plan, results, j - 1) then [results[j - 1].failure] else []
  }

  ghost predicate TurnedAwayAt(plan: seq<Attempt>, results: seq<Result>, j: nat)
    requires j < |plan| == |results|
  {
    Tried(plan, results, j) && results[j].Refused?
  }

  ghost predicate AnyTurnedAway(plan: seq<Attempt>, results: seq<Result>, n: nat)
    requires n <= |plan| == |results|
  {
    exists j :: 0 <= j < n && TurnedAwayAt(plan, results, j)
  }

  lemma CountGrows(errors: seq<Failure>, f: Failure)
    ensures CountRefusals(errors + [f]) == CountRefusals(errors) + if CountsAsRequestRefusal(f) then 1 else 0
  {
    assert (errors + [f])[..|errors|] == errors;
  }

  /** Until the walk ends, at most one tried attempt has refused the request. */
  lemma {:induction false} OneRefusalSoFar(plan: seq<Attempt>, results: seq<Result>, n: nat)
    requires n <= |plan| == |results| && GoesOnTo(plan, results, n)
    ensures CountRefusals(ErrorsAt(plan, results, n)) ==
            if AnyRefused(plan, results, n) then 1 else 0
  {
    hide CountRefusals, Tried;
    if n == 0 {
      NoErrors();
    } else {
      OneRefusalSoFar(plan, results, n - 1);
      assert !EndsAt(plan, results, n - 1);
      assert AnyRefused(plan, results, n) <==> AnyRefused(plan, results, n - 1) || RefusesAt(plan, results, n - 1);
      if FailsAt(plan, results, n - 1) {
        CountGrows(ErrorsAt(plan, results, n - 1), results[n - 1].failure);
      } else {
        assert ErrorsAt(plan, results, n) == ErrorsAt(plan, results, n - 1);
      }
    }
  }

  lemma NoErrors()
    ensures CountRefusals([]) == 0
  {
  }

  /** The endpoints the tried attempts before attempt `j` ran, in order. */
  ghost function RanAt(plan: seq<Attempt>, results: seq<Result>, j: nat): seq<EndpointId>
    requires j <= |plan| == |results|
  {
    if j == 0 then []
    else
      var r := results[j - 1];
      RanAt(plan, results, j - 1)
      + if Tried(plan, results, j - 1) && !r.Refused? && !r.Mismatch? then [r.ran] else []
  }

  /** The walk from attempt `j`, with what the attempts before it left. */
  ghost function RestOf(plan: seq<Attempt>, results: seq<Result>, j: nat): Course
    requires j <= |plan| == |results|
  {
    Follow(plan, results, j, ErrorsAt(plan, results, j), AnyTurnedAway(plan, results, j), KnownAt(plan, results, j))
  }

  lemma PassesOver(plan: seq<Attempt>, results: seq<Result>, j: nat)
    requires j < |plan| == |results| && !Tried(plan, results, j)
    ensures RestOf(plan, results, j) == RestOf(plan, results, j + 1)
    ensures RanAt(plan, results, j + 1) == RanAt(plan, results, j)
  {
    hide CountRefusals;
    assert AnyTurnedAway(plan, results, j + 1) <==> AnyTurnedAway(plan, results, j);
    assert ErrorsAt(plan, results, j + 1) == ErrorsAt(plan, results, j);
  }

  lemma IsTurnedAway(plan: seq<Attempt>, results: seq<Result>, j: nat)
    requires j < |plan| == |results| && TurnedAwayAt(plan, results, j)
    ensures RestOf(plan, results, j) == RestOf(plan, results, j + 1)
    ensures RanAt(plan, results, j + 1) == RanAt(plan, results, j)
  {
    hide CountRefusals;
    assert AnyTurnedAway(plan, results, j + 1);
    assert ErrorsAt(plan, results, j + 1) == ErrorsAt(plan, results, j);
  }

  lemma FailsAndGoesOn(plan: seq<Attempt>, results: seq<Result>, j: nat)
    requires j < |plan| == |results| && FailsAt(plan, results, j)
    requires CountRefusals(ErrorsAt(plan, results, j) + [results[j].failure]) < 2
    ensures var rest := RestOf(plan, results, j + 1);
            RestOf(plan, results, j) == Course(rest.outcome, [results[j].ran] + rest.ran)
    ensures RanAt(plan, results, j + 1) == RanAt(plan, results, j) + [results[j].ran]
  {
    hide CountRefusals;
    assert AnyTurnedAway(plan, results, j + 1) <==> AnyTurnedAway(plan, results, j);
  }

  /** The walk from its start is the walk from attempt `n`, while nothing before has ended it. */
  lemma {:induction false} WalkFrom(plan: seq<Attempt>, results: seq<Result>, n: nat)
    requires n <= |plan| == |results| && GoesOnTo(plan, results, n)
    ensures var rest := RestOf(plan, results, n);
            Follow(plan, results, 0, [], false, {}) == Course(rest.outcome, RanAt(plan, results, n) + rest.ran)
  {
    hide RestOf, CountRefusals, KnownAt, AnyRefused, ErrorsAt, RanAt;
    if n == 0 {
      WalkStarts(plan, results);
    } else {
      var j := n - 1;
      WalkFrom(plan, results, j);
      assert !EndsAt(plan, results, j);
      if !Tried(plan, results, j) {
        PassesOver(plan, results, j);
      } else if results[j].Refused? {
        IsTurnedAway(plan, results, j);
      } else {
        OneRefusalSoFar(plan, results, j);
        CountGrows(ErrorsAt(plan, results, j), results[j].failure);
        FailsAndGoesOn(plan, results, j);
        var rest := RestOf(plan, results, n).ran;
        var past, ran := RanAt(plan, results, j), [results[j].ran];
        assert past + (ran + rest) == (past + ran) + rest;
      }
    }
  }

  lemma WalkStarts(plan: seq<Attempt>, results: seq<Result>)
    requires |plan| == |results|
    ensures RestOf(plan, results, 0) == Follow(plan, results, 0, [], false, {}) && RanAt(plan, results, 0) == []
  {
    hide Follow;
  }

  /** A walk is decided by the first attempt that ends it. */
  lemma WalkEndsAtFirst(plan: seq<Attempt>, results: seq<Result>, n: nat)
    requires n < |plan| == |results| && GoesOnTo(plan, results, n) && EndsAt(plan, results, n)
    ensures Follow(plan, results, 0, [], false, {}) ==
            Course(match results[n]
                   case Answered(_) => Answer(n)
                   case Interrupted(_) => Cancelled
                   case Errored(failure, _, _) => Surface(Surfaced(ErrorsAt(plan, results, n) + [failure]), true)
                   case _ => MismatchError, RanAt(plan, results, n + 1))
  {
    hide CountRefusals, Surfaced, AnyRefused, KnownAt;
    WalkFrom(plan, results, n);
    OneRefusalSoFar(plan, results, n);
    if results[n].Errored? {
      CountGrows(ErrorsAt(plan, results, n), results[n].failure);
    }
  }

  /** And with none, by what the tried attempts failed with, or by having been turned away. */
  lemma WalkRunsOut(plan: seq<Attempt>, results: seq<Result>)
    requires |plan| == |results| && GoesOnTo(plan, results, |plan|)
    ensures var errors := ErrorsAt(plan, results, |plan|);
            Follow(plan, results, 0, [], false, {}) ==
            Course(if errors != [] then Surface(Surfaced(errors), false)
                   else if AnyTurnedAway(plan, results, |plan|) then FirstRefusal else NothingAttempted,
                   RanAt(plan, results, |plan|))
  {
    hide CountRefusals, Surfaced;
    WalkFrom(plan, results, |plan|);
  }
}

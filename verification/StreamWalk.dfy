/** Where a streamed walk of the hybrid plan ends, and all it sends, told attempt by attempt. */
module StreamWalk {
  import opened Options
  import opened Identifiers
  import opened Failures
  import opened HybridStream
  import Plan = HybridPlan

  /** The endpoints known to have run before attempt `j`: those that failed streams name. */
  ghost function KnownAt(plan: seq<Attempt>, streams: seq<Stream>, j: nat): set<EndpointId>
    requires j <= |plan| == |streams|
  {
    if j == 0 then {}
    else
      var known, attempt, ending := KnownAt(plan, streams, j - 1), plan[j - 1], streams[j - 1].ending;
      if !ending.Failed? || (attempt.endpoint.Some? && attempt.endpoint.value in known) then known
      else if ending.reported.Some? then known + {ending.reported.value}
      else if attempt.endpoint.Some? then known + {attempt.endpoint.value}
      else known
  }

  ghost predicate Tried(plan: seq<Attempt>, streams: seq<Stream>, j: nat)
    requires j < |plan| == |streams|
  {
    plan[j].endpoint.None? || plan[j].endpoint.value !in KnownAt(plan, streams, j)
  }

  ghost predicate Shows(stream: Stream) { VisibleContent(stream.chunks) != [] }

  /** What a tried attempt counts as having failed with; a stream that ends without a chunk failed too. */
  ghost function FailureOf(stream: Stream): Option<Failure> {
    match stream.ending
    case Failed(failure, _) => Some(failure)
    case Finished => if stream.chunks == [] then Some(Fault(None, false, None)) else None
    case _ => None
  }

  /** Attempt `j` is tried and calls the request malformed. */
  ghost predicate RefusesAt(plan: seq<Attempt>, streams: seq<Stream>, j: nat)
    requires j < |plan| == |streams|
  {
    Tried(plan, streams, j) && streams[j].ending.Failed? && CountsAsRequestRefusal(streams[j].ending.failure)
  }

  ghost predicate AnyRefused(plan: seq<Attempt>, streams: seq<Stream>, n: nat)
    requires n <= |plan| == |streams|
  {
    exists m :: 0 <= m < n && RefusesAt(plan, streams, m)
  }

  /** Attempt `j` ends the walk: it shows the client something, completes, is cancelled or mismatched, or is the second
      to refuse the request. */
  ghost predicate EndsAt(plan: seq<Attempt>, streams: seq<Stream>, j: nat)
    requires j < |plan| == |streams|
  {
    && Tried(plan, streams, j)
    && match streams[j].ending
       case Finished => streams[j].chunks != []
       case Failed(_, _) =>
         Shows(streams[j]) || (RefusesAt(plan, streams, j) && AnyRefused(plan, streams, j))
       case Unavailable => Shows(streams[j])
       case _ => true
  }

  ghost predicate GoesOnTo(plan: seq<Attempt>, streams: seq<Stream>, n: nat)
    requires n <= |plan| == |streams|
  {
    forall j :: 0 <= j < n ==> !EndsAt(plan, streams, j)
  }

  /** The failures of the tried attempts before attempt `j`, in order. */
  ghost function ErrorsAt(plan: seq<Attempt>, streams: seq<Stream>, j: nat): seq<Failure>
    requires j <= |plan| == |streams|
  {
    if j == 0 then []
    else
      var failure := FailureOf(streams[j - 1]);
      ErrorsAt(plan, streams, j - 1)
      + if Tried(plan, streams, j - 1) && failure.Some? then [failure.value] else []
  }

  /** Everything the tried attempts before attempt `j` send: each its own chunks under its own backend's name, after
      the number of attempts that failed before it. */
  ghost function SentBefore(plan: seq<Attempt>, streams: seq<Stream>, j: nat): seq<Chunk>
    requires j <= |plan| == |streams|
  {
    if j == 0 then []
    else
      SentBefore(plan, streams, j - 1)
      + if Tried(plan, streams, j - 1) then Sent(plan[j - 1], streams[j - 1], |ErrorsAt(plan, streams, j - 1)|) else []
  }

  lemma NoErrors()
    ensures CountRefusals([]) == 0
  {
  }

  /** Until the walk ends, at most one tried attempt has refused the request. */
  lemma {:induction false} OneRefusalSoFar(plan: seq<Attempt>, streams: seq<Stream>, n: nat)
    requires n <= |plan| == |streams| && GoesOnTo(plan, streams, n)
    ensures CountRefusals(ErrorsAt(plan, streams, n)) == if AnyRefused(plan, streams, n) then 1 else 0
  {
    hide CountRefusals, Tried, Shows;
    if n == 0 {
      NoErrors();
    } else {
      OneRefusalSoFar(plan, streams, n - 1);
      assert !EndsAt(plan, streams, n - 1);
      assert AnyRefused(plan, streams, n) <==> AnyRefused(plan, streams, n - 1) || RefusesAt(plan, streams, n - 1);
      var failure := FailureOf(streams[n - 1]);
      if Tried(plan, streams, n - 1) && failure.Some? {
        RefusalsGrow(ErrorsAt(plan, streams, n - 1), failure.value);
      } else {
        assert ErrorsAt(plan, streams, n) == ErrorsAt(plan, streams, n - 1);
      }
    }
  }

  ghost function ResolvedFrom(plan: seq<Attempt>, streams: seq<Stream>, j: nat): Outcome
    requires j <= |plan| == |streams|
  {
    Resolve(plan, streams, j, ErrorsAt(plan, streams, j), KnownAt(plan, streams, j))
  }

  ghost function SentFrom(plan: seq<Attempt>, streams: seq<Stream>, j: nat): seq<Chunk>
    requires j <= |plan| == |streams|
  {
    Emit(plan, streams, j, ErrorsAt(plan, streams, j), KnownAt(plan, streams, j))
  }

  /** One attempt that does not end the walk. */
  lemma OneAttempt(plan: seq<Attempt>, streams: seq<Stream>, j: nat)
    requires j < |plan| == |streams| && GoesOnTo(plan, streams, j + 1)
    ensures ResolvedFrom(plan, streams, j) == ResolvedFrom(plan, streams, j + 1)
    ensures SentBefore(plan, streams, j) + SentFrom(plan, streams, j) ==
            SentBefore(plan, streams, j + 1) + SentFrom(plan, streams, j + 1)
  {
    hide Resolve, Emit, Sent, CountRefusals, VisibleContent;
    var errors, known := ErrorsAt(plan, streams, j), KnownAt(plan, streams, j);
    assert !EndsAt(plan, streams, j);
    if !Tried(plan, streams, j) {
      SkipIs(plan, streams, j, errors, known);
      assert ErrorsAt(plan, streams, j + 1) == errors;
      assert SentBefore(plan, streams, j + 1) == SentBefore(plan, streams, j);
    } else {
      FinishedOrNot(plan, streams, j);
      GoesOnWith(plan, streams, j, errors, known, ErrorsAt(plan, streams, j + 1), KnownAt(plan, streams, j + 1),
                 SentBefore(plan, streams, j));
    }
  }

  lemma FinishedOrNot(plan: seq<Attempt>, streams: seq<Stream>, j: nat)
    requires j < |plan| == |streams| && GoesOnTo(plan, streams, j + 1) && Tried(plan, streams, j)
    ensures GoesOn(plan, streams, j, ErrorsAt(plan, streams, j), KnownAt(plan, streams, j),
                   ErrorsAt(plan, streams, j + 1), KnownAt(plan, streams, j + 1))
  {
    hide Resolve, Emit, Sent, CountRefusals, VisibleContent, GoesOn, AnyRefused;
    var errors, known := ErrorsAt(plan, streams, j), KnownAt(plan, streams, j);
    assert !EndsAt(plan, streams, j);
    if streams[j].ending.Finished? {
      FinishedIs(plan, streams, j, errors, known);
    } else if streams[j].ending.Failed? {
      OneRefusalSoFar(plan, streams, j);
      RefusalsGrow(errors, streams[j].ending.failure);
      FailedIs(plan, streams, j, errors, known);
    } else {
      assert ErrorsAt(plan, streams, j + 1) == errors;
      OtherwiseIs(plan, streams, j, errors, known);
    }
  }

  lemma {:induction false} WalkFrom(plan: seq<Attempt>, streams: seq<Stream>, n: nat)
    requires n <= |plan| == |streams| && GoesOnTo(plan, streams, n)
    ensures Resolve(plan, streams, 0, [], {}) == ResolvedFrom(plan, streams, n)
    ensures Emit(plan, streams, 0, [], {}) == SentBefore(plan, streams, n) + SentFrom(plan, streams, n)
  {
    hide Resolve, Emit, EndsAt, KnownAt;
    if n == 0 {
      WalkStarts(plan, streams);
    } else {
      WalkFrom(plan, streams, n - 1);
      OneAttempt(plan, streams, n - 1);
    }
  }

  lemma WalkStarts(plan: seq<Attempt>, streams: seq<Stream>)
    requires |plan| == |streams|
    ensures ErrorsAt(plan, streams, 0) == [] && KnownAt(plan, streams, 0) == {}
    ensures SentBefore(plan, streams, 0) + SentFrom(plan, streams, 0) == SentFrom(plan, streams, 0)
  {
    hide Resolve, Emit;
  }

  /** A streamed walk is decided by the first attempt that ends it, and sends everything up to that attempt's end. */
  lemma StreamEndsAtFirst(plan: seq<Attempt>, streams: seq<Stream>, n: nat)
    requires n < |plan| == |streams| && GoesOnTo(plan, streams, n) && EndsAt(plan, streams, n)
    ensures Resolve(plan, streams, 0, [], {}) ==
            match streams[n].ending
            case Finished => Served(n)
            case Cancelled => Disconnected
            case Mismatched => if Shows(streams[n]) then Broken(n) else CompositionError
            case _ => if Shows(streams[n]) then Broken(n) else AllFailed(true)
    ensures Emit(plan, streams, 0, [], {}) == SentBefore(plan, streams, n + 1)
  {
    hide Resolve, Emit, Sent, CountRefusals, VisibleContent, AnyRefused;
    var errors, known := ErrorsAt(plan, streams, n), KnownAt(plan, streams, n);
    WalkFrom(plan, streams, n);
    if streams[n].ending.Finished? {
      FinishedIs(plan, streams, n, errors, known);
    } else if streams[n].ending.Failed? {
      OneRefusalSoFar(plan, streams, n);
      RefusalsGrow(errors, streams[n].ending.failure);
      FailedIs(plan, streams, n, errors, known);
    } else {
      OtherwiseIs(plan, streams, n, errors, known);
    }
  }

  /** And with none, everything failed. */
  lemma StreamRunsOut(plan: seq<Attempt>, streams: seq<Stream>)
    requires |plan| == |streams| && GoesOnTo(plan, streams, |plan|)
    ensures Resolve(plan, streams, 0, [], {}) == AllFailed(false)
    ensures Emit(plan, streams, 0, [], {}) == SentBefore(plan, streams, |plan|)
  {
    hide Resolve, Emit, EndsAt;
    WalkFrom(plan, streams, |plan|);
    RunsOut(plan, streams, ErrorsAt(plan, streams, |plan|), KnownAt(plan, streams, |plan|));
    assert SentBefore(plan, streams, |plan|) + [] == SentBefore(plan, streams, |plan|);
  }
}

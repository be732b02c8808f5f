/** SSE frames as the hybrid layer sees them, and the stream it forwards across planned attempts. */
module HybridStream {
  import opened Options
  import opened Identifiers
  import opened Failures
  import Plan = HybridPlan

  type BackendName = Plan.Domain
  type Attempt = Plan.Attempt

  /** A frame's `_routing` entry. */
  datatype Routing = NoRouting | NotAnObject | Routed(backend: Option<BackendName>, metadata: nat)

  /** A chunk. `id` stands for everything in it that is not routing metadata.
      `NotData`: not a string, or not a `data:` frame. `Unkeyed`: a `data:` frame whose text lacks the routing
      key. `Unparsed`: the text has the key but is no JSON object. `Frame`: a parsed object. */
  datatype Chunk =
    | NotData(id: nat)
    | Unkeyed(id: nat)
    | Unparsed(id: nat)
    | Frame(id: nat, routing: Routing, choices: bool, usage: bool)

  predicate Visible(c: Chunk) {
    !c.Frame? || c.routing.NoRouting? || c.choices || c.usage
  }

  /** Record the serving backend in an existing routing object that names none. */
  function TagBackend(c: Chunk, backend: BackendName): Chunk {
    if c.Frame? && c.routing.Routed? && c.routing.backend.None?
    then c.(routing := c.routing.(backend := Some(backend)))
    else c
  }

  /** What the client gets of a chunk: everything but the routing metadata. */
  function Content(c: Chunk): Chunk {
    if c.Frame? then c.(routing := NoRouting) else c
  }

  function VisibleContent(cs: seq<Chunk>): seq<Chunk> {
    if cs == [] then []
    else VisibleContent(cs[..|cs| - 1]) + if Visible(cs[|cs| - 1]) then [Content(cs[|cs| - 1])] else []
  }

  function HistoryChunk(attempts: nat): Chunk {
    Frame(attempts, Routed(None, attempts), false, false)
  }

  function Tagged(cs: seq<Chunk>, backend: BackendName): (r: seq<Chunk>)
    ensures |r| == |cs| && forall i :: 0 <= i < |cs| ==> r[i] == TagBackend(cs[i], backend)
  {
    seq(|cs|, i requires 0 <= i < |cs| => TagBackend(cs[i], backend))
  }

  /** The first `n` of `cs`, or all when there are no more. */
  function Upto(cs: seq<Chunk>, n: nat): seq<Chunk> { if |cs| <= n then cs else cs[..n] }

  /** How a backend's stream ends once its chunks are spent. */
  datatype Ending =
    | Finished
    | Failed(failure: Failure, reported: Option<EndpointId>)
    | Unavailable
    | Mismatched
    | Cancelled

  datatype Stream = Stream(chunks: seq<Chunk>, ending: Ending)

  /** `AllFailed` says whether a second refusal stopped the walk early. */
  datatype Outcome =
    | Served(attempt: nat)
    | Broken(attempt: nat)
    | AllFailed(stopped: bool)
    | CompositionError
    | Disconnected

  predicate Skipped(attempt: Attempt, dispatched: set<EndpointId>) {
    attempt.endpoint.Some? && attempt.endpoint.value in dispatched
  }

  /** How the plan from attempt `i` on ends for a client that never leaves. */
  ghost function Resolve(plan: seq<Attempt>, streams: seq<Stream>, i: nat, errors: seq<Failure>,
                         dispatched: set<EndpointId>): Outcome
    requires |plan| == |streams| && i <= |plan|
    decreases |plan| - i
  {
    if i == |plan| then AllFailed(false)
    else if Skipped(plan[i], dispatched) then Resolve(plan, streams, i + 1, errors, dispatched)
    else
      var shown := VisibleContent(streams[i].chunks) != [];
      match streams[i].ending
      case Finished =>
        if streams[i].chunks != [] then Served(i)
        else Resolve(plan, streams, i + 1, errors + [Fault(None, false, None)], dispatched)
      case Failed(failure, reported) =>
        if shown then Broken(i)
        else if CountRefusals(errors + [failure]) >= 2 then AllFailed(true)
        else Resolve(plan, streams, i + 1, errors + [failure], Plan.Remembered(dispatched, plan[i], reported))
      case Unavailable => if shown then Broken(i) else Resolve(plan, streams, i + 1, errors, dispatched)
      case Mismatched => if shown then Broken(i) else CompositionError
      case Cancelled => Disconnected
  }

  /** What an attempt sends a client that never leaves: after failed attempts their count first, and nothing at all of
      a stream without chunks. */
  function Sent(attempt: Attempt, stream: Stream, failed: nat): seq<Chunk> {
    if stream.chunks == [] then []
    else (if failed == 0 then [] else [HistoryChunk(failed)]) + Tagged(stream.chunks, attempt.domain)
  }

  /** What the plan from attempt `i` on sends a client that never leaves. */
  ghost function Emit(plan: seq<Attempt>, streams: seq<Stream>, i: nat, errors: seq<Failure>,
                      dispatched: set<EndpointId>): seq<Chunk>
    requires |plan| == |streams| && i <= |plan|
    decreases |plan| - i
  {
    if i == |plan| then []
    else if Skipped(plan[i], dispatched) then Emit(plan, streams, i + 1, errors, dispatched)
    else
      var shown := VisibleContent(streams[i].chunks) != [];
      Sent(plan[i], streams[i], |errors|)
      + match streams[i].ending
        case Finished =>
          if streams[i].chunks != [] then []
          else Emit(plan, streams, i + 1, errors + [Fault(None, false, None)], dispatched)
        case Failed(failure, reported) =>
          if shown || CountRefusals(errors + [failure]) >= 2 then []
          else
            Emit(plan, streams, i + 1, errors + [failure], Plan.Remembered(dispatched, plan[i], reported))
        case Unavailable => if shown then [] else Emit(plan, streams, i + 1, errors, dispatched)
        case Mismatched => []
        case Cancelled => []
  }

  /** Attempt `j`'s endpoint was known to have run: it was in `dispatched`, or attempt `m` failed on it. */
  ghost predicate AlreadyRan(plan: seq<Attempt>, streams: seq<Stream>, i: nat, dispatched: set<EndpointId>, j: nat)
    requires |plan| == |streams| && j < |plan|
  {
    && plan[j].endpoint.Some?
    && (|| plan[j].endpoint.value in dispatched
        || exists m :: i <= m < j && streams[m].ending.Failed?
                       && plan[j].endpoint.value in Plan.Remembered({}, plan[m], streams[m].ending.reported))
  }

  /** The attempt that answers is the first that shows the client anything: every earlier one showed nothing,
      or was passed over because its endpoint had already run. */
  lemma {:induction false} FirstVisibleAttemptAnswers(plan: seq<Attempt>, streams: seq<Stream>, i: nat,
                                                      errors: seq<Failure>,
                                                      dispatched: set<EndpointId>, j: nat)
    requires |plan| == |streams| && i <= j < |plan|
    requires var r := Resolve(plan, streams, i, errors, dispatched); (r.Served? || r.Broken?) && j < r.attempt
    ensures VisibleContent(streams[j].chunks) == [] || AlreadyRan(plan, streams, i, dispatched, j)
    decreases |plan| - i
  {
    if i == j {
      return;
    }
    if Skipped(plan[i], dispatched) {
      FirstVisibleAttemptAnswers(plan, streams, i + 1, errors, dispatched, j);
    } else {
      match streams[i].ending
      case Finished =>
        FirstVisibleAttemptAnswers(plan, streams, i + 1, errors + [Fault(None, false, None)], dispatched, j);
      case Failed(failure, reported) =>
        FirstVisibleAttemptAnswers(plan, streams, i + 1, errors + [failure],
                                   Plan.Remembered(dispatched, plan[i], reported), j);
      case Unavailable =>
        FirstVisibleAttemptAnswers(plan, streams, i + 1, errors, dispatched, j);
      case _ =>
    }
  }

  /** Attempt `j` alone would have answered: it shows the client something, or completes. */
  predicate WouldAnswer(stream: Stream) {
    VisibleContent(stream.chunks) != [] || (stream.ending.Finished? && stream.chunks != [])
  }

  /** A walk that fails without an early stop has tried every attempt: one that would have answered is passed over only
      because its endpoint had already run. */
  lemma {:induction false} FailureExhaustsStreams(plan: seq<Attempt>, streams: seq<Stream>, i: nat,
                                                  errors: seq<Failure>, dispatched: set<EndpointId>, j: nat)
    requires |plan| == |streams| && i <= j < |plan| && WouldAnswer(streams[j])
    requires Resolve(plan, streams, i, errors, dispatched) == AllFailed(false)
    ensures AlreadyRan(plan, streams, i, dispatched, j)
    decreases |plan| - i
  {
    hide VisibleContent, CountRefusals;
    if i == j {
      InvisibleHasNoContent([]);
      return;
    }
    if Skipped(plan[i], dispatched) {
      FailureExhaustsStreams(plan, streams, i + 1, errors, dispatched, j);
    } else {
      match streams[i].ending
      case Finished => FailureExhaustsStreams(plan, streams, i + 1, errors + [Fault(None, false, None)], dispatched, j);
      case Failed(failure, reported) =>
        FailureExhaustsStreams(plan, streams, i + 1, errors + [failure],
                               Plan.Remembered(dispatched, plan[i], reported), j);
      case Unavailable => FailureExhaustsStreams(plan, streams, i + 1, errors, dispatched, j);
      case _ =>
    }
  }

  /** Attempt `k` failed, calling the request malformed. */
  ghost predicate Refuses(streams: seq<Stream>, k: nat)
    requires k < |streams|
  {
    streams[k].ending.Failed? && CountsAsRequestRefusal(streams[k].ending.failure)
  }

  lemma RefusalsGrow(errors: seq<Failure>, f: Failure)
    ensures CountRefusals(errors + [f]) == CountRefusals(errors) + if CountsAsRequestRefusal(f) then 1 else 0
  {
    assert (errors + [f])[..|errors|] == errors;
  }

  lemma {:induction false} StopNeedsRefusal(plan: seq<Attempt>, streams: seq<Stream>, i: nat, errors: seq<Failure>,
                                            dispatched: set<EndpointId>)
    returns (j: nat, k: nat)
    requires |plan| == |streams| && i <= |plan| && CountRefusals(errors) < 2
    requires Resolve(plan, streams, i, errors, dispatched) == AllFailed(true)
    ensures i <= k < |plan| && Refuses(streams, k)
    ensures CountRefusals(errors) == 0 ==> i <= j < k && Refuses(streams, j)
    decreases |plan| - i
  {
    hide VisibleContent, CountRefusals;
    if Skipped(plan[i], dispatched) {
      j, k := StopNeedsRefusal(plan, streams, i + 1, errors, dispatched);
    } else {
      j, k := i, i;
      match streams[i].ending
      case Finished =>
        RefusalsGrow(errors, Fault(None, false, None));
        j, k := StopNeedsRefusal(plan, streams, i + 1, errors + [Fault(None, false, None)], dispatched);
      case Failed(failure, reported) =>
        RefusalsGrow(errors, failure);
        if CountRefusals(errors + [failure]) < 2 {
          j, k := StopNeedsRefusal(plan, streams, i + 1, errors + [failure],
                                   Plan.Remembered(dispatched, plan[i], reported));
          j := if CountsAsRequestRefusal(failure) then i else j;
        }
      case Unavailable => j, k := StopNeedsRefusal(plan, streams, i + 1, errors, dispatched);
      case _ =>
    }
  }

  /** The early stop is for two attempts that both called the request malformed. */
  lemma StopMeansTwoRefusals(plan: seq<Attempt>, streams: seq<Stream>)
    requires |plan| == |streams| && Resolve(plan, streams, 0, [], {}) == AllFailed(true)
    ensures exists j, k :: 0 <= j < k < |plan| && Refuses(streams, j) && Refuses(streams, k)
  {
    var j, k := StopNeedsRefusal(plan, streams, 0, [], {});
  }

  /** What the client saw is nothing, or a prefix of what one stream alone would have shown it. */
  ghost predicate OneAnswer(seen: seq<Chunk>, streams: seq<Stream>) {
    seen == [] || exists k :: 0 <= k < |streams| && seen <= VisibleContent(streams[k].chunks)
  }

  /** One attempt's part of the stream: what is forwarded until it ends, breaks or the client leaves. */
  method Forward(stream: Stream, backend: BackendName, history: seq<Chunk>, room: nat)
    returns (forwarded: seq<Chunk>, committed: bool, left: bool)
    requires stream.chunks != [] && 0 < room && forall c :: c in history ==> !Visible(c)
    ensures |forwarded| <= room && (left <==> |forwarded| == room)
    ensures VisibleContent(forwarded) <= VisibleContent(stream.chunks)
    ensures !left ==> VisibleContent(forwarded) == VisibleContent(stream.chunks)
    ensures committed <==> VisibleContent(forwarded) != []
    ensures forwarded == Upto(history + Tagged(stream.chunks, backend), room)
  {
    hide VisibleContent, TagBackend, Content, Visible, Tagged;
    ghost var whole := history + Tagged(stream.chunks, backend);
    forwarded, committed := history[..if |history| <= room then |history| else room], false;
    InvisibleHasNoContent(forwarded);
    InvisibleHasNoContent(stream.chunks[..0]);
    if |forwarded| == room {
      left := true;
      return;
    }
    for i := 0 to |stream.chunks|
      invariant |forwarded| < room
      invariant VisibleContent(forwarded) == VisibleContent(stream.chunks[..i])
      invariant committed <==> VisibleContent(forwarded) != []
      invariant |forwarded| == |history| + i && forwarded == whole[..|forwarded|]
    {
      var chunk := stream.chunks[i];
      committed := committed || Visible(chunk);
      forwarded := forwarded + [TagBackend(chunk, backend)];
      TagKeepsContent(chunk, backend);
      ContentGrows(forwarded[..|forwarded| - 1], TagBackend(chunk, backend));
      ContentGrows(stream.chunks[..i], chunk);
      assert stream.chunks[..i] + [chunk] == stream.chunks[..i + 1];
      assert forwarded[..|forwarded| - 1] + [TagBackend(chunk, backend)] == forwarded;
      if |forwarded| == room {
        ContentOfPrefix(stream.chunks, i + 1);
        left := true;
        return;
      }
    }
    assert stream.chunks[..|stream.chunks|] == stream.chunks;
    left := false;
  }

  /** From attempt `i` the walk sends that attempt's part and goes on with these errors and endpoints. */
  ghost predicate GoesOn(plan: seq<Attempt>, streams: seq<Stream>, i: nat, errors: seq<Failure>,
                         dispatched: set<EndpointId>, after: seq<Failure>, known: set<EndpointId>)
    requires i < |plan| == |streams|
  {
    && Resolve(plan, streams, i, errors, dispatched) == Resolve(plan, streams, i + 1, after, known)
    && Emit(plan, streams, i, errors, dispatched) ==
       Sent(plan[i], streams[i], |errors|) + Emit(plan, streams, i + 1, after, known)
  }

  /** At attempt `i` the walk ends, with nothing but that attempt's part sent. */
  ghost predicate Stops(plan: seq<Attempt>, streams: seq<Stream>, i: nat, errors: seq<Failure>,
                        dispatched: set<EndpointId>, outcome: Outcome)
    requires i < |plan| == |streams|
  {
    && Resolve(plan, streams, i, errors, dispatched) == outcome
    && Emit(plan, streams, i, errors, dispatched) == Sent(plan[i], streams[i], |errors|)
  }

  lemma FinishedIs(plan: seq<Attempt>, streams: seq<Stream>, i: nat, errors: seq<Failure>, dispatched: set<EndpointId>)
    requires i < |plan| == |streams| && !Skipped(plan[i], dispatched) && streams[i].ending.Finished?
    ensures if streams[i].chunks != [] then Stops(plan, streams, i, errors, dispatched, Served(i))
            else GoesOn(plan, streams, i, errors, dispatched, errors + [Fault(None, false, None)], dispatched)
  {
    hide Sent, VisibleContent, CountRefusals;
  }

  lemma FailedIs(plan: seq<Attempt>, streams: seq<Stream>, i: nat, errors: seq<Failure>, dispatched: set<EndpointId>)
    requires i < |plan| == |streams| && !Skipped(plan[i], dispatched) && streams[i].ending.Failed?
    ensures var f, known := streams[i].ending.failure,
                            Plan.Remembered(dispatched, plan[i], streams[i].ending.reported);
            if VisibleContent(streams[i].chunks) != [] then Stops(plan, streams, i, errors, dispatched, Broken(i))
            else if CountRefusals(errors + [f]) >= 2 then Stops(plan, streams, i, errors, dispatched, AllFailed(true))
            else GoesOn(plan, streams, i, errors, dispatched, errors + [f], known)
  {
    hide Sent, VisibleContent, CountRefusals;
  }

  lemma OtherwiseIs(plan: seq<Attempt>, streams: seq<Stream>, i: nat, errors: seq<Failure>,
                    dispatched: set<EndpointId>)
    requires i < |plan| == |streams| && !Skipped(plan[i], dispatched)
    ensures var shown := VisibleContent(streams[i].chunks) != [];
            match streams[i].ending
            case Unavailable =>
              if shown then Stops(plan, streams, i, errors, dispatched, Broken(i))
              else GoesOn(plan, streams, i, errors, dispatched, errors, dispatched)
            case Mismatched =>
              Stops(plan, streams, i, errors, dispatched, if shown then Broken(i) else CompositionError)
            case Cancelled => Stops(plan, streams, i, errors, dispatched, Disconnected)
            case _ => true
  {
    hide Sent, VisibleContent, CountRefusals;
  }

  lemma SkipIs(plan: seq<Attempt>, streams: seq<Stream>, i: nat, errors: seq<Failure>, dispatched: set<EndpointId>)
    requires i < |plan| == |streams| && Skipped(plan[i], dispatched)
    ensures Resolve(plan, streams, i, errors, dispatched) == Resolve(plan, streams, i + 1, errors, dispatched)
    ensures Emit(plan, streams, i, errors, dispatched) == Emit(plan, streams, i + 1, errors, dispatched)
  {
  }

  /** The part of attempt `i` that goes out to a client with room for so many more chunks. */
  method Attend(attempt: Attempt, stream: Stream, failed: nat, room: nat)
    returns (sent: seq<Chunk>, committed: bool, left: bool)
    requires 0 < room
    ensures sent == Upto(Sent(attempt, stream, failed), room) && (left <==> |sent| == room)
    ensures VisibleContent(sent) <= VisibleContent(stream.chunks)
    ensures !left ==> VisibleContent(sent) == VisibleContent(stream.chunks)
    ensures committed <==> VisibleContent(sent) != []
  {
    hide VisibleContent, Tagged;
    InvisibleHasNoContent([]);
    if stream.chunks == [] { return [], false, false; }
    var history := if failed == 0 then [] else [HistoryChunk(failed)];
    sent, committed, left := Forward(stream, attempt.domain, history, room);
  }

  lemma UptoGrows(before: seq<Chunk>, sent: seq<Chunk>, room: nat)
    requires |before| < room
    ensures before + Upto(sent, room - |before|) == Upto(before + sent, room)
    ensures |Upto(sent, room - |before|)| == room - |before| ==>
              forall rest :: Upto(before + (sent + rest), room) == before + Upto(sent, room - |before|)
  {
    if |Upto(sent, room - |before|)| == room - |before| {
      forall rest: seq<Chunk> ensures Upto(before + (sent + rest), room) == before + Upto(sent, room - |before|) {
        assert before + (sent + rest) == (before + sent) + rest;
      }
    }
  }

  /** Forward the first attempt the client can see, else try the next candidate. `room` is how many chunks
      the client takes before it goes away. */
  method FallbackStream(plan: seq<Attempt>, streams: seq<Stream>, room: nat)
    returns (emitted: seq<Chunk>, outcome: Outcome)
    requires |plan| == |streams|
    ensures |emitted| <= room
    ensures OneAnswer(VisibleContent(emitted), streams)
    ensures outcome.Served? || outcome.Broken? ==>
              outcome.attempt < |plan| && VisibleContent(emitted) == VisibleContent(streams[outcome.attempt].chunks)
    ensures outcome.Broken? ==> VisibleContent(emitted) != []
    ensures outcome.AllFailed? || outcome == CompositionError ==> VisibleContent(emitted) == []
    ensures outcome == Resolve(plan, streams, 0, [], {}) || (outcome == Disconnected && |emitted| == room)
    ensures emitted == Upto(Emit(plan, streams, 0, [], {}), room)
  {
    hide VisibleContent, CountRefusals, Sent, Resolve, Emit, GoesOn, Stops;
    InvisibleHasNoContent([]);
    emitted := [];
    var errors: seq<Failure> := [];
    var dispatched: set<EndpointId> := {};
    if room == 0 { return emitted, Disconnected; }
    for i := 0 to |plan|
      invariant |emitted| < room && VisibleContent(emitted) == []
      invariant Resolve(plan, streams, i, errors, dispatched) == Resolve(plan, streams, 0, [], {})
      invariant emitted + Emit(plan, streams, i, errors, dispatched) == Emit(plan, streams, 0, [], {})
    {
      var attempt, stream := plan[i], streams[i];
      if attempt.endpoint.Some? && attempt.endpoint.value in dispatched {
        SkipIs(plan, streams, i, errors, dispatched);
        continue;
      }
      ghost var before := emitted;
      var sent, committed, left := Attend(attempt, stream, |errors|, room - |emitted|);
      InvisibleThen(emitted, sent);
      UptoGrows(emitted, Sent(attempt, stream, |errors|), room);
      emitted := emitted + sent;
      if left {
        EmitBeginsWithSent(plan, streams, i, errors, dispatched);
        return emitted, Disconnected;
      }
      match stream.ending {
        case Finished =>
          FinishedIs(plan, streams, i, errors, dispatched);
          if stream.chunks != [] {
            StopsWith(plan, streams, i, errors, dispatched, Served(i), before, emitted, room);
            return emitted, Served(i);
          }
          GoesOnWith(plan, streams, i, errors, dispatched, errors + [Fault(None, false, None)], dispatched, before);
          errors := errors + [Fault(None, false, None)];
        case Failed(failure, reported) =>
          FailedIs(plan, streams, i, errors, dispatched);
          if committed {
            StopsWith(plan, streams, i, errors, dispatched, Broken(i), before, emitted, room);
            return emitted, Broken(i);
          }
          if CountRefusals(errors + [failure]) >= 2 {
            StopsWith(plan, streams, i, errors, dispatched, AllFailed(true), before, emitted, room);
            return emitted, AllFailed(true);
          }
          GoesOnWith(plan, streams, i, errors, dispatched, errors + [failure],
                     Plan.Remembered(dispatched, attempt, reported), before);
          errors, dispatched := errors + [failure], Plan.Remembered(dispatched, attempt, reported);
        case Unavailable =>
          OtherwiseIs(plan, streams, i, errors, dispatched);
          if committed {
            StopsWith(plan, streams, i, errors, dispatched, Broken(i), before, emitted, room);
            return emitted, Broken(i);
          }
          GoesOnWith(plan, streams, i, errors, dispatched, errors, dispatched, before);
        case Mismatched =>
          OtherwiseIs(plan, streams, i, errors, dispatched);
          outcome := if committed then Broken(i) else CompositionError;
          StopsWith(plan, streams, i, errors, dispatched, outcome, before, emitted, room);
          return;
        case Cancelled =>
          OtherwiseIs(plan, streams, i, errors, dispatched);
          StopsWith(plan, streams, i, errors, dispatched, Disconnected, before, emitted, room);
          return emitted, Disconnected;
      }
    }
    outcome := AllFailed(false);
    RunsOut(plan, streams, errors, dispatched);
    assert emitted + [] == emitted;
  }

  lemma RunsOut(plan: seq<Attempt>, streams: seq<Stream>, errors: seq<Failure>, dispatched: set<EndpointId>)
    requires |plan| == |streams|
    ensures Resolve(plan, streams, |plan|, errors, dispatched) == AllFailed(false)
    ensures Emit(plan, streams, |plan|, errors, dispatched) == []
  {
  }

  /** Whatever comes of an attempt that is not skipped, its part is sent first. */
  lemma EmitBeginsWithSent(plan: seq<Attempt>, streams: seq<Stream>, i: nat, errors: seq<Failure>,
                           dispatched: set<EndpointId>)
    requires i < |plan| == |streams| && !Skipped(plan[i], dispatched)
    ensures exists rest :: Emit(plan, streams, i, errors, dispatched) == Sent(plan[i], streams[i], |errors|) + rest
  {
    hide Sent, Resolve;
    var sent := Sent(plan[i], streams[i], |errors|);
    assert sent + [] == sent;
  }

  lemma StopsWith(plan: seq<Attempt>, streams: seq<Stream>, i: nat, errors: seq<Failure>, dispatched: set<EndpointId>,
                  outcome: Outcome, before: seq<Chunk>, emitted: seq<Chunk>, room: nat)
    requires i < |plan| == |streams| && Stops(plan, streams, i, errors, dispatched, outcome)
    requires emitted == Upto(before + Sent(plan[i], streams[i], |errors|), room) && |emitted| < room
    ensures Resolve(plan, streams, i, errors, dispatched) == outcome
    ensures emitted == Upto(before + Emit(plan, streams, i, errors, dispatched), room)
  {
  }

  lemma GoesOnWith(plan: seq<Attempt>, streams: seq<Stream>, i: nat, errors: seq<Failure>, dispatched: set<EndpointId>,
                   after: seq<Failure>, known: set<EndpointId>, before: seq<Chunk>)
    requires i < |plan| == |streams| && GoesOn(plan, streams, i, errors, dispatched, after, known)
    ensures Resolve(plan, streams, i, errors, dispatched) == Resolve(plan, streams, i + 1, after, known)
    ensures before + Emit(plan, streams, i, errors, dispatched) ==
            (before + Sent(plan[i], streams[i], |errors|)) + Emit(plan, streams, i + 1, after, known)
  {
    Regroup(before, Sent(plan[i], streams[i], |errors|), Emit(plan, streams, i + 1, after, known));
  }

  lemma Regroup(a: seq<Chunk>, b: seq<Chunk>, c: seq<Chunk>)
    ensures (a + b) + c == a + (b + c)
  {
  }

  // ----- frames

  /** The client sees a chunk unless it is a routing frame that carries neither choices nor usage. */
  lemma VisibleIff(c: Chunk)
    ensures !Visible(c) <==> exists id, routing :: c == Frame(id, routing, false, false) && !routing.NoRouting?
  {
    if c.Frame? {
      assert c == Frame(c.id, c.routing, c.choices, c.usage);
    }
  }

  /** A routing entry names a backend once tagged, the first one to serve it; no other chunk changes. */
  lemma TagNamesBackend(c: Chunk, backend: BackendName)
    ensures var tagged := TagBackend(c, backend);
            if c.Frame? && c.routing.Routed? then
              var first := if c.routing.backend.Some? then c.routing.backend.value else backend;
              tagged == Frame(c.id, Routed(Some(first), c.routing.metadata), c.choices, c.usage)
            else tagged == c
  {
  }

  /** The attempt history is a routing frame with the number of failed attempts, which no client sees. */
  lemma HistoryIsInvisible(attempts: nat)
    ensures var c := HistoryChunk(attempts);
            !Visible(c) && c.Frame? && c.routing.Routed? && c.routing.metadata == attempts
  {
  }

  lemma TagKeepsContent(c: Chunk, backend: BackendName)
    ensures Visible(TagBackend(c, backend)) == Visible(c) && Content(TagBackend(c, backend)) == Content(c)
  {
  }

  lemma ContentGrows(cs: seq<Chunk>, c: Chunk)
    ensures VisibleContent(cs + [c]) == VisibleContent(cs) + if Visible(c) then [Content(c)] else []
  {
    assert (cs + [c])[..|cs|] == cs;
  }

  lemma {:induction false} ContentAppend(a: seq<Chunk>, b: seq<Chunk>)
    ensures VisibleContent(a + b) == VisibleContent(a) + VisibleContent(b)
  {
    if b == [] {
      assert a + b == a;
    } else {
      var n := |b| - 1;
      ContentAppend(a, b[..n]);
      assert b == b[..n] + [b[n]];
      assert a + b == (a + b[..n]) + [b[n]];
      ContentGrows(b[..n], b[n]);
      ContentGrows(a + b[..n], b[n]);
    }
  }

  lemma ContentOfPrefix(cs: seq<Chunk>, n: nat)
    requires n <= |cs|
    ensures VisibleContent(cs[..n]) <= VisibleContent(cs)
  {
    assert cs == cs[..n] + cs[n..];
    ContentAppend(cs[..n], cs[n..]);
  }

  lemma {:induction false} InvisibleHasNoContent(cs: seq<Chunk>)
    requires forall c :: c in cs ==> !Visible(c)
    ensures VisibleContent(cs) == []
  {
    if cs != [] {
      InvisibleHasNoContent(cs[..|cs| - 1]);
      assert cs[|cs| - 1] in cs;
    }
  }

  lemma InvisibleThen(a: seq<Chunk>, b: seq<Chunk>)
    requires VisibleContent(a) == []
    ensures VisibleContent(a + b) == VisibleContent(b)
  {
    ContentAppend(a, b);
  }
}

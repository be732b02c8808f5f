/** One upstream attempt, whole or streamed, while other requests move, and what it owes afterwards. */
module Attempts {
  import opened Options
  import opened Identifiers
  import opened Failures
  import opened CircuitBreaker
  import opened EndpointHealth
  import opened Gateway
  import PR = PrefillRuns

  /** A streamed chunk: whether it carries output, its buffered size, and the rest of it. */
  datatype Chunk = Chunk(content: bool, size: nat, body: nat)

  /** How an upstream call ends. `Interrupted` is a cancellation while waiting for it. */
  datatype Ending = Finished | Raised(failure: Failure) | Interrupted

  /** Everything one upstream call does. `others(i)` is what other requests do while chunk `i`, or the end
      after the last chunk, is awaited; `announcing` while the routing chunk is out; `leaving` while the
      client goes away at a chunk it was handed. A whole response has no chunks. */
  datatype Feed = Feed(
    chunks: seq<Chunk>,
    ending: Ending,
    others: nat -> seq<TimedAction>,
    clock: nat -> Clock,
    announcing: seq<TimedAction>,
    leaving: seq<TimedAction>)

  datatype Result = Completed | Broke(failure: Failure) | Gone

  function Concluded(ending: Ending): Result {
    match ending
    case Finished => Completed
    case Raised(f) => Broke(f)
    case Interrupted => Gone
  }

  /** How this deployment pages about a failure. */
  datatype Paging = Paging(policy: Policy, scheduled: bool)

  function Charge(s: Settings, w: World, e: EndpointId, f: Failure, paging: Paging, clock: Clock): World {
    ScoreDown(s, w, e, f, paging.policy, clock, paging.scheduled)
  }

  lemma ReleaseEvolves(s: Settings, w0: World, w: World, lease: nat, now: real, confirmed: bool)
    requires Evolves(s, w0, w)
    ensures Evolves(s, w0, ReleaseAt(s, w, lease, now, confirmed))
    ensures Granted(w, lease) ==> GivenBack(ReleaseAt(s, w, lease, now, confirmed), lease)
  {
    EvolvesOn(s, w0, w, Releasing(lease, now, confirmed));
  }

  // ----- a whole response

  /** Attempt `n` waits for the response, gives its lease back however the wait ends, then scores the endpoint. */
  function AfterWhole(s: Settings, w: World, n: nat, e: EndpointId, lease: nat, feed: Feed, paging: Paging): World {
    var answered := Suspend(s, w, Some(n), feed.others(0));
    var released := ReleaseAt(s, answered, lease, feed.clock(0).mono, feed.ending.Finished?);
    match feed.ending
    case Finished => ScoreUp(s, released, e)
    case Raised(f) => Charge(s, released, e, f, paging, feed.clock(0))
    case Interrupted => released
  }

  /** What that is in deeds: prefill is confirmed exactly for a returned response. */
  function WholeDeeds(n: nat, e: EndpointId, lease: nat, feed: Feed): seq<Deed> {
    [Waited(Some(n), feed.others(0)), Freed(lease, feed.clock(0).mono, feed.ending.Finished?)]
    + match feed.ending
      case Finished => [ReportedUp(e)]
      case Raised(f) => [ReportedDown(e, f, feed.clock(0))]
      case Interrupted => []
  }

  lemma WholeEvolves(s: Settings, w: World, n: nat, e: EndpointId, lease: nat, feed: Feed, paging: Paging)
    requires Granted(w, lease)
    ensures var after := AfterWhole(s, w, n, e, lease, feed, paging);
            Evolves(s, w, after) && GivenBack(after, lease) && after.mine == w.mine + WholeDeeds(n, e, lease, feed)
  {
    hide Evolves, SucceedAt, FailAt, Interfere;
    var answered := Suspend(s, w, Some(n), feed.others(0));
    InterferenceEvolves(s, w, Some(n), feed.others(0));
    EvolvesKeeps(s, w, answered);
    var released := ReleaseAt(s, answered, lease, feed.clock(0).mono, feed.ending.Finished?);
    ReleaseEvolves(s, w, answered, lease, feed.clock(0).mono, feed.ending.Finished?);
    ScoringKeepsLeases(s, released, e, feed, paging, lease);
    match feed.ending
    case Finished => EvolvesOn(s, w, released, ReportingUp(e));
    case Raised(f) => EvolvesOn(s, w, released, ReportingDown(e, f, paging.policy, feed.clock(0), paging.scheduled));
    case Interrupted =>
  }

  lemma ScoringKeepsLeases(s: Settings, w: World, e: EndpointId, feed: Feed, paging: Paging, lease: nat)
    requires GivenBack(w, lease)
    ensures GivenBack(ScoreUp(s, w, e), lease)
    ensures feed.ending.Raised? ==> GivenBack(Charge(s, w, e, feed.ending.failure, paging, feed.clock(0)), lease)
  {
  }

  // ----- a streamed response

  const HOLD_LIMIT: nat := 1000000

  predicate NoContent(cs: seq<Chunk>) { forall c :: c in cs ==> !c.content }

  function TotalSize(cs: seq<Chunk>): nat {
    if cs == [] then 0 else TotalSize(cs[..|cs| - 1]) + cs[|cs| - 1].size
  }

  /** A watched attempt can keep all of `cs` back: no output in it, and less than the buffer's limit. */
  ghost predicate Holdable(cs: seq<Chunk>) { NoContent(cs) && (cs == [] || TotalSize(cs) < HOLD_LIMIT) }

  /** What reading `k` chunks is in deeds: the first chunk with output proves the endpoint up and its prefill done,
      and no other chunk does anything. */
  function StreamDeeds(n: nat, e: EndpointId, lease: nat, feed: Feed, k: nat): seq<Deed>
    requires k <= |feed.chunks|
  {
    if k == 0 then []
    else
      StreamDeeds(n, e, lease, feed, k - 1) + [Waited(Some(n), feed.others(k - 1))]
      + if Proves(feed, k) then [ReportedUp(e), Freed(lease, feed.clock(k - 1).mono, true)] else []
  }

  /** Chunk number `k` is the first with output. */
  predicate Proves(feed: Feed, k: nat)
    requires 0 < k <= |feed.chunks|
  {
    feed.chunks[k - 1].content && NoContent(feed.chunks[..k - 1])
  }

  /** The shared state once `k` chunks of attempt `n` have arrived. */
  ghost function WorldAfter(s: Settings, w: World, n: nat, e: EndpointId, lease: nat, feed: Feed, k: nat)
    : (after: World)
    requires k <= |feed.chunks|
    ensures after.mine == w.mine + StreamDeeds(n, e, lease, feed, k)
  {
    if k == 0 then w
    else
      var arrived := Suspend(s, WorldAfter(s, w, n, e, lease, feed, k - 1), Some(n), feed.others(k - 1));
      if Proves(feed, k) then ReleaseAt(s, ScoreUp(s, arrived, e), lease, feed.clock(k - 1).mono, true) else arrived
  }

  lemma {:induction false} StreamEvolves(s: Settings, w: World, n: nat, e: EndpointId, lease: nat, feed: Feed, k: nat)
    requires k <= |feed.chunks|
    ensures Evolves(s, w, WorldAfter(s, w, n, e, lease, feed, k))
  {
    hide Evolves, Proves;
    if k == 0 {
      EvolvesReflexive(s, w);
    } else {
      StreamEvolves(s, w, n, e, lease, feed, k - 1);
      var last := WorldAfter(s, w, n, e, lease, feed, k - 1);
      var arrived := Suspend(s, last, Some(n), feed.others(k - 1));
      EvolvesOn(s, w, last, Suspending(Some(n), feed.others(k - 1)));
      if Proves(feed, k) {
        EvolvesOn(s, w, arrived, ReportingUp(e));
        ReleaseEvolves(s, w, ScoreUp(s, arrived, e), lease, feed.clock(k - 1).mono, true);
      }
    }
  }

  lemma HoldableGrows(cs: seq<Chunk>, n: nat)
    requires n < |cs|
    ensures cs[..n + 1] == cs[..n] + [cs[n]]
    ensures NoContent(cs[..n + 1]) <==> NoContent(cs[..n]) && !cs[n].content
    ensures TotalSize(cs[..n + 1]) == TotalSize(cs[..n]) + cs[n].size
  {
    assert cs[..n + 1][..n] == cs[..n];
  }

  lemma {:induction false} NotHoldableLasts(cs: seq<Chunk>, n: nat)
    requires n <= |cs| && !Holdable(cs[..n])
    ensures !Holdable(cs)
    decreases |cs| - n
  {
    if n < |cs| {
      HoldableGrows(cs, n);
      NotHoldableLasts(cs, n + 1);
    } else {
      assert cs[..n] == cs;
    }
  }

  /** Hold chunks back until one carries output, the buffer fills or the stream is out of chunks. */
  method Hold(s: Settings, w0: World, n: nat, e: EndpointId, lease: nat, feed: Feed)
    returns (w: World, taken: nat, stopped: bool)
    ensures taken <= |feed.chunks| && w == WorldAfter(s, w0, n, e, lease, feed, taken)
    ensures stopped <==> !Holdable(feed.chunks)
    ensures if stopped then taken > 0 && !Holdable(feed.chunks[..taken]) && Holdable(feed.chunks[..taken - 1])
            else taken == |feed.chunks|
  {
    w, taken, stopped := w0, 0, false;
    var held := 0;
    while taken < |feed.chunks| && !stopped
      invariant taken <= |feed.chunks| && w == WorldAfter(s, w0, n, e, lease, feed, taken)
      invariant !stopped ==> Holdable(feed.chunks[..taken]) && held == TotalSize(feed.chunks[..taken])
      invariant stopped ==> taken > 0 && !Holdable(feed.chunks[..taken]) && Holdable(feed.chunks[..taken - 1])
    {
      var c := feed.chunks[taken];
      HoldableGrows(feed.chunks, taken);
      w := Suspend(s, w, Some(n), feed.others(taken));
      if c.content {
        w := ReleaseAt(s, ScoreUp(s, w, e), lease, feed.clock(taken).mono, true);
        stopped := true;
      } else {
        held := held + c.size;
        stopped := held >= HOLD_LIMIT;
      }
      taken := taken + 1;
    }
    if stopped {
      NotHoldableLasts(feed.chunks, taken);
    } else {
      assert feed.chunks[..taken] == feed.chunks;
    }
  }

  /** Read a stream to its end, or until the client leaves at the `room`-th chunk it is handed. `emitted` is
      what the client got and `left` whether it went away. */
  method Relay(s: Settings, w0: World, n: nat, e: EndpointId, lease: nat, feed: Feed, watched: bool, room: nat)
    returns (w: World, emitted: seq<Chunk>, result: Result, proven: bool, taken: nat, left: bool)
    requires room > 0
    ensures taken <= |feed.chunks| && emitted <= feed.chunks[..taken] && |emitted| <= room
    ensures proven <==> !NoContent(feed.chunks[..taken])
    ensures w == Suspend(s, WorldAfter(s, w0, n, e, lease, feed, taken), Some(n),
                         if left then feed.leaving else feed.others(|feed.chunks|))
    ensures if left then result == Gone && |emitted| == room
            else result == Concluded(feed.ending) && taken == |feed.chunks|
    ensures !left ==> emitted == if watched && Holdable(feed.chunks) && !feed.ending.Finished? then [] else feed.chunks
  {
    var held, first;
    w, held, first := w0, 0, true;
    if watched {
      var stopped;
      w, held, stopped := Hold(s, w0, n, e, lease, feed);
      if !stopped && !feed.ending.Finished? {
        return Suspend(s, w, Some(n), feed.others(|feed.chunks|)), [], Concluded(feed.ending), false, held, false;
      }
      if held > 0 {
        HoldableGrows(feed.chunks, held - 1);
        first := !feed.chunks[held - 1].content;
      }
    }
    w, emitted, first, taken, left := Pump(s, w0, n, e, lease, feed, w, held, first, room);
    proven := !first;
    w := Suspend(s, w, Some(n), if left then feed.leaving else feed.others(|feed.chunks|));
    result := if left then Gone else Concluded(feed.ending);
  }

  /** The shared state once the next chunk has arrived. */
  method Pull(s: Settings, w0: World, n: nat, e: EndpointId, lease: nat, feed: Feed, before: World, next: nat,
              first: bool)
    returns (w: World, still: bool)
    requires next < |feed.chunks| && before == WorldAfter(s, w0, n, e, lease, feed, next)
    requires first <==> NoContent(feed.chunks[..next])
    ensures w == WorldAfter(s, w0, n, e, lease, feed, next + 1) && (still <==> NoContent(feed.chunks[..next + 1]))
  {
    HoldableGrows(feed.chunks, next);
    w, still := Suspend(s, before, Some(n), feed.others(next)), first;
    if first && feed.chunks[next].content {
      still := false;
      w := ReleaseAt(s, ScoreUp(s, w, e), lease, feed.clock(next).mono, true);
    }
  }

  /** Hand out the `held` chunks, then the rest of the stream as it arrives. */
  method Pump(s: Settings, w0: World, n: nat, e: EndpointId, lease: nat, feed: Feed, start: World, held: nat,
              unproven: bool, room: nat)
    returns (w: World, emitted: seq<Chunk>, first: bool, taken: nat, left: bool)
    requires room > 0 && held <= |feed.chunks| && start == WorldAfter(s, w0, n, e, lease, feed, held)
    requires unproven <==> NoContent(feed.chunks[..held])
    ensures taken <= |feed.chunks| && emitted <= feed.chunks[..taken] && |emitted| <= room
    ensures w == WorldAfter(s, w0, n, e, lease, feed, taken) && (first <==> NoContent(feed.chunks[..taken]))
    ensures if left then |emitted| == room else taken == |feed.chunks| && emitted == feed.chunks
  {
    hide WorldAfter, NoContent;
    w, first, left := start, unproven, false;
    emitted := HandOut(feed.chunks, held, room);
    if |emitted| == room {
      return w, emitted, first, held, true;
    }
    var next := held;
    while next < |feed.chunks|
      invariant next <= |feed.chunks| && next < room
      invariant first <==> NoContent(feed.chunks[..next])
      invariant w == WorldAfter(s, w0, n, e, lease, feed, next)
    {
      w, first := Pull(s, w0, n, e, lease, feed, w, next, first);
      next := next + 1;
      if next == room {
        return w, feed.chunks[..next], first, next, true;
      }
    }
    emitted, taken := feed.chunks[..next], next;
  }

  /** Chunks handed to a client that leaves at the `room`-th one. */
  method HandOut(chunks: seq<Chunk>, n: nat, room: nat) returns (emitted: seq<Chunk>)
    requires room > 0 && n <= |chunks|
    ensures emitted == if n <= room then chunks[..n] else chunks[..room]
  {
    emitted := [];
    for i := 0 to n
      invariant i < room && emitted == chunks[..i]
    {
      emitted := emitted + [chunks[i]];
      if |emitted| == room { return; }
    }
  }
}

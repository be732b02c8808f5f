/** What a request did with what it was granted, read off everything it did. */
module RequestDeeds {
  import opened Options
  import opened Identifiers
  import opened Failures
  import opened CircuitBreaker
  import opened EndpointHealth
  import opened Gateway
  import opened Selection
  import opened FallbackWalk
  import opened Attempts
  import opened Requests
  import opened RequestLog
  import opened Executor
  import PR = PrefillRuns
  import PL = PrefillLoad

  // ----- what a request has in its hands

  /** The claim each attempt holds, the attempts that handed theirs back, and the leases taken and still out. */
  datatype Custody = Custody(claims: map<nat, DispatchClaim>, ended: set<nat>, taken: set<nat>, out: set<nat>)

  const EMPTY_HANDED := Custody(map[], {}, {}, {})

  function Then(a: Custody, d: Deed): Custody {
    match d
    case Bade(n, _, _, claim) => if claim.None? then a else a.(claims := a.claims[n := claim.value])
    case Ended(n, _) => a.(claims := a.claims - {n}, ended := a.ended + {n})
    case Took(_, l, _, _, _, _, _, _) => a.(taken := a.taken + {l}, out := a.out + {l})
    case Freed(l, _, _) => a.(out := a.out - {l})
    case ReportedUp(_) => a
    case ReportedDown(_, _, _) => a
    case Waited(_, _) => a
  }

  /** Attempt `n` may use endpoint `e`: it holds a claim on it, or its request is pinned and needs none. */
  predicate MayUse(a: Custody, pinned: bool, n: nat, e: EndpointId) {
    pinned || (n in a.claims && a.claims[n].endpoint == e)
  }

  /** An attempt waits, leases and reports only while it holds its claim on that endpoint; a claim is handed back by
      the attempt it was granted to, once; only a lease of this request's own is given back. */
  ghost predicate May(a: Custody, pinned: bool, d: Deed) {
    match d
    case Bade(n, e, _, claim) =>
      n !in a.claims && n !in a.ended && (claim.Some? ==> claim.value.endpoint == e)
    case Ended(n, claim) => n in a.claims && a.claims[n] == claim
    case Took(n, _, _, e, _, _, _, _) => MayUse(a, pinned, n, e)
    case Freed(l, _, _) => l in a.taken
    case ReportedUp(e) => pinned || exists n :: MayUse(a, false, n, e)
    case ReportedDown(e, _, _) => pinned || exists n :: MayUse(a, false, n, e)
    case Waited(during, _) => during.None? || pinned || during.value in a.claims
  }

  function ThenAll(a: Custody, ds: seq<Deed>): Custody {
    if ds == [] then a else Then(ThenAll(a, ds[..|ds| - 1]), ds[|ds| - 1])
  }

  /** Every deed was this request's to do, when it did it. */
  ghost predicate Rightful(a: Custody, pinned: bool, ds: seq<Deed>) {
    forall i :: 0 <= i < |ds| ==> May(ThenAll(a, ds[..i]), pinned, ds[i])
  }

  lemma {:induction false} ThenMore(a: Custody, some: seq<Deed>, more: seq<Deed>)
    ensures ThenAll(a, some + more) == ThenAll(ThenAll(a, some), more)
  {
    if more == [] {
      assert some + more == some;
    } else {
      var n := |more| - 1;
      ThenMore(a, some, more[..n]);
      assert (some + more)[..|some| + n] == some + more[..n];
    }
  }

  lemma RightfulMore(a: Custody, pinned: bool, some: seq<Deed>, more: seq<Deed>)
    requires Rightful(a, pinned, some) && Rightful(ThenAll(a, some), pinned, more)
    ensures Rightful(a, pinned, some + more) && ThenAll(a, some + more) == ThenAll(ThenAll(a, some), more)
  {
    hide May, ThenAll;
    var all := some + more;
    ThenMore(a, some, more);
    forall i | 0 <= i < |all| ensures May(ThenAll(a, all[..i]), pinned, all[i]) {
      if i < |some| {
        assert all[..i] == some[..i];
      } else {
        ThenMore(a, some, more[..i - |some|]);
        assert all[..i] == some + more[..i - |some|];
      }
    }
  }

  lemma OneDeed(a: Custody, pinned: bool, d: Deed)
    requires May(a, pinned, d)
    ensures Rightful(a, pinned, [d]) && ThenAll(a, [d]) == Then(a, d)
  {
    hide May;
    assert [d][..0] == [];
    assert ThenAll(a, []) == a;
  }

  lemma NoDeed(a: Custody, pinned: bool)
    ensures Rightful(a, pinned, []) && ThenAll(a, []) == a
  {
  }

  lemma RightfulThen(a: Custody, pinned: bool, some: seq<Deed>, d: Deed)
    requires Rightful(a, pinned, some) && May(ThenAll(a, some), pinned, d)
    ensures Rightful(a, pinned, some + [d]) && ThenAll(a, some + [d]) == Then(ThenAll(a, some), d)
  {
    hide May, Rightful, ThenAll;
    OneDeed(ThenAll(a, some), pinned, d);
    RightfulMore(a, pinned, some, [d]);
  }

  // ----- one attempt

  /** Attempt `n` on `e` may go on with lease `l`, the only one that can be out. */
  ghost predicate Going(a: Custody, pinned: bool, n: nat, e: EndpointId, l: nat) {
    MayUse(a, pinned, n, e) && l in a.taken && a.out <= {l}
  }

  /** A wait, a report or a release of the attempt's own. */
  predicate OfAttempt(n: nat, e: EndpointId, l: nat, d: Deed) {
    match d
    case Waited(during, _) => during == Some(n)
    case ReportedUp(x) => x == e
    case ReportedDown(x, _, _) => x == e
    case Freed(x, _, _) => x == l
    case _ => false
  }

  lemma OwnDeedIsRightful(a: Custody, pinned: bool, n: nat, e: EndpointId, l: nat, d: Deed)
    requires Going(a, pinned, n, e, l) && OfAttempt(n, e, l, d)
    ensures May(a, pinned, d)
  {
    assert !pinned ==> MayUse(a, false, n, e);
  }

  /** What an attempt does under its lease leaves all else in the request's hands as it was. */
  lemma {:induction false} OwnDeedsAreRightful(a: Custody, pinned: bool, n: nat, e: EndpointId, l: nat, ds: seq<Deed>)
    requires Going(a, pinned, n, e, l) && forall d :: d in ds ==> OfAttempt(n, e, l, d)
    ensures Rightful(a, pinned, ds) && Going(ThenAll(a, ds), pinned, n, e, l)
    ensures ThenAll(a, ds).(out := a.out) == a
    ensures (exists d :: d in ds && d.Freed?) ==> ThenAll(a, ds).out == {}
  {
    hide Rightful, May;
    if ds == [] {
      NoDeed(a, pinned);
    } else {
      var k := |ds| - 1;
      assert ds == ds[..k] + [ds[k]];
      OwnDeedsAreRightful(a, pinned, n, e, l, ds[..k]);
      OwnDeedIsRightful(ThenAll(a, ds[..k]), pinned, n, e, l, ds[k]);
      RightfulThen(a, pinned, ds[..k], ds[k]);
    }
  }

  lemma {:induction false} WaitsAreRightful(a: Custody, pinned: bool, n: nat, e: EndpointId, ds: seq<Deed>)
    requires MayUse(a, pinned, n, e) && forall d :: d in ds ==> d.Waited? && d.during == Some(n)
    ensures Rightful(a, pinned, ds) && ThenAll(a, ds) == a
  {
    hide Rightful;
    if ds == [] {
      NoDeed(a, pinned);
    } else {
      var k := |ds| - 1;
      assert ds == ds[..k] + [ds[k]];
      assert ds[k] in ds;
      WaitsAreRightful(a, pinned, n, e, ds[..k]);
      RightfulThen(a, pinned, ds[..k], ds[k]);
    }
  }

  /** Everything an attempt does between its claim and handing it back. */
  function BlockOf(c: Case, front: seq<Entry>, x: Entry): seq<Deed>
    requires x.Dispatched?
  {
    if front == [] then PrimaryDeeds(c, x) else AttemptDeeds(c, AttemptsIn(front), x)
  }

  lemma {:induction false} StreamParts(n: nat, e: EndpointId, l: nat, feed: Feed, k: nat)
    requires k <= |feed.chunks|
    ensures var ds := StreamDeeds(n, e, l, feed, k);
            && (forall d :: d in ds ==> OfAttempt(n, e, l, d) && !d.ReportedDown? && (d.Freed? ==> d.confirmed))
            && (NoContent(feed.chunks[..k]) ==> forall d :: d in ds ==> d.Waited?)
            && (!NoContent(feed.chunks[..k]) ==> ReportedUp(e) in ds && exists now :: Freed(l, now, true) in ds)
  {
    if k > 0 {
      StreamParts(n, e, l, feed, k - 1);
      HoldableGrows(feed.chunks, k - 1);
      var ds := StreamDeeds(n, e, l, feed, k - 1);
      if Proves(feed, k) {
        assert Freed(l, feed.clock(k - 1).mono, true) in StreamDeeds(n, e, l, feed, k);
      } else if !NoContent(feed.chunks[..k]) {
        var now :| Freed(l, now, true) in ds;
        assert Freed(l, now, true) in StreamDeeds(n, e, l, feed, k);
      }
    }
  }

  lemma ReadParts(n: nat, e: EndpointId, feed: Feed, course: Course)
    ensures var ds := ReadDeeds(n, e, feed, course);
            && (forall d :: d in ds ==>
                  OfAttempt(n, e, course.lease, d) && !d.ReportedDown? && (d.Freed? ==> d.confirmed))
            && (course.taken <= |feed.chunks| ==>
                  if NoContent(feed.chunks[..course.taken]) then forall d :: d in ds ==> d.Waited?
                  else ReportedUp(e) in ds && exists now :: Freed(course.lease, now, true) in ds)
  {
    hide StreamDeeds, NoContent;
    if course.taken <= |feed.chunks| {
      StreamParts(n, e, course.lease, feed, course.taken);
    }
  }

  /** An attempt may wait before it takes its lease; a lease it takes, it gives back. */
  lemma BlockParts(c: Case, front: seq<Entry>, x: Entry) returns (waits: seq<Deed>, took: seq<Deed>, rest: seq<Deed>)
    requires x.Dispatched? && (front != [] ==> AttemptsIn(front) > 0)
    ensures var n, e, l := AttemptsIn(front), x.route.endpoint, x.course.lease;
            && BlockOf(c, front, x) == waits + took + rest
            && (forall d :: d in waits ==> d.Waited? && d.during == Some(n))
            && (forall d :: d in rest ==> OfAttempt(n, e, l, d))
            && if took == [] then rest == [] else took == [TookDeed(c, n, e, l)] && exists d :: d in rest && d.Freed?
  {
    hide ReadDeeds;
    var n, e, l, feed := AttemptsIn(front), x.route.endpoint, x.course.lease, c.up.feed(AttemptsIn(front));
    ReadParts(n, e, feed, x.course);
    var end, down := EndOf(feed), DownDeeds(e, x.result, EndOf(feed));
    var freed := Freed(l, end.mono, false);
    waits, took := [], [TookDeed(c, n, e, l)];
    if !c.request.streaming {
      rest := WholeDeeds(n, e, l, feed);
      assert rest[1].Freed?;
    } else if front == [] {
      rest := PrimaryReading(c, e, x.course) + [freed] + down;
      assert freed in rest;
    } else if c.up.patience <= n {
      waits, took, rest := AttemptDeeds(c, n, x), [], [];
    } else {
      waits, rest := [Waited(Some(n), feed.announcing)], ReadDeeds(n, e, feed, x.course) + down + [freed];
      assert freed in rest;
    }
  }

  lemma BlockIsRightful(a: Custody, c: Case, front: seq<Entry>, x: Entry)
    requires x.Dispatched? && (front != [] ==> AttemptsIn(front) > 0)
    requires MayUse(a, c.request.pin.Pinned?, AttemptsIn(front), x.route.endpoint) && a.out == {}
    ensures Rightful(a, c.request.pin.Pinned?, BlockOf(c, front, x))
    ensures var b := ThenAll(a, BlockOf(c, front, x)); b == a.(taken := b.taken)
  {
    hide Rightful, ThenAll, BlockOf, OfAttempt, AttemptsIn;
    var pinned, n, e, l := c.request.pin.Pinned?, AttemptsIn(front), x.route.endpoint, x.course.lease;
    var waits, took, rest := BlockParts(c, front, x);
    WaitsAreRightful(a, pinned, n, e, waits);
    if took == [] {
      assert waits + took + rest == waits;
    } else {
      RightfulThen(a, pinned, waits, took[0]);
      OwnDeedsAreRightful(ThenAll(a, waits + took), pinned, n, e, l, rest);
      RightfulMore(a, pinned, waits + took, rest);
    }
  }

  // ----- a whole request

  function ClaimsOf(held: Option<DispatchClaim>): map<nat, DispatchClaim> {
    if held.None? then map[] else map[0 := held.value]
  }

  /** Between two candidates a request holds its primary's claim, until the primary's retry, and nothing else. */
  ghost predicate InHand(c: Case, log: seq<Entry>, a: Custody) {
    && a.out == {} && a.claims == ClaimsOf(HeldAfter(c, log))
    && (forall n :: n in a.ended ==> n < AttemptsIn(log)) && (HeldAfter(c, log).Some? ==> 0 !in a.ended)
  }

  lemma EndIsRightful(a: Custody, pinned: bool, held: Option<DispatchClaim>)
    requires a.claims == ClaimsOf(held)
    ensures Rightful(a, pinned, EndDeeds(held))
    ensures var b := ThenAll(a, EndDeeds(held));
            b == a.(claims := map[], ended := a.ended + if held.None? then {} else {0})
  {
    hide Rightful, ThenAll;
    if held.None? {
      NoDeed(a, pinned);
      assert a.ended + {} == a.ended;
    } else {
      OneDeed(a, pinned, Ended(0, held.value));
      assert a.claims - {0} == map[];
    }
  }

  /** The primary's retry first hands the primary's claim back. */
  function FirstDeeds(c: Case, front: seq<Entry>, x: Entry): seq<Deed> {
    if x.route.adapter == c.primary.adapter then EndDeeds(HeldAfter(c, front)) else []
  }

  lemma FirstIsRightful(a: Custody, c: Case, front: seq<Entry>, x: Entry)
    requires InHand(c, front, a) && AttemptsIn(front) > 0
    ensures var b := ThenAll(a, FirstDeeds(c, front, x));
            && Rightful(a, false, FirstDeeds(c, front, x)) && b.out == {}
            && b.claims == ClaimsOf(if x.route.adapter == c.primary.adapter then None else HeldAfter(c, front))
            && (forall n :: n in b.ended ==> n < AttemptsIn(front))
            && (x.route.adapter != c.primary.adapter && HeldAfter(c, front).Some? ==> 0 !in b.ended)
  {
    hide Rightful, ThenAll;
    if x.route.adapter == c.primary.adapter {
      EndIsRightful(a, false, HeldAfter(c, front));
    } else {
      NoDeed(a, false);
    }
  }

  /** A dispatched candidate: its claim, its attempt, its claim back. */
  lemma DispatchIsRightful(a: Custody, c: Case, front: seq<Entry>, x: Entry, held: Option<DispatchClaim>)
    requires x.Dispatched? && Claimed(c, front, x) && c.request.pin.Unpinned? && front != []
    requires AttemptsIn(front) > 0 && a.out == {} && a.claims == ClaimsOf(held)
    requires forall n :: n in a.ended ==> n < AttemptsIn(front)
    ensures var n := AttemptsIn(front);
            var ds := [Bade(n, x.route.endpoint, c.up.clock(n).perf, x.claim)] + BlockOf(c, front, x)
                      + [Ended(n, x.claim.value)];
            var b := ThenAll(a, ds);
            && Rightful(a, false, ds) && b.out == {} && b.claims == a.claims && b.ended == a.ended + {n}
  {
    hide Rightful, ThenAll, BlockOf, AttemptsIn, Holding;
    var n, e, block := AttemptsIn(front), x.route.endpoint, BlockOf(c, front, x);
    var bid, end := Bade(n, e, c.up.clock(n).perf, x.claim), Ended(n, x.claim.value);
    OneDeed(a, false, bid);
    var held := ThenAll(a, [bid]);
    BlockIsRightful(held, c, front, x);
    RightfulMore(a, false, [bid], block);
    RightfulThen(a, false, [bid] + block, end);
    assert held.claims - {n} == a.claims;
  }

  lemma CandidateIsRightful(a: Custody, c: Case, front: seq<Entry>, x: Entry)
    requires InHand(c, front, a) && AttemptsIn(front) > 0 && Claimed(c, front, x) && c.request.pin.Unpinned?
             && front != []
    ensures Rightful(a, false, CandidateDeeds(c, front, x))
    ensures InHand(c, front + [x], ThenAll(a, CandidateDeeds(c, front, x)))
  {
    hide Rightful, ThenAll, AttemptDeeds, Holding;
    FrontOf(front, x);
    var n, e := AttemptsIn(front), x.route.endpoint;
    var first := FirstDeeds(c, front, x);
    var held := if x.route.adapter == c.primary.adapter then None else HeldAfter(c, front);
    FirstIsRightful(a, c, front, x);
    var b := ThenAll(a, first);
    if x.TooNarrow? {
      NoDeed(a, false);
    } else if x.TurnedAway? {
      RightfulThen(a, false, first, Bade(n, e, c.up.clock(n).perf, None));
    } else {
      DispatchIsRightful(b, c, front, x, held);
      var ds := [Bade(n, e, c.up.clock(n).perf, x.claim)] + BlockOf(c, front, x) + [Ended(n, x.claim.value)];
      RightfulMore(a, false, first, ds);
      assert CandidateDeeds(c, front, x) == first + ds;
    }
  }

  lemma {:induction false} FirstIsDispatched(c: Case, log: seq<Entry>)
    requires Disciplined(c, log) && log != []
    ensures AttemptsIn(log) > 0 && log[0].Dispatched?
  {
    if |log| > 1 {
      FirstIsDispatched(c, Front(log));
    }
  }

  /** `prelude` got the request its primary's claim, if it needs one, and nothing more. */
  ghost predicate Introduces(c: Case, prelude: seq<Deed>, claim: Option<DispatchClaim>) {
    && Rightful(EMPTY_HANDED, c.request.pin.Pinned?, prelude)
    && ThenAll(EMPTY_HANDED, prelude) == EMPTY_HANDED.(claims := ClaimsOf(claim))
  }

  lemma PrimaryIsRightful(c: Case, prelude: seq<Deed>, first: Entry)
    requires Disciplined(c, [first]) && first.Dispatched? && Introduces(c, prelude, first.claim)
    ensures Rightful(EMPTY_HANDED, c.request.pin.Pinned?, DeedsOf(c, prelude, [first]))
    ensures InHand(c, [first], ThenAll(EMPTY_HANDED, DeedsOf(c, prelude, [first])))
  {
    hide Rightful, ThenAll, BlockOf, Holding, GoesOn, Routed, RetryInTurn, OffloadInTurn, Fits, ArmedRight;
    FrontOf([], first);
    assert [] + [first] == [first];
    DisciplinedAt(c, [first], 0);
    assert [first][..0] == [];
    BlockIsRightful(ThenAll(EMPTY_HANDED, prelude), c, [], first);
    RightfulMore(EMPTY_HANDED, c.request.pin.Pinned?, prelude, BlockOf(c, [], first));
    BlockOfPrimary(c, prelude, first);
  }

  lemma BlockOfPrimary(c: Case, prelude: seq<Deed>, first: Entry)
    requires first.Dispatched?
    ensures DeedsOf(c, prelude, [first]) == prelude + BlockOf(c, [], first)
  {
    DeedsOfOne(c, prelude, first);
  }

  lemma {:induction false} LogIsRightful(c: Case, prelude: seq<Deed>, log: seq<Entry>)
    requires Disciplined(c, log) && log != [] && log[0].Dispatched? && Introduces(c, prelude, log[0].claim)
    ensures Rightful(EMPTY_HANDED, c.request.pin.Pinned?, DeedsOf(c, prelude, log))
    ensures InHand(c, log, ThenAll(EMPTY_HANDED, DeedsOf(c, prelude, log)))
  {
    hide Introduces, Rightful, ThenAll, DeedsOf, InHand, CandidateDeeds;
    var k := |log| - 1;
    DisciplinedAt(c, log, k);
    if k == 0 {
      assert log == [log[0]];
      PrimaryIsRightful(c, prelude, log[0]);
    } else {
      var front, x := log[..k], log[k];
      assert log == front + [x] && front[0] == log[0];
      LogIsRightful(c, prelude, front);
      FirstIsDispatched(c, front);
      DeedsGrow(c, prelude, front, x);
      CandidateIsRightful(ThenAll(EMPTY_HANDED, DeedsOf(c, prelude, front)), c, front, x);
      RightfulMore(EMPTY_HANDED, false, DeedsOf(c, prelude, front), CandidateDeeds(c, front, x));
    }
  }

  lemma {:induction false} RefusalsAreRightful(oracle: Oracle, base: nat, turned: seq<EndpointId>)
    ensures Rightful(EMPTY_HANDED, false, Refusals(oracle, base, turned))
    ensures ThenAll(EMPTY_HANDED, Refusals(oracle, base, turned)) == EMPTY_HANDED
  {
    hide Rightful, ThenAll;
    if turned == [] {
      NoDeed(EMPTY_HANDED, false);
    } else {
      var k := |turned| - 1;
      var some := Refusals(oracle, base, turned[..k]);
      var wait, bid := Waited(None, oracle.others(base + k)), Bade(0, turned[k], oracle.claimClock(base + k), None);
      RefusalsAreRightful(oracle, base, turned[..k]);
      RightfulThen(EMPTY_HANDED, false, some, wait);
      RightfulThen(EMPTY_HANDED, false, some + [wait], bid);
      assert some + [wait] + [bid] == some + [wait, bid];
    }
  }

  lemma PreludeIntroduces(c: Case, oracle: Oracle, turned: seq<EndpointId>, claim: Option<DispatchClaim>)
    requires GoodPrimary(c.routes, c.offload, c.request, turned, c.primary, claim)
    ensures Introduces(c, Prelude(c.request, oracle, turned, c.primary, claim), claim)
  {
    hide Rightful, ThenAll, GoodRoute;
    if c.request.pin.Pinned? {
      NoDeed(EMPTY_HANDED, true);
    } else {
      var base := FirstPass(c.request.wish);
      var some, k := Refusals(oracle, base, turned), base + |turned|;
      var wait, bid := Waited(None, oracle.others(k)), Bade(0, c.primary.endpoint, oracle.claimClock(k), claim);
      RefusalsAreRightful(oracle, base, turned);
      RightfulThen(EMPTY_HANDED, false, some, wait);
      RightfulThen(EMPTY_HANDED, false, some + [wait], bid);
      assert some + [wait] + [bid] == some + [wait, bid];
    }
  }

  /** Nothing is in the request's hands any more. */
  ghost predicate LetGo(pinned: bool, ds: seq<Deed>) {
    var a := ThenAll(EMPTY_HANDED, ds);
    Rightful(EMPTY_HANDED, pinned, ds) && a.claims == map[] && a.out == {}
  }

  lemma UnboundLetsGo(c: Case, prelude: seq<Deed>, claim: Option<DispatchClaim>, lease: nat)
    requires Introduces(c, prelude, claim)
    requires if c.request.pin.Pinned? then claim.None? else claim.Some? && claim.value.endpoint == c.primary.endpoint
    ensures LetGo(c.request.pin.Pinned?, prelude + UnboundDeeds(c, claim, lease))
  {
    hide Rightful, ThenAll;
    var pinned, took, freed := c.request.pin.Pinned?, TookDeed(c, 0, c.primary.endpoint, lease),
        Freed(lease, c.up.clock(0).mono, false);
    RightfulThen(EMPTY_HANDED, pinned, prelude, took);
    EndIsRightful(ThenAll(EMPTY_HANDED, prelude + [took]), pinned, claim);
    RightfulMore(EMPTY_HANDED, pinned, prelude + [took], EndDeeds(claim));
    RightfulThen(EMPTY_HANDED, pinned, prelude + [took] + EndDeeds(claim), freed);
    assert prelude + [took] + EndDeeds(claim) + [freed] == prelude + UnboundDeeds(c, claim, lease);
  }

  lemma LogLetsGo(c: Case, prelude: seq<Deed>, log: seq<Entry>)
    requires Disciplined(c, log) && log != [] && log[0].Dispatched? && Introduces(c, prelude, log[0].claim)
    ensures LetGo(c.request.pin.Pinned?, DeedsOf(c, prelude, log) + EndDeeds(HeldAfter(c, log)))
  {
    hide Introduces, Rightful, ThenAll, DeedsOf, HeldAfter;
    var pinned, all, held := c.request.pin.Pinned?, DeedsOf(c, prelude, log), HeldAfter(c, log);
    LogIsRightful(c, prelude, log);
    EndIsRightful(ThenAll(EMPTY_HANDED, all), pinned, held);
    RightfulMore(EMPTY_HANDED, pinned, all, EndDeeds(held));
  }

  /** Over a whole request, every claim is handed back by the attempt it was granted to after the last thing that
      attempt did, only leases of its own are given back, and all of them are. */
  lemma {:induction false} RequestsActRightfully(s: Settings, routes: seq<Route>, offload: Option<OffloadRoute>,
                                                 request: Request, oracle: Oracle, up: Upstream, run: Run)
    requires Executed(s, routes, offload, request, oracle, up, run)
    ensures LetGo(request.pin.Pinned?, run.finish.mine)
  {
    hide LetGo, Evolves, Settled, DeedsOf, HeldAfter, Introduces, GoodRoute, GoodRefusal, WishesHeard, Accounted,
         NothingLeft;
    if run.log == [] {
      NeverBeganLetsGo(s, routes, offload, request, oracle, up, run);
    } else {
      var first := run.log[0];
      var c := Case(s, routes, offload, request, up, first.route);
      PreludeIntroduces(c, oracle, run.turned, first.claim);
      LogLetsGo(c, Prelude(request, oracle, run.turned, first.route, first.claim), run.log);
    }
  }

  lemma NeverBeganLetsGo(s: Settings, routes: seq<Route>, offload: Option<OffloadRoute>, request: Request,
                         oracle: Oracle, up: Upstream, run: Run)
    requires NeverBegan(s, run.finish, routes, offload, request, oracle, up, run.turned, run.outcome)
    ensures LetGo(request.pin.Pinned?, run.finish.mine)
  {
    hide Rightful, ThenAll, Prelude, Introduces, UnboundDeeds, GoodRefusal, GoodRoute;
    var mine := run.finish.mine;
    if run.outcome.NotPlaced? {
      RefusalsAreRightful(oracle, FirstPass(request.wish), run.turned);
      assert mine == Refusals(oracle, FirstPass(request.wish), run.turned);
    } else if run.outcome.PinNotFound? {
      NoDeed(EMPTY_HANDED, true);
    } else if run.outcome.BindingRefused? {
      var primary, claim, lease :|
        && GoodPrimary(routes, offload, request, run.turned, primary, claim)
        && mine == Prelude(request, oracle, run.turned, primary, claim)
                   + UnboundDeeds(Case(s, routes, offload, request, up, primary), claim, lease);
      var c := Case(s, routes, offload, request, up, primary);
      PreludeIntroduces(c, oracle, run.turned, claim);
      UnboundLetsGo(c, Prelude(request, oracle, run.turned, primary, claim), claim, lease);
    }
  }

  // ----- what acting rightfully means

  /** The leases a request took. */
  function OwnLeases(ds: seq<Deed>): set<nat> { set d | d in ds && d.Took? :: d.lease }

  lemma {:induction false} TakenAreOwn(ds: seq<Deed>)
    ensures ThenAll(EMPTY_HANDED, ds).taken == OwnLeases(ds)
  {
    if ds != [] {
      var k := |ds| - 1;
      TakenAreOwn(ds[..k]);
      assert ds == ds[..k] + [ds[k]];
      assert OwnLeases(ds) == OwnLeases(ds[..k]) + OwnLeases([ds[k]]);
    }
  }

  /** A request gives back only what it took. */
  lemma FreesOnlyOwn(pinned: bool, ds: seq<Deed>, i: nat)
    requires Rightful(EMPTY_HANDED, pinned, ds) && i < |ds| && ds[i].Freed?
    ensures ds[i].lease in OwnLeases(ds)
  {
    TakenAreOwn(ds[..i]);
    assert forall d :: d in ds[..i] ==> d in ds;
  }

  lemma RightfulBefore(a: Custody, pinned: bool, ds: seq<Deed>, k: nat)
    requires Rightful(a, pinned, ds) && k < |ds|
    ensures Rightful(a, pinned, ds[..k]) && May(ThenAll(a, ds[..k]), pinned, ds[k])
  {
    hide May, ThenAll;
    assert forall j :: 0 <= j < k ==> ds[..k][..j] == ds[..j];
  }

  lemma EndedStays(a: Custody, pinned: bool, d: Deed, n: nat)
    requires May(a, pinned, d) && ((n in a.ended && n !in a.claims) || (d.Ended? && d.attempt == n))
    ensures n in Then(a, d).ended && n !in Then(a, d).claims
  {
  }

  lemma {:induction false} EndedHoldNothing(ds: seq<Deed>, pinned: bool, i: nat, n: nat)
    requires Rightful(EMPTY_HANDED, pinned, ds) && i < |ds| && ds[i].Ended? && ds[i].attempt == n
    ensures n in ThenAll(EMPTY_HANDED, ds).ended && n !in ThenAll(EMPTY_HANDED, ds).claims
  {
    hide Rightful, May, Then;
    var k := |ds| - 1;
    RightfulBefore(EMPTY_HANDED, pinned, ds, k);
    if i < k {
      EndedHoldNothing(ds[..k], pinned, i, n);
    }
    EndedStays(ThenAll(EMPTY_HANDED, ds[..k]), pinned, ds[k], n);
  }

  /** Once an unpinned attempt has handed its claim back it neither waits on its endpoint nor takes a lease. */
  lemma NothingFollowsReturn(ds: seq<Deed>, i: nat, j: nat)
    requires Rightful(EMPTY_HANDED, false, ds) && i < j < |ds| && ds[i].Ended?
    ensures ds[j].Waited? ==> ds[j].during != Some(ds[i].attempt)
    ensures ds[j].Took? || ds[j].Bade? || ds[j].Ended? ==> ds[j].attempt != ds[i].attempt
  {
    hide Rightful;
    RightfulBefore(EMPTY_HANDED, false, ds, j);
    EndedHoldNothing(ds[..j], false, i, ds[i].attempt);
  }

  // ----- what an attempt says about its endpoint

  /** Prefill is confirmed and success reported exactly by an attempt that proved its endpoint up, failure exactly by
      one that broke. */
  ghost predicate Tells(e: EndpointId, x: Entry, ds: seq<Deed>)
    requires x.Dispatched?
  {
    && (x.proven <==> ReportedUp(e) in ds) && (x.proven <==> exists d :: d in ds && d.Freed? && d.confirmed)
    && (x.result.Broke? <==> exists d :: d in ds && d.ReportedDown?)
    && (forall d :: d in ds && d.ReportedDown? ==> d.failure == x.result.failure)
  }

  lemma WholeTells(n: nat, e: EndpointId, l: nat, feed: Feed, x: Entry, took: Deed)
    requires x.Dispatched? && x.proven == x.result.Completed? && x.result == Concluded(feed.ending) && took.Took?
    ensures Tells(e, x, [took] + WholeDeeds(n, e, l, feed))
  {
    var ds := [took] + WholeDeeds(n, e, l, feed);
    assert ds[2].Freed? && ds[2] in ds && (|ds| > 3 ==> ds[3] in ds);
  }

  /** A stream read under a lease, then released and a failure scored, in either order. */
  lemma StreamTells(n: nat, e: EndpointId, feed: Feed, x: Entry, ds: seq<Deed>)
    requires x.Dispatched? && x.course.taken <= |feed.chunks|
    requires x.proven <==> !NoContent(feed.chunks[..x.course.taken])
    requires forall d :: d in ReadDeeds(n, e, feed, x.course) + DownDeeds(e, x.result, EndOf(feed)) ==> d in ds
    requires forall d :: d in ds ==>
               d in ReadDeeds(n, e, feed, x.course) || d in DownDeeds(e, x.result, EndOf(feed))
               || d.Waited? || d.Took? || (d.Freed? && !d.confirmed)
    ensures Tells(e, x, ds)
  {
    hide ReadDeeds, NoContent;
    ReadParts(n, e, feed, x.course);
    var read, down := ReadDeeds(n, e, feed, x.course), DownDeeds(e, x.result, EndOf(feed));
    if x.result.Broke? {
      assert down[0] in read + down;
    }
    if x.proven {
      var now :| Freed(x.course.lease, now, true) in read;
      assert Freed(x.course.lease, now, true) in read + down && ReportedUp(e) in read + down;
    }
  }

  lemma BlockTells(c: Case, front: seq<Entry>, x: Entry, emitted: seq<Chunk>)
    requires x.Dispatched? && PlayedAs(c, front, x, emitted) && (front != [] ==> AttemptsIn(front) > 0)
    ensures Tells(x.route.endpoint, x, BlockOf(c, front, x))
  {
    hide ReadDeeds, NoContent, Holdable, Tells, WholeDeeds, DownDeeds;
    var n, e, l, feed := AttemptsIn(front), x.route.endpoint, x.course.lease, c.up.feed(AttemptsIn(front));
    if !c.request.streaming {
      WholeTells(n, e, l, feed, x, TookDeed(c, n, e, l));
    } else if c.up.patience <= n {
      UnreadTells(c, front, x);
    } else {
      StreamTells(n, e, feed, x, BlockOf(c, front, x));
    }
  }

  lemma UnreadTells(c: Case, front: seq<Entry>, x: Entry)
    requires x.Dispatched? && !x.proven && x.result == Gone && c.request.streaming && c.up.patience <= AttemptsIn(front)
    requires front != [] ==> AttemptsIn(front) > 0
    ensures Tells(x.route.endpoint, x, BlockOf(c, front, x))
  {
  }

  /** Everything an attempt does is about its own endpoint and lease, and the lease is for its own request. */
  ghost predicate OwnAffair(request: Request, x: Entry, d: Deed)
    requires x.Dispatched?
  {
    match d
    case Took(_, l, _, e, tokens, caller, fingerprint, anchor) =>
      && l == x.course.lease && e == x.route.endpoint && tokens == request.wish.tokens
      && caller == request.caller && fingerprint == request.fingerprint && anchor == request.anchor
    case Freed(l, _, _) => l == x.course.lease
    case ReportedUp(e) => e == x.route.endpoint
    case ReportedDown(e, _, _) => e == x.route.endpoint
    case _ => true
  }

  lemma BlockIsOwnAffair(c: Case, front: seq<Entry>, x: Entry)
    requires x.Dispatched? && (front != [] ==> AttemptsIn(front) > 0)
    ensures forall d :: d in BlockOf(c, front, x) ==> OwnAffair(c.request, x, d)
  {
    hide BlockOf, AttemptsIn;
    var waits, took, rest := BlockParts(c, front, x);
  }

  /** The deeds of an attempt proper, as opposed to bidding, returning and waiting. */
  predicate OfSomeAttempt(d: Deed) { d.Took? || d.Freed? || d.ReportedUp? || d.ReportedDown? }

  lemma CandidateDoes(c: Case, front: seq<Entry>, x: Entry, d: Deed)
    requires front != []
    ensures x.Dispatched? && d in BlockOf(c, front, x) ==> d in CandidateDeeds(c, front, x)
    ensures d in CandidateDeeds(c, front, x) && OfSomeAttempt(d) ==> x.Dispatched? && d in BlockOf(c, front, x)
  {
    hide AttemptDeeds;
  }

  /** Each such deed is of one logged attempt. */
  lemma {:induction false} DoneByAttempt(c: Case, prelude: seq<Deed>, log: seq<Entry>, d: Deed) returns (i: nat)
    requires log != [] && log[0].Dispatched? && d in DeedsOf(c, prelude, log) && d !in prelude && OfSomeAttempt(d)
    ensures i < |log| && log[i].Dispatched? && d in BlockOf(c, log[..i], log[i])
  {
    hide BlockOf, CandidateDeeds, DeedsOf;
    i := |log| - 1;
    var front, x := log[..i], log[i];
    assert log == front + [x];
    if i == 0 {
      BlockOfPrimary(c, prelude, x);
      assert [x] == log && front == [];
    } else {
      DeedsGrow(c, prelude, front, x);
      CandidateDoes(c, front, x, d);
      if d !in CandidateDeeds(c, front, x) {
        i := DoneByAttempt(c, prelude, front, d);
        assert front[..i] == log[..i];
      }
    }
  }

  lemma {:induction false} AttemptsAreDone(c: Case, prelude: seq<Deed>, log: seq<Entry>, i: nat, d: Deed)
    requires i < |log| && log[0].Dispatched? && log[i].Dispatched? && d in BlockOf(c, log[..i], log[i])
    ensures d in DeedsOf(c, prelude, log)
  {
    hide BlockOf, CandidateDeeds, DeedsOf;
    var k := |log| - 1;
    var front, x := log[..k], log[k];
    assert log == front + [x];
    if k == 0 {
      BlockOfPrimary(c, prelude, x);
      assert [x] == log && front == [];
    } else {
      DeedsGrow(c, prelude, front, x);
      if i == k {
        CandidateDoes(c, front, x, d);
      } else {
        assert front[..i] == log[..i];
        AttemptsAreDone(c, prelude, front, i, d);
      }
    }
  }

  /** Every lease is for the request's own tokens, caller and conversation; prefill is confirmed and success reported
      exactly for the attempts that proved their endpoint up, and failure exactly for those that broke. */
  ghost predicate Earned(request: Request, log: seq<Entry>, ds: seq<Deed>) {
    && (forall d :: d in ds && d.Took? ==>
          && d.tokens == request.wish.tokens && d.caller == request.caller
          && d.fingerprint == request.fingerprint && d.anchor == request.anchor)
    && (forall d :: d in ds && OfSomeAttempt(d) && !(d.Freed? && !d.confirmed) && !d.Took? ==>
          exists x :: x in log && x.Dispatched? && OwnAffair(request, x, d)
                      && if d.ReportedDown? then x.result == Broke(d.failure) else x.proven)
    && (forall x :: x in log && x.Dispatched? && x.proven ==>
          && ReportedUp(x.route.endpoint) in ds
          && exists d :: d in ds && d.Freed? && d.lease == x.course.lease && d.confirmed)
    && (forall x :: x in log && Failed(x) ==>
          exists d :: d in ds && d.ReportedDown? && d.endpoint == x.route.endpoint && d.failure == x.result.failure)
  }

  lemma {:induction false} PlayedAt(c: Case, log: seq<Entry>, emitted: seq<Chunk>, outcome: Outcome, i: nat)
    requires Performed(c, log, emitted, outcome) && i < |log| && log[i].Dispatched?
    ensures exists shown :: PlayedAs(c, log[..i], log[i], shown)
  {
    hide Played, NothingLeft, Justified;
    if i < |log| - 1 {
      QuietPlayedAt(c, Front(log), i);
      assert Front(log)[..i] == log[..i];
    }
  }

  lemma {:induction false} QuietPlayedAt(c: Case, log: seq<Entry>, i: nat)
    requires Quiet(c, log) && i < |log|
    ensures PlayedAs(c, log[..i], log[i], [])
  {
    hide PlayedAs;
    if i < |log| - 1 {
      QuietPlayedAt(c, Front(log), i);
      assert Front(log)[..i] == log[..i];
    }
  }

  /** What holds of each logged attempt. */
  lemma AttemptIs(c: Case, log: seq<Entry>, emitted: seq<Chunk>, outcome: Outcome, i: nat)
    requires Performed(c, log, emitted, outcome) && i < |log| && log[i].Dispatched?
    ensures Tells(log[i].route.endpoint, log[i], BlockOf(c, log[..i], log[i]))
    ensures forall d :: d in BlockOf(c, log[..i], log[i]) ==> OwnAffair(c.request, log[i], d)
  {
    hide Tells, BlockOf, PlayedAs, OwnAffair, Accounted, NothingLeft, AttemptsIn, Justified, GoesOn;
    PlayedAt(c, log, emitted, outcome, i);
    var shown :| PlayedAs(c, log[..i], log[i], shown);
    if i > 0 {
      DisciplinedAt(c, log, i);
      FirstIsDispatched(c, log[..i]);
    }
    BlockTells(c, log[..i], log[i], shown);
    BlockIsOwnAffair(c, log[..i], log[i]);
  }

  lemma {:induction false} RefusalsOnlyBid(oracle: Oracle, base: nat, turned: seq<EndpointId>)
    ensures forall d :: d in Refusals(oracle, base, turned) ==> d.Bade? || d.Waited?
  {
    if turned != [] {
      RefusalsOnlyBid(oracle, base, turned[..|turned| - 1]);
    }
  }

  lemma PreludeOnlyBids(request: Request, oracle: Oracle, turned: seq<EndpointId>, primary: Route,
                        claim: Option<DispatchClaim>)
    ensures forall d :: d in Prelude(request, oracle, turned, primary, claim) ==> d.Bade? || d.Waited?
  {
    RefusalsOnlyBid(oracle, FirstPass(request.wish), turned);
  }

  lemma LogIsEarned(c: Case, prelude: seq<Deed>, log: seq<Entry>, emitted: seq<Chunk>, outcome: Outcome)
    requires log != [] && log[0].Dispatched? && Performed(c, log, emitted, outcome)
    requires forall d :: d in prelude ==> d.Bade? || d.Waited?
    ensures Earned(c.request, log, DeedsOf(c, prelude, log) + EndDeeds(HeldAfter(c, log)))
  {
    hide Performed, DeedsOf, HeldAfter, BlockOf, OwnAffair;
    var ds := DeedsOf(c, prelude, log);
    forall d | d in ds && OfSomeAttempt(d)
      ensures exists i :: 0 <= i < |log| && log[i].Dispatched? && d in BlockOf(c, log[..i], log[i])
    {
      var i := DoneByAttempt(c, prelude, log, d);
    }
    forall i | 0 <= i < |log| && log[i].Dispatched?
      ensures Tells(log[i].route.endpoint, log[i], BlockOf(c, log[..i], log[i]))
      ensures forall d :: d in BlockOf(c, log[..i], log[i]) ==> OwnAffair(c.request, log[i], d) && d in ds
    {
      AttemptIs(c, log, emitted, outcome, i);
      forall d | d in BlockOf(c, log[..i], log[i]) ensures d in ds {
        AttemptsAreDone(c, prelude, log, i, d);
      }
    }
    EarnedBy(c, log, ds, ds + EndDeeds(HeldAfter(c, log)));
  }

  lemma EarnedBy(c: Case, log: seq<Entry>, ds: seq<Deed>, all: seq<Deed>)
    requires forall d :: d in all <==> d in ds || (d in all && d.Ended?)
    requires forall d :: d in ds && OfSomeAttempt(d) ==>
               exists i :: 0 <= i < |log| && log[i].Dispatched? && d in BlockOf(c, log[..i], log[i])
    requires forall i :: 0 <= i < |log| && log[i].Dispatched? ==>
               && Tells(log[i].route.endpoint, log[i], BlockOf(c, log[..i], log[i]))
               && forall d :: d in BlockOf(c, log[..i], log[i]) ==> OwnAffair(c.request, log[i], d) && d in ds
    ensures Earned(c.request, log, all)
  {
    hide BlockOf;
    forall d | d in all && OfSomeAttempt(d)
      ensures exists x :: x in log && x.Dispatched? && OwnAffair(c.request, x, d)
                          && (d.ReportedDown? ==> x.result == Broke(d.failure))
                          && (d.ReportedUp? || (d.Freed? && d.confirmed) ==> x.proven)
    {
      var i :| 0 <= i < |log| && log[i].Dispatched? && d in BlockOf(c, log[..i], log[i]);
      assert log[i] in log;
    }
    forall x | x in log && x.Dispatched?
      ensures exists i :: 0 <= i < |log| && log[i] == x
    {
    }
  }

  /** A request scores, confirms and leases on its own account only, and exactly as its attempts went. */
  lemma {:induction false} RequestsReportWhatHappened(s: Settings, routes: seq<Route>, offload: Option<OffloadRoute>,
                                                      request: Request, oracle: Oracle, up: Upstream, run: Run)
    requires Executed(s, routes, offload, request, oracle, up, run)
    ensures Earned(request, run.log, run.finish.mine)
  {
    hide Evolves, Settled, DeedsOf, HeldAfter, GoodRoute, GoodRefusal, WishesHeard, Performed, Prelude, Earned;
    if run.log == [] {
      NeverBeganEarns(s, routes, offload, request, oracle, up, run);
    } else {
      var first := run.log[0];
      var c := Case(s, routes, offload, request, up, first.route);
      PreludeOnlyBids(request, oracle, run.turned, first.route, first.claim);
      LogIsEarned(c, Prelude(request, oracle, run.turned, first.route, first.claim), run.log, run.emitted, run.outcome);
    }
  }

  lemma NeverBeganEarns(s: Settings, routes: seq<Route>, offload: Option<OffloadRoute>, request: Request,
                        oracle: Oracle, up: Upstream, run: Run)
    requires NeverBegan(s, run.finish, routes, offload, request, oracle, up, run.turned, run.outcome) && run.log == []
    ensures Earned(request, run.log, run.finish.mine)
  {
    hide Prelude, GoodRefusal, GoodPrimary, Earned, UnboundDeeds, Refusals;
    RefusalsOnlyBid(oracle, FirstPass(request.wish), run.turned);
    if run.outcome.NotPlaced? {
      NothingPlaced(oracle, FirstPass(request.wish), run.turned, run.outcome.placement);
    }
    if !run.outcome.BindingRefused? {
      BidsAreEarned(request, run.finish.mine);
    } else {
      var primary, claim, lease :|
        && GoodPrimary(routes, offload, request, run.turned, primary, claim)
        && run.finish.mine == Prelude(request, oracle, run.turned, primary, claim)
                              + UnboundDeeds(Case(s, routes, offload, request, up, primary), claim, lease);
      PreludeOnlyBids(request, oracle, run.turned, primary, claim);
      UnboundIsEarned(Case(s, routes, offload, request, up, primary),
                      Prelude(request, oracle, run.turned, primary, claim), claim, lease);
    }
  }

  lemma BidsAreEarned(request: Request, ds: seq<Deed>)
    requires forall d :: d in ds ==> d.Bade? || d.Waited?
    ensures Earned(request, [], ds)
  {
  }

  lemma UnboundIsEarned(c: Case, prelude: seq<Deed>, claim: Option<DispatchClaim>, lease: nat)
    requires forall d :: d in prelude ==> d.Bade? || d.Waited?
    ensures Earned(c.request, [], prelude + UnboundDeeds(c, claim, lease))
  {
  }

  // ----- what a request leaves behind

  /** The lease records that are not this request's. */
  ghost function Others(leases: seq<PR.Record>, from: nat, mine: set<nat>): seq<PR.Record>
    requires from <= |leases|
    decreases |leases| - from
  {
    if from == |leases| then []
    else (if from in mine then [] else [leases[from]]) + Others(leases, from + 1, mine)
  }

  lemma {:induction false} ReturnedLeasesWeighNothing(leases: seq<PR.Record>, from: nat, mine: set<nat>,
                                                      f: PR.Record -> int)
    requires from <= |leases|
    requires forall l: nat :: l in mine && l < |leases| ==> f(leases[l]) == 0
    ensures PR.Total(leases[from..], f) == PR.Total(Others(leases, from, mine), f)
    decreases |leases| - from
  {
    if from < |leases| {
      assert leases[from..][1..] == leases[from + 1..];
      ReturnedLeasesWeighNothing(leases, from + 1, mine, f);
      var rest := Others(leases, from + 1, mine);
      if from in mine {
        assert [] + rest == rest;
      } else {
        assert ([leases[from]] + rest)[1..] == rest;
      }
    }
  }

  /** After a request every load counter is the sum over the other requests' leases alone; each lease of its own is
      new, and each other lease given back since it began was given back by another request. */
  lemma RequestLeavesNoLoad(s: Settings, routes: seq<Route>, offload: Option<OffloadRoute>, request: Request,
                            oracle: Oracle, up: Upstream, run: Run, e: EndpointId, caller: PL.Caller)
    requires Executed(s, routes, offload, request, oracle, up, run)
    requires PR.Balanced(run.start.prefill) && run.start.mine == []
    ensures var own, after := OwnLeases(run.finish.mine), run.finish.prefill;
            var others := Others(after.leases, 0, own);
            && PL.Get(after.tracker.backlog, e) == PR.Total(others, PR.TokensOn(e))
            && PL.Get(after.tracker.elephants, e) == PR.Total(others, PR.ElephantOn(e))
            && PL.Get(after.tracker.byCaller, (e, caller)) == PR.Total(others, PR.CallerOn(e, caller))
    ensures forall l :: l in OwnLeases(run.finish.mine) ==> !Granted(run.start, l)
    ensures forall l :: GivenBack(run.finish, l) && !GivenBack(run.start, l) && l !in OwnLeases(run.finish.mine) ==>
              exists d :: d in run.finish.mine && d.Waited? && FreedByOther(d.actions, l)
  {
    hide Evolves, LetGo, WishesHeard;
    EvolvesKeeps(s, run.start, run.finish);
    SettledLoad(run.finish, e, caller);
    RequestsActRightfully(s, routes, offload, request, oracle, up, run);
    forall l | l in OwnLeases(run.finish.mine) ensures !Granted(run.start, l) {
      var d :| d in run.finish.mine && d.Took? && d.lease == l;
      EvolvesTakesNew(s, run.start, run.finish, d);
    }
    forall l | GivenBack(run.finish, l) && !GivenBack(run.start, l) && l !in OwnLeases(run.finish.mine)
      ensures exists d :: d in run.finish.mine && d.Waited? && FreedByOther(d.actions, l)
    {
      EvolvesFrees(s, run.start, run.finish, l);
      OthersFreed(request.pin.Pinned?, run.finish.mine, l);
    }
  }

  lemma OthersFreed(pinned: bool, ds: seq<Deed>, l: nat)
    requires LetGo(pinned, ds) && FreedIn(ds, l) && l !in OwnLeases(ds)
    ensures exists d :: d in ds && d.Waited? && FreedByOther(d.actions, l)
  {
    hide FreedByOther, Rightful, OwnLeases;
    var d :| d in ds && ((d.Freed? && d.lease == l) || (d.Waited? && FreedByOther(d.actions, l)));
    if d.Freed? {
      var i :| 0 <= i < |ds| && ds[i] == d;
      FreesOnlyOwn(pinned, ds, i);
    }
  }

  lemma SettledLoad(w: World, e: EndpointId, caller: PL.Caller)
    requires Settled(w) && PR.Balanced(w.prefill)
    ensures var others := Others(w.prefill.leases, 0, OwnLeases(w.mine));
            && PL.Get(w.prefill.tracker.backlog, e) == PR.Total(others, PR.TokensOn(e))
            && PL.Get(w.prefill.tracker.elephants, e) == PR.Total(others, PR.ElephantOn(e))
            && PL.Get(w.prefill.tracker.byCaller, (e, caller)) == PR.Total(others, PR.CallerOn(e, caller))
  {
    var own := OwnLeases(w.mine);
    assert w.prefill.leases[0..] == w.prefill.leases;
    ReturnedLeasesWeighNothing(w.prefill.leases, 0, own, PR.TokensOn(e));
    ReturnedLeasesWeighNothing(w.prefill.leases, 0, own, PR.ElephantOn(e));
    ReturnedLeasesWeighNothing(w.prefill.leases, 0, own, PR.CallerOn(e, caller));
  }
}

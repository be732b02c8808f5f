/** What holds over every run of one endpoint's breaker: any interleaving of claims, returns, successes,
    failures and page deliveries by any number of requests, under clocks of which `perf` never steps back. */
module BreakerRuns {
  import opened Options
  import opened Identifiers
  import opened Failures
  import opened CircuitBreaker
  import opened EndpointHealth

  datatype Event =
    | Dispatch
    | Return(token: nat)
    | Success
    | Failed(failure: Failure, policy: Policy, scheduled: bool)
    | PageDone(index: nat, delivered: bool)

  datatype Timed = Timed(clock: Clock, event: Event)

  /** The endpoint, the pages being delivered, and the recovery generation of the outage the current
      mute deadline was recorded for. */
  datatype Machine = Machine(endpoint: Endpoint, pages: seq<Page>, mutedFor: nat)

  function Breaker(m: Machine): Breaker { m.endpoint.breaker }

  function Alerts(m: Machine): Alerts { m.endpoint.breaker.alerts }

  function Step(cfg: Config, alpha: real, m: Machine, t: Timed): Machine {
    var e, b := m.endpoint, m.endpoint.breaker;
    match t.event
    case Dispatch => m.(endpoint := e.(breaker := Begin(cfg, b, t.clock.perf).0))
    case Return(token) => m.(endpoint := e.(breaker := End(b, token)))
    case Success => m.(endpoint := RecordSuccess(alpha, e))
    case Failed(f, policy, scheduled) =>
      var (failed, page) := RecordFailure(cfg, alpha, e, f, policy, t.clock, scheduled);
      Machine(
        failed,
        m.pages + (if page.Some? then [page.value] else []),
        if failed.breaker.alerts.suppressedUntil != b.alerts.suppressedUntil
        then b.alerts.recoveryGeneration else m.mutedFor)
    case PageDone(k, delivered) =>
      if k >= |m.pages| then m
      else
        var alerts := FinishPage(b.alerts, m.pages[k], delivered, t.clock.mono);
        Machine(
          e.(breaker := b.(alerts := alerts)),
          m.pages[..k] + m.pages[k + 1..],
          if alerts.suppressedUntil != b.alerts.suppressedUntil then m.pages[k].generation else m.mutedFor)
  }

  const START := Machine(FRESH, [], 0)

  /** The machine after the first `n` events of `run`. */
  ghost function StateAt(cfg: Config, alpha: real, run: seq<Timed>, n: nat): Machine
    requires n <= |run|
  {
    if n == 0 then START else Step(cfg, alpha, StateAt(cfg, alpha, run, n - 1), run[n - 1])
  }

  ghost predicate TimeOrdered(run: seq<Timed>) {
    forall i, j :: 0 <= i < j < |run| ==> run[i].clock.perf <= run[j].clock.perf
  }

  /** Event `i` is a dispatch that was handed probe token `token`. */
  ghost predicate Issues(cfg: Config, alpha: real, run: seq<Timed>, i: nat, token: nat)
    requires i < |run|
  {
    && run[i].event.Dispatch?
    && Begin(cfg, Breaker(StateAt(cfg, alpha, run, i)), run[i].clock.perf).1 == Admitted(Some(token))
  }

  // ----- probe tokens

  /** What remains true of the breaker at `now` after `token` was issued at `since` and not handed back. */
  ghost predicate StillGuarded(cfg: Config, b: Breaker, token: nat, since: real, now: real) {
    && token < b.nextToken
    && (|| b.state.Closed?
        || (b.state.Open? && b.lastOpened.Some? && since <= b.lastOpened.value)
        || (b.state.HalfOpen? && b.probeToken == Some(token) && b.probeDeadline == Some(since + cfg.cooldown))
        || since + cfg.cooldown <= now)
  }

  lemma {:induction false} GuardedUntilCooldown(cfg: Config, alpha: real, run: seq<Timed>, i: nat, n: nat, token: nat)
    requires i < n <= |run| && TimeOrdered(run)
    requires Issues(cfg, alpha, run, i, token)
    requires forall k :: i < k < n ==> run[k].event != Return(token)
    ensures StillGuarded(cfg, Breaker(StateAt(cfg, alpha, run, n)), token, run[i].clock.perf, run[n - 1].clock.perf)
  {
    if n > i + 1 {
      GuardedUntilCooldown(cfg, alpha, run, i, n - 1, token);
    }
  }

  /** Two probe tokens of one breaker are issued at least a cooldown apart, unless the earlier claim was
      handed back by its own holder in between; and tokens only ever grow, so none is reused. */
  lemma ProbesAreACooldownApart(cfg: Config, alpha: real, run: seq<Timed>, i: nat, j: nat, first: nat, second: nat)
    requires i < j < |run| && TimeOrdered(run)
    requires Issues(cfg, alpha, run, i, first) && Issues(cfg, alpha, run, j, second)
    ensures first < second
    ensures || run[i].clock.perf + cfg.cooldown <= run[j].clock.perf
            || exists k :: i < k < j && run[k].event == Return(first)
  {
    TokensGrow(cfg, alpha, run, i, j, first);
    if forall k :: i < k < j ==> run[k].event != Return(first) {
      GuardedUntilCooldown(cfg, alpha, run, i, j, first);
    }
  }

  lemma {:induction false} TokensGrow(cfg: Config, alpha: real, run: seq<Timed>, i: nat, n: nat, token: nat)
    requires i < n <= |run| && Issues(cfg, alpha, run, i, token)
    ensures token < Breaker(StateAt(cfg, alpha, run, n)).nextToken
  {
    if n > i + 1 {
      TokensGrow(cfg, alpha, run, i, n - 1, token);
    }
  }

  /** Once `second` was issued, the slot is free or belongs to `second` or a later token. */
  lemma {:induction false} SlotMovesOn(cfg: Config, alpha: real, run: seq<Timed>, j: nat, n: nat, second: nat)
    requires j < n <= |run| && Issues(cfg, alpha, run, j, second)
    ensures var b := Breaker(StateAt(cfg, alpha, run, n));
            b.probeToken.Some? ==> second <= b.probeToken.value
  {
    if n > j + 1 {
      hide Availability, Record, AlertOnTrip, FinishPage, Issues;
      SlotMovesOn(cfg, alpha, run, j, n - 1, second);
      TokensGrow(cfg, alpha, run, j, n - 1, second);
    }
  }

  /** A late return by an old holder changes nothing once a newer probe has been issued. */
  lemma LateReturnFreesNothing(cfg: Config, alpha: real, run: seq<Timed>, i: nat, j: nat, k: nat, first: nat,
                               second: nat)
    requires i < j < k < |run|
    requires Issues(cfg, alpha, run, i, first) && Issues(cfg, alpha, run, j, second)
    requires run[k].event == Return(first)
    ensures StateAt(cfg, alpha, run, k + 1) == StateAt(cfg, alpha, run, k)
  {
    TokensGrow(cfg, alpha, run, i, j, first);
    SlotMovesOn(cfg, alpha, run, j, k, second);
  }

  // ----- recovery

  /** Event `k` tripped the circuit: it opened, or opened again. */
  ghost predicate Opens(cfg: Config, alpha: real, run: seq<Timed>, k: nat)
    requires k < |run|
  {
    && run[k].event.Failed? && Charged(run[k].event.failure)
    && Breaker(StateAt(cfg, alpha, run, k + 1)).state.Open?
    && Breaker(StateAt(cfg, alpha, run, k + 1)).lastOpened == Some(run[k].clock.perf)
  }

  ghost predicate Probes(cfg: Config, alpha: real, run: seq<Timed>, k: nat)
    requires k < |run|
  {
    exists token :: Issues(cfg, alpha, run, k, token)
  }

  /** What holds admission back was stamped by an opening or a probe of this run. */
  ghost predicate Stamped(cfg: Config, alpha: real, run: seq<Timed>, n: nat)
    requires n <= |run|
  {
    var b := Breaker(StateAt(cfg, alpha, run, n));
    && (b.state.Open? ==>
          && b.lastOpened.Some?
          && exists k :: 0 <= k < n && Opens(cfg, alpha, run, k) && b.lastOpened.value == run[k].clock.perf)
    && (b.probeDeadline.Some? ==>
          exists k ::
            0 <= k < n && Probes(cfg, alpha, run, k) && b.probeDeadline.value == run[k].clock.perf + cfg.cooldown)
  }

  lemma StampedOn(cfg: Config, alpha: real, run: seq<Timed>, n: nat)
    requires n < |run| && Stamped(cfg, alpha, run, n)
    ensures Stamped(cfg, alpha, run, n + 1)
  {
    var b, after := Breaker(StateAt(cfg, alpha, run, n)), Breaker(StateAt(cfg, alpha, run, n + 1));
    if after.state.Open? && !(b.state.Open? && after.lastOpened == b.lastOpened) {
      assert Opens(cfg, alpha, run, n);
    }
    if after.probeDeadline.Some? && after.probeDeadline != b.probeDeadline {
      assert Issues(cfg, alpha, run, n, b.nextToken);
      assert Probes(cfg, alpha, run, n);
    }
  }

  lemma {:induction false} EverythingIsStamped(cfg: Config, alpha: real, run: seq<Timed>, n: nat)
    requires n <= |run|
    ensures Stamped(cfg, alpha, run, n)
  {
    hide Stamped;
    if n == 0 {
      NothingToStamp(cfg, alpha, run);
    } else {
      EverythingIsStamped(cfg, alpha, run, n - 1);
      StampedOn(cfg, alpha, run, n - 1);
    }
  }

  lemma NothingToStamp(cfg: Config, alpha: real, run: seq<Timed>)
    ensures Stamped(cfg, alpha, run, 0)
  {
  }

  /** An endpoint is never shut out for good: in every reachable state, a claim is admitted at any time at least one
      cooldown after the circuit's last opening and last probe. */
  lemma RecoveryIsOffered(cfg: Config, alpha: real, run: seq<Timed>, n: nat, now: real)
    requires n <= |run|
    requires forall k :: 0 <= k < n && (Opens(cfg, alpha, run, k) || Probes(cfg, alpha, run, k)) ==>
               run[k].clock.perf + cfg.cooldown <= now
    ensures Admits(cfg, Breaker(StateAt(cfg, alpha, run, n)), now)
    ensures Begin(cfg, Breaker(StateAt(cfg, alpha, run, n)), now).1.Admitted?
  {
    EverythingIsStamped(cfg, alpha, run, n);
  }

  // ----- a circuit that is not closed has a standing reason

  ghost predicate Justified(cfg: Config, e: Endpoint) {
    && e.health.ewmaTotal == 1.0
    && 0.0 <= e.health.ewmaSuccess <= 1.0
    && (!e.breaker.state.Closed? ==> Trips(cfg, e.breaker.consecutiveFailures, Availability(e.health)))
  }

  lemma RecordKeepsUnit(alpha: real, h: Health, success: bool)
    requires 0.0 <= alpha <= 1.0 && h.ewmaTotal == 1.0 && 0.0 <= h.ewmaSuccess <= 1.0
    ensures var r := Record(alpha, h, success);
            && r.ewmaTotal == 1.0 && 0.0 <= r.ewmaSuccess <= 1.0
            && (!success ==> Availability(r) <= Availability(h))
  {
    BlendStaysInUnit(alpha, h.ewmaSuccess);
    var r := Record(alpha, h, success);
    AvailabilityOfUnit(h);
    AvailabilityOfUnit(r);
  }

  lemma AvailabilityOfUnit(h: Health)
    requires h.ewmaTotal == 1.0 && 0.0 <= h.ewmaSuccess <= 1.0
    ensures Availability(h) == h.ewmaSuccess
  {
    assert h.ewmaSuccess / 1.0 == h.ewmaSuccess;
  }

  lemma BlendStaysInUnit(alpha: real, x: real)
    requires 0.0 <= alpha <= 1.0 && 0.0 <= x <= 1.0
    ensures 0.0 <= (1.0 - alpha) * x <= x
    ensures (1.0 - alpha) * x + alpha <= 1.0
  {
    NonNegativeProduct(alpha, x);
    NonNegativeProduct(1.0 - alpha, x);
    NonNegativeProduct(1.0 - alpha, 1.0 - x);
  }

  lemma NonNegativeProduct(x: real, y: real)
    requires 0.0 <= x && 0.0 <= y
    ensures 0.0 <= x * y
  {
  }

  lemma StepKeepsJustified(cfg: Config, alpha: real, m: Machine, t: Timed)
    requires 0.0 <= alpha <= 1.0 && Justified(cfg, m.endpoint)
    ensures Justified(cfg, Step(cfg, alpha, m, t).endpoint)
  {
    match t.event
    case Success => RecordKeepsUnit(alpha, m.endpoint.health, true);
    case Failed(f, policy, scheduled) => RecordKeepsUnit(alpha, m.endpoint.health, false);
    case _ =>
  }

  /** In every reachable state where the circuit is not closed, the streak is at its threshold or the
      availability is under its floor. */
  lemma {:induction false} NotClosedIsJustified(cfg: Config, alpha: real, run: seq<Timed>, n: nat)
    requires n <= |run| && 0.0 <= alpha <= 1.0
    ensures Justified(cfg, StateAt(cfg, alpha, run, n).endpoint)
  {
    if n > 0 {
      NotClosedIsJustified(cfg, alpha, run, n - 1);
      StepKeepsJustified(cfg, alpha, StateAt(cfg, alpha, run, n - 1), run[n - 1]);
    }
  }

  /** So any charged failure while open or half-open reopens the circuit and restarts its cooldown:
      nothing is admitted for a full cooldown after it. */
  lemma ChargedFailureRestartsCooldown(cfg: Config, alpha: real, run: seq<Timed>, n: nat, now: real)
    requires n < |run| && 0.0 <= alpha <= 1.0
    requires run[n].event.Failed? && Charged(run[n].event.failure)
    requires !Breaker(StateAt(cfg, alpha, run, n)).state.Closed?
    requires now < run[n].clock.perf + cfg.cooldown
    ensures var b := Breaker(StateAt(cfg, alpha, run, n + 1));
            b.state.Open? && b.lastOpened == Some(run[n].clock.perf) && !Admits(cfg, b, now)
  {
    NotClosedIsJustified(cfg, alpha, run, n);
    RecordKeepsUnit(alpha, StateAt(cfg, alpha, run, n).endpoint.health, false);
  }

  // ----- when a circuit opens

  /** How many charged failures there were since the last success. */
  ghost function Streak(run: seq<Timed>, n: nat): nat
    requires n <= |run|
  {
    if n == 0 || run[n - 1].event.Success? then 0
    else Streak(run, n - 1) + if run[n - 1].event.Failed? && Charged(run[n - 1].event.failure) then 1 else 0
  }

  /** The success rate, each outcome weighing `alpha` against all before it. */
  ghost function SuccessRate(alpha: real, run: seq<Timed>, n: nat): real
    requires n <= |run|
  {
    if n == 0 then 1.0
    else
      var before, event := SuccessRate(alpha, run, n - 1), run[n - 1].event;
      if event.Success? then (1.0 - alpha) * before + alpha
      else if event.Failed? && Charged(event.failure) then (1.0 - alpha) * before
      else before
  }

  lemma StepCounts(cfg: Config, alpha: real, m: Machine, t: Timed)
    ensures var e, after, charged := m.endpoint, Step(cfg, alpha, m, t).endpoint,
                                     t.event.Failed? && Charged(t.event.failure);
            && after.breaker.consecutiveFailures ==
               (if t.event.Success? then 0 else e.breaker.consecutiveFailures + if charged then 1 else 0)
            && after.health.ewmaSuccess ==
               if t.event.Success? then (1.0 - alpha) * e.health.ewmaSuccess + alpha
               else if charged then (1.0 - alpha) * e.health.ewmaSuccess else e.health.ewmaSuccess
  {
    assert alpha * 1.0 == alpha && alpha * 0.0 == 0.0;
  }

  /** What the breaker decides by is what happened. */
  lemma {:induction false} CountersAreHistory(cfg: Config, alpha: real, run: seq<Timed>, n: nat)
    requires n <= |run| && 0.0 <= alpha <= 1.0
    ensures var e := StateAt(cfg, alpha, run, n).endpoint;
            && e.breaker.consecutiveFailures == Streak(run, n)
            && Availability(e.health) == e.health.ewmaSuccess == SuccessRate(alpha, run, n)
  {
    hide Step, Charged, Availability;
    NotClosedIsJustified(cfg, alpha, run, n);
    AvailabilityOfUnit(StateAt(cfg, alpha, run, n).endpoint.health);
    if n > 0 {
      CountersAreHistory(cfg, alpha, run, n - 1);
      StepCounts(cfg, alpha, StateAt(cfg, alpha, run, n - 1), run[n - 1]);
    }
  }

  /** A charged failure leaves the circuit open exactly if the streak has reached its threshold or the success rate is
      under its floor. */
  lemma ChargedFailureOpensIff(cfg: Config, alpha: real, run: seq<Timed>, n: nat)
    requires n < |run| && 0.0 <= alpha <= 1.0 && run[n].event.Failed? && Charged(run[n].event.failure)
    ensures Breaker(StateAt(cfg, alpha, run, n + 1)).state.Open? <==>
              || Streak(run, n + 1) >= cfg.failureThreshold
              || SuccessRate(alpha, run, n + 1) < cfg.minAvailability
    ensures Opens(cfg, alpha, run, n) <==> Breaker(StateAt(cfg, alpha, run, n + 1)).state.Open?
  {
    CountersAreHistory(cfg, alpha, run, n + 1);
    NotClosedIsJustified(cfg, alpha, run, n + 1);
  }

  /** In every reachable state a closed circuit's streak is under its threshold. */
  lemma {:induction false} ClosedStreakIsShort(cfg: Config, alpha: real, run: seq<Timed>, n: nat)
    requires n <= |run| && 0.0 <= alpha <= 1.0 && cfg.failureThreshold > 0
    ensures Breaker(StateAt(cfg, alpha, run, n)).state.Closed? ==> Streak(run, n) < cfg.failureThreshold
  {
    if n > 0 {
      ClosedStreakIsShort(cfg, alpha, run, n - 1);
      CountersAreHistory(cfg, alpha, run, n);
      CountersAreHistory(cfg, alpha, run, n - 1);
    }
  }

  // ----- pages and mutes

  ghost predicate UsagePage(p: Page) { p.suppress.Some? }

  /** A mute belongs to the current generation; usage-limit pages in flight have distinct generations,
      none from the future, and one of the current generation holds the in-flight guard. */
  ghost predicate AlertsCoherent(m: Machine) {
    var a := Alerts(m);
    && (a.suppressedUntil != 0.0 ==> m.mutedFor == a.recoveryGeneration)
    && (forall i :: 0 <= i < |m.pages| ==> m.pages[i].generation <= a.recoveryGeneration)
    && (forall i, j :: 0 <= i < j < |m.pages| && UsagePage(m.pages[i]) && UsagePage(m.pages[j]) ==>
          m.pages[i].generation != m.pages[j].generation)
    && (forall i :: 0 <= i < |m.pages| && UsagePage(m.pages[i]) && m.pages[i].generation == a.recoveryGeneration ==>
          a.inFlightGeneration == Some(a.recoveryGeneration))
    && (a.inFlightGeneration.Some? ==> a.inFlightGeneration.value <= a.recoveryGeneration)
  }

  lemma FailedKeepsCoherent(cfg: Config, alpha: real, m: Machine, t: Timed)
    requires AlertsCoherent(m) && t.event.Failed?
    ensures AlertsCoherent(Step(cfg, alpha, m, t))
  {
  }

  lemma PageDoneKeepsCoherent(cfg: Config, alpha: real, m: Machine, t: Timed)
    requires AlertsCoherent(m) && t.event.PageDone?
    ensures AlertsCoherent(Step(cfg, alpha, m, t))
  {
    var k := t.event.index;
    if k < |m.pages| {
      var rest := m.pages[..k] + m.pages[k + 1..];
      assert forall i :: 0 <= i < |rest| ==> rest[i] == m.pages[if i < k then i else i + 1];
    }
  }

  /** Over every run: a standing mute deadline was recorded for the current recovery generation, and at
      most one usage-limit page of any generation is in flight. */
  lemma {:induction false} MutesBelongToTheOutage(cfg: Config, alpha: real, run: seq<Timed>, n: nat)
    requires n <= |run|
    ensures AlertsCoherent(StateAt(cfg, alpha, run, n))
  {
    if n > 0 {
      MutesBelongToTheOutage(cfg, alpha, run, n - 1);
      var m, t := StateAt(cfg, alpha, run, n - 1), run[n - 1];
      match t.event
      case Failed(_, _, _) => FailedKeepsCoherent(cfg, alpha, m, t);
      case PageDone(_, _) => PageDoneKeepsCoherent(cfg, alpha, m, t);
      case _ =>
    }
  }

  /** A page that finishes after its outage recovered neither mutes nor unguards a later outage. */
  lemma StalePageIsHarmless(cfg: Config, alpha: real, run: seq<Timed>, n: nat)
    requires n < |run| && run[n].event.PageDone? && run[n].event.index < |StateAt(cfg, alpha, run, n).pages|
    requires StateAt(cfg, alpha, run, n).pages[run[n].event.index].generation
          != Alerts(StateAt(cfg, alpha, run, n)).recoveryGeneration
    ensures var a, after := Alerts(StateAt(cfg, alpha, run, n)), Alerts(StateAt(cfg, alpha, run, n + 1));
            && after.suppressedUntil == a.suppressedUntil
            && (after.inFlightGeneration == Some(a.recoveryGeneration)
                <==> a.inFlightGeneration == Some(a.recoveryGeneration))
  {
    MutesBelongToTheOutage(cfg, alpha, run, n);
  }

  /** While a usage-limit page of the current outage is in flight, no trip schedules another page. */
  lemma OnePageInFlight(cfg: Config, alpha: real, run: seq<Timed>, n: nat, k: nat)
    requires n < |run| && run[n].event.Failed?
    requires var m := StateAt(cfg, alpha, run, n);
             k < |m.pages| && UsagePage(m.pages[k]) && m.pages[k].generation == Alerts(m).recoveryGeneration
    ensures StateAt(cfg, alpha, run, n + 1).pages == StateAt(cfg, alpha, run, n).pages
  {
    MutesBelongToTheOutage(cfg, alpha, run, n);
  }

  // ----- probes and states

  /** A probe has a token and a deadline or neither, a closed circuit has no probe and no opening time, and a circuit
      that is not closed has one. */
  ghost predicate WellFormed(b: Breaker) {
    && (b.probeToken.Some? <==> b.probeDeadline.Some?)
    && (b.state.Closed? ==> b.probeToken.None? && b.lastOpened.None?)
    && (!b.state.Closed? ==> b.lastOpened.Some?)
    && (b.probeToken.Some? ==> b.probeToken.value < b.nextToken)
  }

  lemma StepKeepsWellFormed(cfg: Config, alpha: real, m: Machine, t: Timed)
    requires WellFormed(Breaker(m))
    ensures WellFormed(Breaker(Step(cfg, alpha, m, t)))
    ensures t.event.Success? ==> Breaker(Step(cfg, alpha, m, t)).state.Closed?
  {
    hide Availability, Record, AlertOnTrip;
  }

  /** In every reachable state; and every success closes the circuit. */
  lemma {:induction false} BreakerIsWellFormed(cfg: Config, alpha: real, run: seq<Timed>, n: nat)
    requires n <= |run|
    ensures WellFormed(Breaker(StateAt(cfg, alpha, run, n)))
    ensures n > 0 && run[n - 1].event.Success? ==> Breaker(StateAt(cfg, alpha, run, n)).state.Closed?
  {
    hide WellFormed, Step;
    if n == 0 {
      FreshIsWellFormed();
    } else {
      BreakerIsWellFormed(cfg, alpha, run, n - 1);
      StepKeepsWellFormed(cfg, alpha, StateAt(cfg, alpha, run, n - 1), run[n - 1]);
    }
  }

  lemma FreshIsWellFormed()
    ensures WellFormed(Breaker(START))
  {
  }

  // ----- recovery re-arms paging

  /** How many successes there were. */
  ghost function Successes(run: seq<Timed>, n: nat): nat
    requires n <= |run|
  {
    if n == 0 then 0 else Successes(run, n - 1) + if run[n - 1].event.Success? then 1 else 0
  }

  /** The recovery generation is the number of successes. */
  lemma {:induction false} GenerationCountsSuccesses(cfg: Config, alpha: real, run: seq<Timed>, n: nat)
    requires n <= |run|
    ensures Alerts(StateAt(cfg, alpha, run, n)).recoveryGeneration == Successes(run, n)
  {
    hide Step, Alerts;
    if n == 0 {
      NoSuccessYet();
    } else {
      GenerationCountsSuccesses(cfg, alpha, run, n - 1);
      OnlySuccessMoves(cfg, alpha, StateAt(cfg, alpha, run, n - 1), run[n - 1]);
    }
  }

  lemma NoSuccessYet()
    ensures Alerts(START).recoveryGeneration == 0
  {
  }

  lemma OnlySuccessMoves(cfg: Config, alpha: real, m: Machine, t: Timed)
    ensures Alerts(Step(cfg, alpha, m, t)).recoveryGeneration ==
            Alerts(m).recoveryGeneration + if t.event.Success? then 1 else 0
  {
    hide Availability, Record;
  }

  /** Right after a success no mute stands, and no page in flight holds the next outage's page back. */
  lemma {:induction false} SuccessRearms(cfg: Config, alpha: real, run: seq<Timed>, n: nat)
    requires n < |run| && run[n].event.Success?
    ensures var a := Alerts(StateAt(cfg, alpha, run, n + 1));
            a.suppressedUntil == 0.0 && a.inFlightGeneration != Some(Successes(run, n + 1))
  {
    MutesBelongToTheOutage(cfg, alpha, run, n);
    GenerationCountsSuccesses(cfg, alpha, run, n);
  }

  /** Event `k` opened a circuit that was not open. */
  ghost predicate TripsAt(cfg: Config, alpha: real, run: seq<Timed>, k: nat)
    requires k < |run|
  {
    && run[k].event.Failed? && Charged(run[k].event.failure)
    && !Breaker(StateAt(cfg, alpha, run, k)).state.Open? && Breaker(StateAt(cfg, alpha, run, k + 1)).state.Open?
  }

  /** It did so for a recognised plan-usage limit. */
  ghost predicate UsageTrip(cfg: Config, alpha: real, run: seq<Timed>, k: nat)
    requires k < |run|
  {
    TripsAt(cfg, alpha, run, k) && run[k].event.failure.usage.Some?
  }

  /** Event `k` delivered a usage-limit page. */
  ghost predicate DeliversUsagePage(cfg: Config, alpha: real, run: seq<Timed>, k: nat)
    requires k < |run|
  {
    var m, event := StateAt(cfg, alpha, run, k), run[k].event;
    event.PageDone? && event.delivered && event.index < |m.pages| && UsagePage(m.pages[event.index])
  }

  ghost function PageEnding(cfg: Config, alpha: real, run: seq<Timed>, k: nat): Page
    requires k < |run| && DeliversUsagePage(cfg, alpha, run, k)
  {
    StateAt(cfg, alpha, run, k).pages[run[k].event.index]
  }

  /** When a usage limit was last announced, or last recognised with its paging off: what the page rate goes by. */
  ghost function LastStamp(cfg: Config, alpha: real, run: seq<Timed>, n: nat): Option<real>
    requires n <= |run|
  {
    if n == 0 then None
    else
      var k, before := n - 1, LastStamp(cfg, alpha, run, n - 1);
      if UsageTrip(cfg, alpha, run, k) then
        if !run[k].event.policy.pageOnUsageLimit && !Recent(cfg, before, run[k].clock.mono)
        then Some(run[k].clock.mono) else before
      else if DeliversUsagePage(cfg, alpha, run, k) then Some(run[k].clock.mono) else before
  }

  predicate Recent(cfg: Config, stamp: Option<real>, now: real) {
    stamp.Some? && now - stamp.value < cfg.minAlertGap
  }

  /** A page about a usage limit of the current outage is still being delivered. */
  ghost predicate UsagePageOut(cfg: Config, alpha: real, run: seq<Timed>, n: nat)
    requires n <= |run|
  {
    var pages := StateAt(cfg, alpha, run, n).pages;
    exists i :: 0 <= i < |pages| && UsagePage(pages[i]) && pages[i].generation == Successes(run, n)
  }

  /** Until when trips are silent: a success lifts the mute, a usage limit held back extends it, and a delivered page
      about the current outage sets it. */
  ghost function MuteAt(cfg: Config, alpha: real, run: seq<Timed>, n: nat): real
    requires n <= |run|
  {
    if n == 0 then 0.0
    else
      var k, before := n - 1, MuteAt(cfg, alpha, run, n - 1);
      if run[k].event.Success? then 0.0
      else if UsageTrip(cfg, alpha, run, k) && Gated(cfg, alpha, run, k, before) then
        Later(before, run[k].event.failure.usage.value)
      else if DeliversUsagePage(cfg, alpha, run, k)
              && PageEnding(cfg, alpha, run, k).generation == Successes(run, k) then
        PageEnding(cfg, alpha, run, k).suppress.value
      else before
  }

  function Later(a: real, b: real): real { if a < b then b else a }

  /** What holds the page of trip `k` back, with trips silent until `mute`. */
  ghost predicate Gated(cfg: Config, alpha: real, run: seq<Timed>, k: nat, mute: real)
    requires k < |run| && run[k].event.Failed? && run[k].event.failure.Fault?
  {
    var policy, usage, clock := run[k].event.policy, run[k].event.failure.usage.Some?, run[k].clock;
    var recent := Recent(cfg, LastStamp(cfg, alpha, run, k), clock.mono);
    || !policy.enabled
    || UsagePageOut(cfg, alpha, run, k)
    || clock.wall < mute
    || (usage && recent)
    || (!policy.pageOnUsageLimit && (usage || recent))
  }

  /** Whoever holds the in-flight guard is a usage-limit page still being delivered. */
  ghost predicate GuardHasPage(m: Machine) {
    var guard := Alerts(m).inFlightGeneration;
    guard.Some? ==> exists i :: 0 <= i < |m.pages| && UsagePage(m.pages[i]) && m.pages[i].generation == guard.value
  }

  lemma FailedKeepsGuard(cfg: Config, alpha: real, m: Machine, t: Timed)
    requires GuardHasPage(m) && t.event.Failed?
    ensures GuardHasPage(Step(cfg, alpha, m, t))
  {
    var after := Step(cfg, alpha, m, t);
    var guard := Alerts(after).inFlightGeneration;
    if guard.Some? {
      if guard == Alerts(m).inFlightGeneration {
        var i :| 0 <= i < |m.pages| && UsagePage(m.pages[i]) && m.pages[i].generation == guard.value;
        assert after.pages[i] == m.pages[i];
      } else {
        assert after.pages[|m.pages|].generation == guard.value;
      }
    }
  }

  lemma PageDoneKeepsGuard(cfg: Config, alpha: real, m: Machine, t: Timed)
    requires GuardHasPage(m) && t.event.PageDone?
    ensures GuardHasPage(Step(cfg, alpha, m, t))
  {
    var k, after := t.event.index, Step(cfg, alpha, m, t);
    var guard := Alerts(after).inFlightGeneration;
    if k < |m.pages| && guard.Some? {
      var i :| 0 <= i < |m.pages| && UsagePage(m.pages[i]) && m.pages[i].generation == guard.value;
      assert after.pages[if i < k then i else i - 1] == m.pages[i];
    }
  }

  lemma {:induction false} GuardsHavePages(cfg: Config, alpha: real, run: seq<Timed>, n: nat)
    requires n <= |run|
    ensures GuardHasPage(StateAt(cfg, alpha, run, n))
  {
    if n > 0 {
      GuardsHavePages(cfg, alpha, run, n - 1);
      var m, t := StateAt(cfg, alpha, run, n - 1), run[n - 1];
      match t.event
      case Failed(_, _, _) => FailedKeepsGuard(cfg, alpha, m, t);
      case PageDone(_, _) => PageDoneKeepsGuard(cfg, alpha, m, t);
      case _ =>
    }
  }

  /** The guard stands for the current outage exactly while a usage-limit page about it is being delivered. */
  lemma GuardIsPageOut(cfg: Config, alpha: real, run: seq<Timed>, n: nat)
    requires n <= |run|
    ensures var a := Alerts(StateAt(cfg, alpha, run, n));
            a.inFlightGeneration == Some(a.recoveryGeneration) <==> UsagePageOut(cfg, alpha, run, n)
  {
    hide StateAt;
    GuardsHavePages(cfg, alpha, run, n);
    MutesBelongToTheOutage(cfg, alpha, run, n);
    GenerationCountsSuccesses(cfg, alpha, run, n);
  }

  /** What the gate of a trip goes by is what happened. */
  ghost predicate AlertsMatch(cfg: Config, alpha: real, run: seq<Timed>, n: nat)
    requires n <= |run|
  {
    var a := Alerts(StateAt(cfg, alpha, run, n));
    && a.suppressedUntil == MuteAt(cfg, alpha, run, n) && a.usageAlertedAt == LastStamp(cfg, alpha, run, n)
    && a.recoveryGeneration == Successes(run, n)
    && (a.inFlightGeneration == Some(a.recoveryGeneration) <==> UsagePageOut(cfg, alpha, run, n))
  }

  /** What a trip out of a state that is not open does to mute, stamp and pages. */
  lemma FailedMatches(cfg: Config, alpha: real, run: seq<Timed>, n: nat)
    requires n < |run| && run[n].event.Failed? && AlertsMatch(cfg, alpha, run, n)
    ensures var m, after := StateAt(cfg, alpha, run, n), StateAt(cfg, alpha, run, n + 1);
            && Alerts(after).suppressedUntil == MuteAt(cfg, alpha, run, n + 1)
            && Alerts(after).usageAlertedAt == LastStamp(cfg, alpha, run, n + 1)
            && after.pages == m.pages + PagesOf(cfg, alpha, run, n)
  {
    hide Availability, Record, UsagePageOut;
  }

  /** The pages event `n` puts out: one for a trip that can be scheduled and is not held back, else none. */
  ghost function PagesOf(cfg: Config, alpha: real, run: seq<Timed>, n: nat): seq<Page>
    requires n < |run| && run[n].event.Failed?
  {
    if TripsAt(cfg, alpha, run, n) && run[n].event.scheduled && !Gated(cfg, alpha, run, n, MuteAt(cfg, alpha, run, n))
    then [Page(Successes(run, n), run[n].event.failure.usage)] else []
  }

  lemma PageDoneMatches(cfg: Config, alpha: real, run: seq<Timed>, n: nat)
    requires n < |run| && run[n].event.PageDone? && AlertsMatch(cfg, alpha, run, n)
    ensures var after := Alerts(StateAt(cfg, alpha, run, n + 1));
            && after.suppressedUntil == MuteAt(cfg, alpha, run, n + 1)
            && after.usageAlertedAt == LastStamp(cfg, alpha, run, n + 1)
  {
  }

  lemma {:induction false} AlertsAreHistory(cfg: Config, alpha: real, run: seq<Timed>, n: nat)
    requires n <= |run|
    ensures AlertsMatch(cfg, alpha, run, n)
  {
    hide UsagePageOut, Gated, Fail, Record, RecordFailure;
    GuardIsPageOut(cfg, alpha, run, n);
    GenerationCountsSuccesses(cfg, alpha, run, n);
    if n > 0 {
      AlertsAreHistory(cfg, alpha, run, n - 1);
      match run[n - 1].event
      case Failed(_, _, _) => FailedMatches(cfg, alpha, run, n - 1);
      case PageDone(_, _) => PageDoneMatches(cfg, alpha, run, n - 1);
      case _ =>
    }
  }

  /** Exactly when a failure pages, and what with: when it trips a circuit that was not open, the page can be
      scheduled, and nothing that happened before holds it back. */
  lemma FailurePagesIff(cfg: Config, alpha: real, run: seq<Timed>, n: nat)
    requires n < |run| && run[n].event.Failed?
    ensures StateAt(cfg, alpha, run, n + 1).pages == StateAt(cfg, alpha, run, n).pages + PagesOf(cfg, alpha, run, n)
  {
    AlertsAreHistory(cfg, alpha, run, n);
    FailedMatches(cfg, alpha, run, n);
  }

  // ----- a fresh outage always pages

  /** A usage-limit trip of the outage that is current before event `n`. */
  ghost predicate UsageLimited(cfg: Config, alpha: real, run: seq<Timed>, n: nat)
    requires n <= |run|
  {
    exists k :: 0 <= k < n && UsageTrip(cfg, alpha, run, k) && forall i :: k < i < n ==> !run[i].event.Success?
  }

  lemma {:induction false} NoSuccessBetween(run: seq<Timed>, k: nat, n: nat)
    requires k <= n <= |run|
    ensures Successes(run, k) <= Successes(run, n)
    ensures Successes(run, k) == Successes(run, n) <==> forall i :: k <= i < n ==> !run[i].event.Success?
  {
    if k < n {
      NoSuccessBetween(run, k, n - 1);
    }
  }

  /** Page `p` is about a usage-limit trip before event `n`. */
  ghost predicate AboutTrip(cfg: Config, alpha: real, run: seq<Timed>, n: nat, p: Page)
    requires n <= |run|
  {
    exists k :: 0 <= k < n && UsageTrip(cfg, alpha, run, k) && p.generation == Successes(run, k)
  }

  lemma {:induction false} UsagePagesAreAboutTrips(cfg: Config, alpha: real, run: seq<Timed>, n: nat)
    requires n <= |run|
    ensures forall p :: p in StateAt(cfg, alpha, run, n).pages && UsagePage(p) ==> AboutTrip(cfg, alpha, run, n, p)
  {
    hide Fail, Record, RecordFailure, FinishPage, UsageTrip, Gated;
    if n > 0 {
      UsagePagesAreAboutTrips(cfg, alpha, run, n - 1);
      var m, after := StateAt(cfg, alpha, run, n - 1), StateAt(cfg, alpha, run, n);
      if run[n - 1].event.Failed? {
        FailurePagesIff(cfg, alpha, run, n - 1);
        NewPageIsAboutTrip(cfg, alpha, run, n - 1);
      }
      forall p | p in after.pages && UsagePage(p) ensures AboutTrip(cfg, alpha, run, n, p) {
        if p in m.pages {
          assert AboutTrip(cfg, alpha, run, n - 1, p);
        }
      }
    }
  }

  lemma NewPageIsAboutTrip(cfg: Config, alpha: real, run: seq<Timed>, n: nat)
    requires n < |run| && run[n].event.Failed?
    ensures forall p :: p in PagesOf(cfg, alpha, run, n) && UsagePage(p) ==> AboutTrip(cfg, alpha, run, n + 1, p)
  {
    hide StateAt, Gated, MuteAt, TripsAt;
    forall p | p in PagesOf(cfg, alpha, run, n) && UsagePage(p) ensures AboutTrip(cfg, alpha, run, n + 1, p) {
      assert UsageTrip(cfg, alpha, run, n);
    }
  }

  /** A mute or a page in flight for the current outage is there for a usage-limit trip of that outage. */
  lemma PageOutIsUsageLimited(cfg: Config, alpha: real, run: seq<Timed>, n: nat)
    requires n <= |run| && UsagePageOut(cfg, alpha, run, n)
    ensures UsageLimited(cfg, alpha, run, n)
  {
    hide StateAt, UsageTrip;
    UsagePagesAreAboutTrips(cfg, alpha, run, n);
    var pages := StateAt(cfg, alpha, run, n).pages;
    var i :| 0 <= i < |pages| && UsagePage(pages[i]) && pages[i].generation == Successes(run, n);
    assert AboutTrip(cfg, alpha, run, n, pages[i]);
    var k :| 0 <= k < n && UsageTrip(cfg, alpha, run, k) && pages[i].generation == Successes(run, k);
    NoSuccessBetween(run, k, n);
  }

  lemma {:induction false} MuteIsUsageLimited(cfg: Config, alpha: real, run: seq<Timed>, n: nat)
    requires n <= |run| && MuteAt(cfg, alpha, run, n) != 0.0
    ensures UsageLimited(cfg, alpha, run, n)
  {
    hide StateAt, UsageTrip, Gated;
    var m := StateAt(cfg, alpha, run, n - 1);
    if UsageTrip(cfg, alpha, run, n - 1) {
    } else if MuteAt(cfg, alpha, run, n) != MuteAt(cfg, alpha, run, n - 1) {
      assert m.pages[run[n - 1].event.index] in m.pages;
      assert UsagePageOut(cfg, alpha, run, n - 1);
      PageOutIsUsageLimited(cfg, alpha, run, n - 1);
    } else {
      MuteIsUsageLimited(cfg, alpha, run, n - 1);
    }
  }

  /** Recovery re-arms alerting: with alerting and usage paging on, a trip for any other failure pages whenever no
      usage limit has tripped the circuit since the last success. */
  lemma FreshOutagePages(cfg: Config, alpha: real, run: seq<Timed>, n: nat)
    requires n < |run| && TripsAt(cfg, alpha, run, n) && run[n].event.failure.usage.None?
    requires run[n].event.scheduled && run[n].event.policy.enabled && run[n].event.policy.pageOnUsageLimit
    requires 0.0 <= run[n].clock.wall && !UsageLimited(cfg, alpha, run, n)
    ensures StateAt(cfg, alpha, run, n + 1).pages ==
            StateAt(cfg, alpha, run, n).pages + [Page(Successes(run, n), None)]
  {
    hide StateAt, UsageLimited, UsagePageOut, MuteAt;
    FailurePagesIff(cfg, alpha, run, n);
    if UsagePageOut(cfg, alpha, run, n) {
      PageOutIsUsageLimited(cfg, alpha, run, n);
    }
    if MuteAt(cfg, alpha, run, n) != 0.0 {
      MuteIsUsageLimited(cfg, alpha, run, n);
    }
  }
}

/** One endpoint's passive health and circuit breaker: admission, owned probe tokens, trips, and the
    page-mute protocol keyed on a recovery generation. Every lock-protected method is one step. */
module CircuitBreaker {
  import opened Options

  datatype CircuitState = Closed | Open | HalfOpen

  datatype Config = Config(failureThreshold: int, cooldown: real, minAvailability: real, minAlertGap: real)

  /** Alert bookkeeping: `suppressedUntil` is the mute deadline (0 means not muted). */
  datatype Alerts = Alerts(
    suppressedUntil: real,
    usageAlertedAt: Option<real>,
    inFlightGeneration: Option<nat>,
    recoveryGeneration: nat)

  datatype Breaker = Breaker(
    state: CircuitState,
    consecutiveFailures: nat,
    lastOpened: Option<real>,
    probeDeadline: Option<real>,
    probeToken: Option<nat>,
    nextToken: nat,
    alerts: Alerts)

  const INITIAL := Breaker(Closed, 0, None, None, None, 1, Alerts(0.0, None, None, 0))

  /** The circuit-open alert policy in force. */
  datatype Policy = Policy(enabled: bool, pageOnUsageLimit: bool)

  /** Readings of the three clocks: `perf` for admission, `wall` for mute deadlines, `mono` for the page rate. */
  datatype Clock = Clock(perf: real, wall: real, mono: real)

  /** A page being delivered; `suppress` is set for a usage-limit trip. */
  datatype Page = Page(generation: nat, suppress: Option<real>)

  // ----- admission

  predicate ProbeLive(b: Breaker, now: real) {
    b.probeDeadline.Some? && now < b.probeDeadline.value
  }

  predicate Admits(cfg: Config, b: Breaker, now: real) {
    match b.state
    case Closed => true
    case Open => b.lastOpened.Some? && now - b.lastOpened.value >= cfg.cooldown
    case HalfOpen => !ProbeLive(b, now)
  }

  function ClaimProbe(cfg: Config, b: Breaker, now: real): Breaker {
    b.(probeDeadline := Some(now + cfg.cooldown), probeToken := Some(b.nextToken), nextToken := b.nextToken + 1)
  }

  function ReleaseProbe(b: Breaker): Breaker {
    b.(probeDeadline := None, probeToken := None)
  }

  datatype Admission = Refused | Admitted(token: Option<nat>)

  /** The mutating half of admission: the breaker afterwards, and what the caller was told. */
  function Begin(cfg: Config, b: Breaker, now: real): (Breaker, Admission) {
    match b.state
    case Closed => (b, Admitted(None))
    case Open =>
      if b.lastOpened.None? || now - b.lastOpened.value < cfg.cooldown then (b, Refused)
      else (ClaimProbe(cfg, b.(state := HalfOpen), now), Admitted(Some(b.nextToken)))
    case HalfOpen =>
      if ProbeLive(b, now) then (b, Refused) else (ClaimProbe(cfg, b, now), Admitted(Some(b.nextToken)))
  }

  function End(b: Breaker, token: nat): Breaker {
    if b.probeToken == Some(token) then ReleaseProbe(b) else b
  }

  // ----- outcomes

  function Succeed(b: Breaker): Breaker {
    var recovered := b.(
      consecutiveFailures := 0,
      alerts := b.alerts.(suppressedUntil := 0.0, recoveryGeneration := b.alerts.recoveryGeneration + 1));
    if b.state.Closed? then recovered else ReleaseProbe(recovered.(state := Closed, lastOpened := None))
  }

  predicate Trips(cfg: Config, streak: nat, availability: real) {
    streak >= cfg.failureThreshold || availability < cfg.minAvailability
  }

  /** What a trip does to alerting: held back, or a page handed to the event loop (`scheduled`). */
  function AlertOnTrip(cfg: Config, a: Alerts, usage: Option<real>, policy: Policy, clock: Clock, scheduled: bool)
    : (Alerts, Option<Page>)
  {
    var muted := a.inFlightGeneration == Some(a.recoveryGeneration) || clock.wall < a.suppressedUntil;
    var recent := a.usageAlertedAt.Some? && clock.mono - a.usageAlertedAt.value < cfg.minAlertGap;
    var rateLimited := usage.Some? && recent;
    var pagingOff := !policy.pageOnUsageLimit && (usage.Some? || recent);
    if !policy.enabled || muted || rateLimited || pagingOff then
      var stamped := if pagingOff && usage.Some? && !recent then a.(usageAlertedAt := Some(clock.mono)) else a;
      var held :=
        if usage.Some? && stamped.suppressedUntil < usage.value then stamped.(suppressedUntil := usage.value)
        else stamped;
      (held, None)
    else if scheduled then
      ((if usage.Some? then a.(inFlightGeneration := Some(a.recoveryGeneration)) else a),
       Some(Page(a.recoveryGeneration, usage)))
    else
      (if usage.Some? then a.(inFlightGeneration := None) else a, None)
  }

  /** A charged failure. */
  function Fail(cfg: Config, b: Breaker, availability: real, usage: Option<real>, policy: Policy, clock: Clock,
                scheduled: bool)
    : (Breaker, Option<Page>)
  {
    var failed := b.(consecutiveFailures := b.consecutiveFailures + 1);
    if !Trips(cfg, failed.consecutiveFailures, availability) then (failed, None)
    else
      var tripped := failed.(state := Open, lastOpened := Some(clock.perf));
      if b.state.Open? then (tripped, None)
      else
        var (alerts, page) := AlertOnTrip(cfg, b.alerts, usage, policy, clock, scheduled);
        (tripped.(alerts := alerts), page)
  }

  /** A page's delivery ended. */
  function FinishPage(a: Alerts, page: Page, delivered: bool, mono: real): Alerts {
    if page.suppress.None? then a
    else
      var unguarded :=
        if a.inFlightGeneration == Some(page.generation) then a.(inFlightGeneration := None) else a;
      if !delivered then unguarded
      else
        var stamped := unguarded.(usageAlertedAt := Some(mono));
        if page.generation == a.recoveryGeneration then stamped.(suppressedUntil := page.suppress.value) else stamped
  }

  /** The breaker object. Each method is specified by the step function of the same meaning. */
  class CircuitBreaker {
    const cfg: Config
    var state: CircuitState
    var consecutiveFailures: nat
    var lastOpened: Option<real>
    var probeDeadline: Option<real>
    var probeToken: Option<nat>
    var nextProbeToken: nat
    var alertSuppressedUntil: real
    var usageLimitAlertedAt: Option<real>
    var alertInFlightGeneration: Option<nat>
    var recoveryGeneration: nat

    function View(): Breaker
      reads this
    {
      Breaker(state, consecutiveFailures, lastOpened, probeDeadline, probeToken, nextProbeToken, AlertView())
    }

    function AlertView(): Alerts
      reads this
    {
      Alerts(alertSuppressedUntil, usageLimitAlertedAt, alertInFlightGeneration, recoveryGeneration)
    }

    constructor (cfg: Config)
      ensures View() == INITIAL && this.cfg == cfg
    {
      this.cfg := cfg;
      state, consecutiveFailures, lastOpened := Closed, 0, None;
      probeDeadline, probeToken, nextProbeToken := None, None, 1;
      alertSuppressedUntil, usageLimitAlertedAt, alertInFlightGeneration, recoveryGeneration := 0.0, None, None, 0;
    }

    /** A pure query; it answers exactly what claiming would answer at the same instant. */
    method AllowRequest(now: real) returns (admits: bool)
      ensures admits == Admits(cfg, View(), now)
      ensures admits == Begin(cfg, View(), now).1.Admitted?
    {
      if state.Closed? { return true; }
      if state.Open? {
        if lastOpened.None? { return false; }
        return now - lastOpened.value >= cfg.cooldown;
      }
      return !(probeDeadline.Some? && now < probeDeadline.value);
    }

    method BeginDispatch(now: real) returns (admission: Admission)
      modifies this
      ensures (View(), admission) == Begin(cfg, old(View()), now)
    {
      if state.Closed? { return Admitted(None); }
      if state.Open? {
        if lastOpened.None? { return Refused; }
        if now - lastOpened.value < cfg.cooldown { return Refused; }
        state := HalfOpen;
      } else if probeDeadline.Some? && now < probeDeadline.value {
        return Refused;
      }
      probeDeadline := Some(now + cfg.cooldown);
      probeToken := Some(nextProbeToken);
      nextProbeToken := nextProbeToken + 1;
      admission := Admitted(probeToken);
    }

    method EndDispatch(token: nat)
      modifies this
      ensures View() == End(old(View()), token)
    {
      if probeToken == Some(token) {
        probeDeadline, probeToken := None, None;
      }
    }

    method OnSuccess()
      modifies this
      ensures View() == Succeed(old(View()))
    {
      consecutiveFailures := 0;
      alertSuppressedUntil := 0.0;
      recoveryGeneration := recoveryGeneration + 1;
      if state.Open? || state.HalfOpen? {
        state, lastOpened := Closed, None;
        probeDeadline, probeToken := None, None;
      }
    }

    method OnFailure(availability: real, usage: Option<real>, policy: Policy, clock: Clock, scheduled: bool)
      returns (page: Option<Page>)
      modifies this
      ensures (View(), page) == Fail(cfg, old(View()), availability, usage, policy, clock, scheduled)
    {
      page := None;
      consecutiveFailures := consecutiveFailures + 1;
      var byStreak := consecutiveFailures >= cfg.failureThreshold;
      var byAvailability := availability < cfg.minAvailability;
      if !(byStreak || byAvailability) { return; }
      var previous := state;
      state, lastOpened := Open, Some(clock.perf);
      if previous.Open? { return; }
      var muted := alertInFlightGeneration == Some(recoveryGeneration) || clock.wall < alertSuppressedUntil;
      var recent := usageLimitAlertedAt.Some? && clock.mono - usageLimitAlertedAt.value < cfg.minAlertGap;
      var rateLimited := usage.Some? && recent;
      var pagingOff := !policy.pageOnUsageLimit && (usage.Some? || recent);
      if !policy.enabled || muted || rateLimited || pagingOff {
        if pagingOff && usage.Some? && !recent {
          usageLimitAlertedAt := Some(clock.mono);
        }
        if usage.Some? && alertSuppressedUntil < usage.value {
          alertSuppressedUntil := usage.value;
        }
        return;
      }
      var generation := recoveryGeneration;
      if usage.Some? {
        alertInFlightGeneration := Some(generation);
      }
      if scheduled {
        page := Some(Page(generation, usage));
      } else if alertInFlightGeneration == Some(generation) {
        alertInFlightGeneration := None;
      }
    }

    method OnPageDone(page: Page, delivered: bool, mono: real)
      modifies this
      ensures View() == old(View()).(alerts := FinishPage(old(AlertView()), page, delivered, mono))
    {
      if page.suppress.None? { return; }
      if alertInFlightGeneration == Some(page.generation) {
        alertInFlightGeneration := None;
      }
      if delivered {
        usageLimitAlertedAt := Some(mono);
        if page.generation == recoveryGeneration {
          alertSuppressedUntil := page.suppress.value;
        }
      }
    }
  }
}

/** The process-wide registry of endpoint health: availability counters and one breaker per endpoint. */
module EndpointHealth {
  import opened Options
  import opened Identifiers
  import opened Failures
  import opened CircuitBreaker

  /** Exponentially weighted success and attempt counters. */
  datatype Health = Health(ewmaSuccess: real, ewmaTotal: real)

  const HEALTHY := Health(1.0, 1.0)

  function Record(alpha: real, h: Health, success: bool): Health {
    Health((1.0 - alpha) * h.ewmaSuccess + alpha * (if success then 1.0 else 0.0), (1.0 - alpha) * h.ewmaTotal + alpha)
  }

  function Availability(h: Health): (r: real)
    ensures 0.0 <= r <= 1.0
  {
    if h.ewmaTotal <= 0.0 then 1.0
    else
      var ratio := h.ewmaSuccess / h.ewmaTotal;
      if ratio < 0.0 then 0.0 else if ratio > 1.0 then 1.0 else ratio
  }

  datatype Endpoint = Endpoint(health: Health, breaker: Breaker)

  const FRESH := Endpoint(HEALTHY, INITIAL)

  function RecordSuccess(alpha: real, e: Endpoint): Endpoint {
    Endpoint(Record(alpha, e.health, true), Succeed(e.breaker))
  }

  function RecordFailure(cfg: Config, alpha: real, e: Endpoint, f: Failure, policy: Policy, clock: Clock,
                         scheduled: bool)
    : (Endpoint, Option<Page>)
  {
    if !Charged(f) then (e, None)
    else
      var h := Record(alpha, e.health, false);
      var (b, page) := Fail(cfg, e.breaker, Availability(h), f.usage, policy, clock, scheduled);
      (Endpoint(h, b), page)
  }

  class ProviderHealth {
    const alpha: real
    var ewmaSuccess: real
    var ewmaTotal: real

    function View(): Health
      reads this
    {
      Health(ewmaSuccess, ewmaTotal)
    }

    constructor (alpha: real)
      ensures View() == HEALTHY && this.alpha == alpha
    {
      this.alpha := alpha;
      ewmaSuccess, ewmaTotal := 1.0, 1.0;
    }

    method RecordOutcome(success: bool)
      modifies this
      ensures View() == Record(alpha, old(View()), success)
    {
      var increment := if success then 1.0 else 0.0;
      ewmaSuccess := (1.0 - alpha) * ewmaSuccess + alpha * increment;
      ewmaTotal := (1.0 - alpha) * ewmaTotal + alpha;
    }
  }

  /** One caller's right to send one request to an endpoint. */
  datatype DispatchClaim = DispatchClaim(endpoint: EndpointId, token: Option<nat>)

  class EndpointHealthRegistry {
    const cfg: Config
    const alpha: real
    var health: map<EndpointId, ProviderHealth>
    var circuits: map<EndpointId, CircuitBreaker>

    ghost predicate Valid()
      reads this, circuits.Values, health.Values
    {
      && health.Keys <= circuits.Keys
      && (forall a, b :: a in circuits && b in circuits && a != b ==> circuits[a] != circuits[b])
      && (forall a, b :: a in health && b in health && a != b ==> health[a] != health[b])
      && (forall a :: a in circuits ==> circuits[a].cfg == cfg)
      && (forall a :: a in health ==> health[a].alpha == alpha)
    }

    /** An endpoint never seen reads as a fresh one. */
    ghost function At(e: EndpointId): Endpoint
      reads this, circuits.Values, health.Values
    {
      Endpoint(
        if e in health then health[e].View() else HEALTHY,
        if e in circuits then circuits[e].View() else INITIAL)
    }

    ghost function Objects(): set<object>
      reads this
    {
      {this as object} + (set c: object | c in circuits.Values) + (set h: object | h in health.Values)
    }

    constructor (cfg: Config, alpha: real)
      ensures Valid() && this.cfg == cfg && this.alpha == alpha && fresh(Objects())
      ensures forall e :: At(e) == FRESH
    {
      this.cfg, this.alpha := cfg, alpha;
      health, circuits := map[], map[];
    }

    method EnsureCircuit(e: EndpointId)
      requires Valid()
      modifies this
      ensures Valid() && e in circuits && fresh(Objects() - old(Objects()))
      ensures health == old(health) && (e in old(circuits) ==> circuits == old(circuits))
      ensures forall x :: At(x) == old(At(x))
    {
      if e !in circuits {
        var c := new CircuitBreaker(cfg);
        circuits := circuits[e := c];
      }
    }

    method Ensure(e: EndpointId)
      requires Valid()
      modifies this
      ensures Valid() && e in circuits && e in health && fresh(Objects() - old(Objects()))
      ensures forall x :: At(x) == old(At(x))
    {
      EnsureCircuit(e);
      if e !in health {
        var h := new ProviderHealth(alpha);
        health := health[e := h];
      }
    }

    method AllowRequest(e: EndpointId, now: real) returns (admits: bool)
      requires Valid()
      modifies this
      ensures Valid() && fresh(Objects() - old(Objects()))
      ensures forall x :: At(x) == old(At(x))
      ensures admits == Begin(cfg, At(e).breaker, now).1.Admitted?
    {
      EnsureCircuit(e);
      admits := circuits[e].AllowRequest(now);
    }

    method BeginDispatch(e: EndpointId, now: real) returns (claim: Option<DispatchClaim>)
      requires Valid()
      modifies Objects()
      ensures Valid() && fresh(Objects() - old(Objects()))
      ensures var (b, admission) := Begin(cfg, old(At(e)).breaker, now);
              && At(e) == old(At(e)).(breaker := b)
              && claim == if admission.Refused? then None else Some(DispatchClaim(e, admission.token))
      ensures forall x :: x != e ==> At(x) == old(At(x))
    {
      EnsureCircuit(e);
      var admission := circuits[e].BeginDispatch(now);
      claim := if admission.Refused? then None else Some(DispatchClaim(e, admission.token));
    }

    method EndDispatch(claim: Option<DispatchClaim>)
      requires Valid()
      modifies Objects()
      ensures Valid() && circuits == old(circuits) && health == old(health)
      ensures forall x :: At(x) ==
                if claim.Some? && claim.value.token.Some? && x == claim.value.endpoint && x in circuits
                then old(At(x)).(breaker := End(old(At(x)).breaker, claim.value.token.value)) else old(At(x))
    {
      if claim.None? || claim.value.token.None? { return; }
      if claim.value.endpoint in circuits {
        circuits[claim.value.endpoint].EndDispatch(claim.value.token.value);
      }
    }

    method OnSuccess(e: EndpointId)
      requires Valid()
      modifies Objects()
      ensures Valid() && fresh(Objects() - old(Objects()))
      ensures At(e) == RecordSuccess(alpha, old(At(e)))
      ensures forall x :: x != e ==> At(x) == old(At(x))
    {
      Ensure(e);
      health[e].RecordOutcome(true);
      circuits[e].OnSuccess();
    }

    method OnFailure(e: EndpointId, f: Failure, policy: Policy, clock: Clock, scheduled: bool)
      returns (page: Option<Page>)
      requires Valid()
      modifies Objects()
      ensures Valid() && fresh(Objects() - old(Objects()))
      ensures (At(e), page) == RecordFailure(cfg, alpha, old(At(e)), f, policy, clock, scheduled)
      ensures forall x :: x != e ==> At(x) == old(At(x))
    {
      hide Fail, Record, Availability;
      if !Charged(f) { return None; }
      Ensure(e);
      health[e].RecordOutcome(false);
      var availability := Availability(health[e].View());
      page := circuits[e].OnFailure(availability, f.usage, policy, clock, scheduled);
    }
  }
}

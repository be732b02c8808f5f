/** The per-model router cache and the prepare/commit protocol that swaps a model's router. */
module RouterRegistry {
  import opened Options

  type Id = string
  type Strategy = string

  /** A router's identity. */
  type Router = nat

  /** What stays fixed: alias targets, the route table's own canonical ids, and the configured strategy for a
      canonical id and the id it was asked for by. */
  datatype Env = Env(aliases: map<Id, Id>, tableId: Id -> Id, configured: (Id, Id) -> Strategy, identity: nat)

  function Canonical(env: Env, id: Id): Id {
    env.tableId(if id in env.aliases then env.aliases[id] else id)
  }

  datatype Registry = Registry(cache: map<Id, Router>, overrides: map<Id, Strategy>, revisions: map<Id, nat>)

  const EMPTY := Registry(map[], map[], map[])

  function Find<V>(m: map<Id, V>, k: Id): Option<V> { if k in m then Some(m[k]) else None }

  function Revision(r: Registry, c: Id): nat { if c in r.revisions then r.revisions[c] else 0 }

  // ----- lookups

  /** Return the cached router or the one just built; `built` is None when construction fails. */
  function Lookup(env: Env, r: Registry, id: Id, built: Option<Router>): (Registry, Option<Router>) {
    var c := Canonical(env, id);
    if c in r.cache then (r.(cache := r.cache[id := r.cache[c]]), Some(r.cache[c]))
    else if built.None? then (r, None)
    else (r.(cache := r.cache[c := built.value][id := built.value]), built)
  }

  function StrategyName(env: Env, r: Registry, id: Id): Strategy {
    var c := Canonical(env, id);
    if c in r.overrides && r.overrides[c] != "" then r.overrides[c] else env.configured(c, id)
  }

  // ----- prepare and commit

  datatype Change = Change(
    canonical: Id,
    strategy: Strategy,
    targetOverride: Option<Strategy>,
    previousOverride: Option<Strategy>,
    previousRouter: Router,
    router: Router,
    revision: nat,
    identity: nat)

  /** `current` and `candidate` are what construction gives when the active router is not cached and when the
      strategy really changes. */
  function Prepare(env: Env, r: Registry, id: Id, strategy: Option<Strategy>, current: Option<Router>,
                   candidate: Option<Router>)
    : (Registry, Option<Change>)
  {
    var c := Canonical(env, id);
    var configured := env.configured(c, id);
    var target := if strategy == Some(configured) then None else strategy;
    var effective := if target.None? then configured else target.value;
    var (after, previous) := Lookup(env, r, c, current);
    if previous.None? then (after, None)
    else
      var router := if effective == StrategyName(env, after, c) then previous else candidate;
      (after,
       if router.None? then None
       else Some(Change(c, effective, target, Find(r.overrides, c), previous.value, router.value, Revision(r, c),
                        env.identity)))
  }

  function Without<V>(m: map<Id, V>, k: Id): map<Id, V> { m - {k} }

  function Evict(env: Env, cache: map<Id, Router>, c: Id): map<Id, Router> {
    map k | k in cache && k != c && !(k in env.aliases && env.aliases[k] == c) :: cache[k]
  }

  function Bump(r: Registry, c: Id): map<Id, nat> { r.revisions[c := Revision(r, c) + 1] }

  predicate Fresh(env: Env, r: Registry, change: Change) {
    change.identity == env.identity && Revision(r, change.canonical) == change.revision
    && Find(r.overrides, change.canonical) == change.previousOverride
  }

  /** A stale or foreign change leaves everything as it was. */
  function Commit(env: Env, r: Registry, change: Change): Registry {
    var c := change.canonical;
    if !Fresh(env, r, change) then r
    else
      Registry(Evict(env, r.cache, c)[c := change.router],
               if change.targetOverride.None? then Without(r.overrides, c)
                   else r.overrides[c := change.targetOverride.value],
               Bump(r, c))
  }

  function Clear(env: Env, r: Registry, id: Id): Registry {
    var c := Canonical(env, id);
    Registry(Evict(env, r.cache, c), Without(r.overrides, c), Bump(r, c))
  }

  class ModelRouterRegistry {
    const env: Env
    var cache: map<Id, Router>
    var overrides: map<Id, Strategy>
    var revisions: map<Id, nat>

    function View(): Registry
      reads this
    {
      Registry(cache, overrides, revisions)
    }

    constructor (env: Env)
      ensures View() == EMPTY && this.env == env
    {
      this.env := env;
      cache, overrides, revisions := map[], map[], map[];
    }

    method GetRouter(id: Id, built: Option<Router>) returns (router: Option<Router>)
      modifies this
      ensures (View(), router) == Lookup(env, old(View()), id, built)
    {
      var c := Canonical(env, id);
      if c in cache {
        router := Some(cache[c]);
        cache := cache[id := cache[c]];
        return;
      }
      router := built;
      if built.Some? {
        cache := cache[c := built.value];
        cache := cache[id := built.value];
      }
    }

    method PrepareRouterStrategyChange(id: Id, strategy: Option<Strategy>, current: Option<Router>,
                                       candidate: Option<Router>)
      returns (change: Option<Change>)
      modifies this
      ensures (View(), change) == Prepare(env, old(View()), id, strategy, current, candidate)
    {
      var c := Canonical(env, id);
      var configured := env.configured(c, id);
      var target := if strategy.None? || strategy.value == configured then None else strategy;
      var effective := if target.None? then configured else target.value;
      var previousOverride := Find(overrides, c);
      var previous := GetRouter(c, current);
      if previous.None? { return None; }
      var router := if effective == StrategyName(env, View(), c) then previous else candidate;
      if router.None? { return None; }
      change := Some(Change(c, effective, target, previousOverride, previous.value, router.value, Revision(View(), c),
                            env.identity));
    }

    method CommitRouterStrategyChange(change: Change) returns (router: Option<Router>)
      modifies this
      ensures View() == Commit(env, old(View()), change)
      ensures router == if Fresh(env, old(View()), change) then Some(change.router) else None
    {
      if change.identity != env.identity { return None; }
      var c := change.canonical;
      if Revision(View(), c) != change.revision || Find(overrides, c) != change.previousOverride { return None; }
      var revision := Revision(View(), c);
      if change.targetOverride.None? {
        overrides := overrides - {c};
      } else {
        overrides := overrides[c := change.targetOverride.value];
      }
      InvalidateRouterCache(c);
      cache := cache[c := change.router];
      revisions := revisions[c := revision + 1];
      router := Some(change.router);
    }

    method ClearRouterOverride(id: Id)
      modifies this
      ensures View() == Clear(env, old(View()), id)
    {
      var c := Canonical(env, id);
      var revision := Revision(View(), c);
      overrides := overrides - {c};
      InvalidateRouterCache(c);
      revisions := revisions[c := revision + 1];
    }

    method InvalidateRouterCache(c: Id)
      modifies this`cache
      ensures cache == Evict(env, old(cache), c)
    {
      cache := cache - {c};
      var left := env.aliases.Keys;
      while left != {}
        invariant left <= env.aliases.Keys
        invariant cache == map k | k in old(cache) && k != c
                  && !(k in env.aliases && k !in left && env.aliases[k] == c) :: old(cache)[k]
      {
        var alias :| alias in left;
        if env.aliases[alias] == c {
          cache := cache - {alias};
        }
        left := left - {alias};
      }
    }
  }

  // ----- when entries stay put

  /** Canonical ids are their own canonical id, and none of them is an alias of another. */
  ghost predicate Coherent(env: Env) {
    && (forall id :: Canonical(env, Canonical(env, id)) == Canonical(env, id))
    && (forall a :: a in env.aliases && IsCanonical(env, a) && IsCanonical(env, env.aliases[a]) ==> env.aliases[a] == a)
  }

  /** Some id resolves to `c`. */
  ghost predicate IsCanonical(env: Env, c: Id) { exists id :: Canonical(env, id) == c }

  datatype Event =
    | Look(id: Id, built: Option<Router>)
    | Propose(id: Id, strategy: Option<Strategy>, current: Option<Router>, candidate: Option<Router>)
    | Publish(change: Change)
    | Reset(id: Id)

  function Step(env: Env, r: Registry, e: Event): Registry {
    match e
    case Look(id, built) => Lookup(env, r, id, built).0
    case Propose(id, strategy, current, candidate) => Prepare(env, r, id, strategy, current, candidate).0
    case Publish(change) => Commit(env, r, change)
    case Reset(id) => Clear(env, r, id)
  }

  /** The event publishes or clears model `c`. */
  predicate Replaces(env: Env, r: Registry, e: Event, c: Id) {
    (e.Publish? && Fresh(env, r, e.change) && e.change.canonical == c) || (e.Reset? && Canonical(env, e.id) == c)
  }

  ghost predicate Standing(r: Registry, c: Id, router: Router) { c in r.cache && r.cache[c] == router }

  /** This registry's own changes name canonical ids. */
  ghost predicate Sane(env: Env, e: Event) {
    e.Publish? && e.change.identity == env.identity ==> IsCanonical(env, e.change.canonical)
  }

  lemma EntrySurvives(env: Env, r: Registry, e: Event, c: Id, router: Router)
    requires Coherent(env) && Sane(env, e) && IsCanonical(env, c) && Standing(r, c, router) && !Replaces(env, r, e, c)
    ensures Standing(Step(env, r, e), c, router)
  {
    var id0 :| Canonical(env, id0) == c;
    assert Canonical(env, c) == c;
    match e
    case Look(id, built) =>
    case Propose(id, strategy, current, candidate) =>
      assert Canonical(env, Canonical(env, id)) == Canonical(env, id);
    case Publish(change) =>
    case Reset(id) =>
      assert IsCanonical(env, Canonical(env, id));
  }

  // ----- whole runs

  ghost function RegistryAt(env: Env, run: seq<Event>, n: nat): Registry
    requires n <= |run|
  {
    if n == 0 then EMPTY else Step(env, RegistryAt(env, run, n - 1), run[n - 1])
  }

  ghost predicate PreparedAt(env: Env, run: seq<Event>, m: nat, change: Change)
    requires m < |run|
  {
    run[m].Propose? && Prepare(env, RegistryAt(env, run, m), run[m].id, run[m].strategy, run[m].current,
                               run[m].candidate).1 == Some(change)
  }

  /** Whatever is published was prepared earlier in the run, or by another registry. */
  ghost predicate Honest(env: Env, run: seq<Event>) {
    forall n :: 0 <= n < |run| && run[n].Publish? && run[n].change.identity == env.identity ==>
      exists m: nat :: m < n && PreparedAt(env, run, m, run[n].change)
  }

  ghost predicate Committed(env: Env, run: seq<Event>, n: nat, c: Id)
    requires n < |run|
  {
    run[n].Publish? && run[n].change.canonical == c && Fresh(env, RegistryAt(env, run, n), run[n].change)
  }

  lemma HonestIsSane(env: Env, run: seq<Event>, n: nat)
    requires Honest(env, run) && n < |run|
    ensures Sane(env, run[n])
  {
    if run[n].Publish? && run[n].change.identity == env.identity {
      var m: nat :| m < n && PreparedAt(env, run, m, run[n].change);
      assert Canonical(env, run[m].id) == run[n].change.canonical;
    }
  }

  lemma {:induction false} RevisionNeverFalls(env: Env, run: seq<Event>, i: nat, j: nat, c: Id)
    requires i <= j <= |run|
    ensures Revision(RegistryAt(env, run, i), c) <= Revision(RegistryAt(env, run, j), c)
  {
    hide Step;
    if i < j {
      RevisionNeverFalls(env, run, i, j - 1, c);
      StepMovesOn(env, RegistryAt(env, run, j - 1), run[j - 1], c);
    }
  }

  lemma StepMovesOn(env: Env, r: Registry, e: Event, c: Id)
    ensures Revision(r, c) <= Revision(Step(env, r, e), c)
  {
    hide Evict;
  }

  /** Successful commits for one model carry strictly rising revisions: of all the changes prepared at one
      revision, at most one ever commits, and no change commits twice. */
  lemma CommitsRise(env: Env, run: seq<Event>, i: nat, j: nat, c: Id)
    requires i < j < |run| && Committed(env, run, i, c) && Committed(env, run, j, c)
    ensures run[i].change.revision < run[j].change.revision
  {
    assert Revision(RegistryAt(env, run, i + 1), c) == run[i].change.revision + 1;
    RevisionNeverFalls(env, run, i + 1, j, c);
  }

  lemma {:induction false} StandingPersists(env: Env, run: seq<Event>, i: nat, j: nat, c: Id, router: Router)
    requires Coherent(env) && Honest(env, run) && IsCanonical(env, c) && i <= j <= |run|
    requires Standing(RegistryAt(env, run, i), c, router)
    requires forall k :: i <= k < j ==> !Replaces(env, RegistryAt(env, run, k), run[k], c)
    ensures Standing(RegistryAt(env, run, j), c, router)
  {
    hide Coherent, Honest, IsCanonical, Replaces, Standing, Step;
    if i < j {
      StandingPersists(env, run, i, j - 1, c, router);
      HonestIsSane(env, run, j - 1);
      EntrySurvives(env, RegistryAt(env, run, j - 1), run[j - 1], c, router);
    }
  }

  lemma ReplacingMovesOn(env: Env, r: Registry, e: Event, c: Id)
    requires Replaces(env, r, e, c)
    ensures Revision(Step(env, r, e), c) == Revision(r, c) + 1
  {
  }

  lemma PreparingLeavesStanding(env: Env, r: Registry, e: Event, change: Change)
    requires Coherent(env) && e.Propose? && Prepare(env, r, e.id, e.strategy, e.current, e.candidate).1 == Some(change)
    ensures IsCanonical(env, change.canonical) && Standing(Step(env, r, e), change.canonical, change.previousRouter)
    ensures Revision(Step(env, r, e), change.canonical) == change.revision
  {
    assert Canonical(env, e.id) == change.canonical;
    assert Canonical(env, change.canonical) == change.canonical;
  }

  lemma ReplacedMeansMoved(env: Env, run: seq<Event>, i: nat, k: nat, j: nat, c: Id)
    requires i <= k < j <= |run| && Replaces(env, RegistryAt(env, run, k), run[k], c)
    ensures Revision(RegistryAt(env, run, i), c) < Revision(RegistryAt(env, run, j), c)
  {
    RevisionNeverFalls(env, run, i, k, c);
    ReplacingMovesOn(env, RegistryAt(env, run, k), run[k], c);
    RevisionNeverFalls(env, run, k + 1, j, c);
  }

  /** While a model's revision has not moved, nothing has replaced its router. */
  lemma UnmovedIsUnreplaced(env: Env, run: seq<Event>, i: nat, j: nat, c: Id)
    requires i <= j <= |run| && Revision(RegistryAt(env, run, i), c) == Revision(RegistryAt(env, run, j), c)
    ensures forall k :: i <= k < j ==> !Replaces(env, RegistryAt(env, run, k), run[k], c)
  {
    if k :| i <= k < j && Replaces(env, RegistryAt(env, run, k), run[k], c) {
      ReplacedMeansMoved(env, run, i, k, j, c);
    }
  }

  /** A change that commits replaces exactly the router it was prepared against. */
  lemma CommitReplacesItsPreparation(env: Env, run: seq<Event>, n: nat, c: Id)
    requires Coherent(env) && Honest(env, run) && n < |run| && Committed(env, run, n, c)
    ensures Standing(RegistryAt(env, run, n), c, run[n].change.previousRouter)
  {
    hide Prepare, Lookup, Commit, Clear;
    var change := run[n].change;
    var m: nat :| m < n && PreparedAt(env, run, m, change);
    PreparingLeavesStanding(env, RegistryAt(env, run, m), run[m], change);
    UnmovedIsUnreplaced(env, run, m + 1, n, c);
    StandingPersists(env, run, m + 1, n, c, change.previousRouter);
  }

  /** Until the model's next commit or clear, every lookup of it, by its own id or any alias, gives the
      committed router. */
  lemma CommittedRouterServes(env: Env, run: seq<Event>, i: nat, j: nat, c: Id, id: Id, built: Option<Router>)
    requires Coherent(env) && Honest(env, run) && i < j <= |run| && Committed(env, run, i, c)
    requires forall k :: i < k < j ==> !Replaces(env, RegistryAt(env, run, k), run[k], c)
    requires Canonical(env, id) == c
    ensures Lookup(env, RegistryAt(env, run, j), id, built).1 == Some(run[i].change.router)
  {
    assert Standing(RegistryAt(env, run, i + 1), c, run[i].change.router);
    StandingPersists(env, run, i + 1, j, c, run[i].change.router);
  }

  // ----- which strategy is in force

  lemma OverrideStays(env: Env, r: Registry, e: Event, c: Id)
    requires !Replaces(env, r, e, c)
    ensures Find(Step(env, r, e).overrides, c) == Find(r.overrides, c)
  {
  }

  lemma {:induction false} OverridePersists(env: Env, run: seq<Event>, i: nat, j: nat, c: Id)
    requires i <= j <= |run|
    requires forall k :: i <= k < j ==> !Replaces(env, RegistryAt(env, run, k), run[k], c)
    ensures Find(RegistryAt(env, run, j).overrides, c) == Find(RegistryAt(env, run, i).overrides, c)
  {
    hide Replaces, Step;
    if i < j {
      OverridePersists(env, run, i, j - 1, c);
      OverrideStays(env, RegistryAt(env, run, j - 1), run[j - 1], c);
    }
  }

  /** Once a proposed strategy is committed it is the model's strategy, under whichever id it was proposed, until the
      model's next commit or clear; proposing none, or an empty name, goes back to the configured one. */
  lemma CommittedStrategyRules(env: Env, run: seq<Event>, m: nat, i: nat, j: nat, c: Id)
    requires m < i < j <= |run| && Committed(env, run, i, c) && PreparedAt(env, run, m, run[i].change)
    requires forall k :: i < k < j ==> !Replaces(env, RegistryAt(env, run, k), run[k], c)
    ensures var id, wanted := run[m].id, run[m].strategy;
            StrategyName(env, RegistryAt(env, run, j), id) ==
            if wanted.Some? && wanted.value != "" then wanted.value else env.configured(c, id)
  {
    hide Lookup, Replaces, RegistryAt, Evict, Bump;
    NextRegistry(env, run, i);
    OverridePersists(env, run, i + 1, j, c);
  }

  lemma NextRegistry(env: Env, run: seq<Event>, i: nat)
    requires i < |run|
    ensures RegistryAt(env, run, i + 1) == Step(env, RegistryAt(env, run, i), run[i])
  {
  }

  /** After a clear the configured strategy is in force. */
  lemma ClearedStrategyIsConfigured(env: Env, run: seq<Event>, i: nat, j: nat, c: Id, id: Id)
    requires i < j <= |run| && run[i].Reset? && Canonical(env, run[i].id) == c && Canonical(env, id) == c
    requires forall k :: i < k < j ==> !Replaces(env, RegistryAt(env, run, k), run[k], c)
    ensures StrategyName(env, RegistryAt(env, run, j), id) == env.configured(c, id)
  {
    hide Replaces, RegistryAt, Evict, Bump;
    NextRegistry(env, run, i);
    OverridePersists(env, run, i + 1, j, c);
  }

  /** A prepared change runs the model's own router when its strategy is already in force, and the new one otherwise. */
  lemma UnchangedStrategyKeepsRouter(env: Env, r: Registry, id: Id, strategy: Option<Strategy>, current: Option<Router>,
                                     candidate: Option<Router>, change: Change)
    requires Prepare(env, r, id, strategy, current, candidate).1 == Some(change)
    ensures change.strategy == if strategy.None? then env.configured(Canonical(env, id), id) else strategy.value
    ensures var after := Prepare(env, r, id, strategy, current, candidate).0;
            if change.strategy == StrategyName(env, after, change.canonical) then change.router == change.previousRouter
            else candidate == Some(change.router)
  {
  }

  // ----- exactly the coherent configurations keep the protocol's promises

  /** From commit `i` on, until the model's next commit or clear, lookups give the committed router. */
  ghost predicate ServesAt(env: Env, run: seq<Event>, i: nat, j: nat, c: Id, id: Id, built: Option<Router>) {
    && Honest(env, run) && i < j <= |run| && Committed(env, run, i, c) && Canonical(env, id) == c
    && (forall k :: i < k < j ==> !Replaces(env, RegistryAt(env, run, k), run[k], c))
    ==> Lookup(env, RegistryAt(env, run, j), id, built).1 == Some(run[i].change.router)
  }

  /** Commit `n` replaces the router it was prepared against. */
  ghost predicate ReplacesOwnAt(env: Env, run: seq<Event>, n: nat, c: Id) {
    Honest(env, run) && n < |run| && Committed(env, run, n, c) ==>
      Standing(RegistryAt(env, run, n), c, run[n].change.previousRouter)
  }

  ghost predicate AlwaysServes(env: Env) { forall run, i, j, c, id, built :: ServesAt(env, run, i, j, c, id, built) }

  ghost predicate AlwaysReplacesOwn(env: Env) { forall run, n, c :: ReplacesOwnAt(env, run, n, c) }

  /** Over all honest runs, each promise holds for exactly the coherent configurations. */
  lemma ProtocolHoldsIffCoherent(env: Env)
    ensures AlwaysServes(env) <==> Coherent(env)
    ensures AlwaysReplacesOwn(env) <==> Coherent(env)
  {
    hide ServesAt, ReplacesOwnAt;
    if Coherent(env) {
      forall run, i, j, c, id, built ensures ServesAt(env, run, i, j, c, id, built) {
        CoherentServes(env, run, i, j, c, id, built);
      }
      forall run, n, c ensures ReplacesOwnAt(env, run, n, c) {
        CoherentReplaces(env, run, n, c);
      }
    } else if x :| Canonical(env, Canonical(env, x)) != Canonical(env, x) {
      RenamedEntryIsLost(env, x);
      RenamedEntryIsReplaced(env, x);
    } else {
      var a :| a in env.aliases && IsCanonical(env, a) && IsCanonical(env, env.aliases[a]) && env.aliases[a] != a;
      AliasedEntryIsLost(env, a);
      AliasedEntryIsGone(env, a);
    }
  }

  lemma CoherentServes(env: Env, run: seq<Event>, i: nat, j: nat, c: Id, id: Id, built: Option<Router>)
    requires Coherent(env)
    ensures ServesAt(env, run, i, j, c, id, built)
  {
    hide Coherent, Honest, Committed;
    if Honest(env, run) && i < j <= |run| && Committed(env, run, i, c) && Canonical(env, id) == c
       && forall k :: i < k < j ==> !Replaces(env, RegistryAt(env, run, k), run[k], c) {
      CommittedRouterServes(env, run, i, j, c, id, built);
    }
  }

  lemma CoherentReplaces(env: Env, run: seq<Event>, n: nat, c: Id)
    requires Coherent(env)
    ensures ReplacesOwnAt(env, run, n, c)
  {
    hide Coherent, Honest;
    if Honest(env, run) && n < |run| && Committed(env, run, n, c) {
      CommitReplacesItsPreparation(env, run, n, c);
    }
  }

  /** A strategy that is nobody's configured one here. */
  function Another(env: Env, x: Id): Strategy {
    var c := Canonical(env, x);
    env.configured(c, x) + env.configured(Canonical(env, c), c) + "+"
  }

  /** Propose a change of `x`'s strategy on a fresh registry: router 0 is current, router 1 the candidate. */
  function Proposal(env: Env, x: Id): Event { Propose(x, Some(Another(env, x)), Some(0), Some(1)) }

  function Proposed(env: Env, x: Id): Change {
    Change(Canonical(env, x), Another(env, x), Some(Another(env, x)), None, 0, 1, 0, env.identity)
  }

  lemma ProposalIs(env: Env, x: Id)
    ensures var c := Canonical(env, x);
            Prepare(env, EMPTY, x, Some(Another(env, x)), Some(0), Some(1))
            == (EMPTY.(cache := map[Canonical(env, c) := 0, c := 0]), Some(Proposed(env, x)))
  {
    var c := Canonical(env, x);
    assert |Another(env, x)| > |env.configured(c, x)| && |Another(env, x)| > |env.configured(Canonical(env, c), c)|;
  }

  /** A run that starts with that proposal and publishes nothing else is honest. */
  lemma ProposalIsHonest(env: Env, run: seq<Event>, x: Id)
    requires run != [] && run[0] == Proposal(env, x)
    requires forall n :: 0 < n < |run| && run[n].Publish? ==> run[n].change == Proposed(env, x)
    ensures Honest(env, run) && RegistryAt(env, run,
                                           1) == EMPTY.(cache := map[Canonical(env, Canonical(env, x)) := 0,
                                                                     Canonical(env, x) := 0])
  {
    ProposalIs(env, x);
    assert RegistryAt(env, run, 0) == EMPTY;
    assert PreparedAt(env, run, 0, Proposed(env, x));
  }

  /** A canonical id that resolves further is overwritten by a lookup of itself. */
  lemma RenamedEntryIsLost(env: Env, x: Id)
    requires Canonical(env, Canonical(env, x)) != Canonical(env, x)
    ensures !AlwaysServes(env)
  {
    var c := Canonical(env, x);
    var run := [Proposal(env, x), Publish(Proposed(env, x)), Look(c, Some(2))];
    ProposalIsHonest(env, run, x);
    var r1, r2, r3 := RegistryAt(env, run, 1), RegistryAt(env, run, 2), RegistryAt(env, run, 3);
    assert r2 == Commit(env, r1, Proposed(env, x)) && r3 == Lookup(env, r2, c, Some(2)).0;
    assert Committed(env, run, 1, c);
    assert c in r3.cache && r3.cache[c] != 1;
    assert !ServesAt(env, run, 1, 3, c, x, None);
  }

  /** And replaced before its own commit. */
  lemma RenamedEntryIsReplaced(env: Env, x: Id)
    requires Canonical(env, Canonical(env, x)) != Canonical(env, x)
    ensures !AlwaysReplacesOwn(env)
  {
    var c := Canonical(env, x);
    var run := [Proposal(env, x), Reset(c), Look(c, Some(2)), Publish(Proposed(env, x))];
    ProposalIsHonest(env, run, x);
    var r1, r2, r3 := RegistryAt(env, run, 1), RegistryAt(env, run, 2), RegistryAt(env, run, 3);
    assert r2 == Clear(env, r1, c) && r3 == Lookup(env, r2, c, Some(2)).0;
    assert r3.cache[c] == 2;
    assert Committed(env, run, 3, c);
    assert !ReplacesOwnAt(env, run, 3, c);
  }

  /** A canonical id that is also an alias of another is evicted when the other is cleared. */
  lemma AliasedEntryIsLost(env: Env, a: Id)
    requires a in env.aliases && IsCanonical(env, a) && IsCanonical(env, env.aliases[a]) && env.aliases[a] != a
    requires forall id :: Canonical(env, Canonical(env, id)) == Canonical(env, id)
    ensures !AlwaysServes(env)
  {
    var t := env.aliases[a];
    assert Canonical(env, a) == a && Canonical(env, t) == t;
    var run := [Proposal(env, a), Publish(Proposed(env, a)), Reset(t)];
    ProposalIsHonest(env, run, a);
    var r1, r2, r3 := RegistryAt(env, run, 1), RegistryAt(env, run, 2), RegistryAt(env, run, 3);
    assert r2 == Commit(env, r1, Proposed(env, a)) && r3 == Clear(env, r2, t);
    assert Committed(env, run, 1, a);
    assert a !in r3.cache;
    assert !ServesAt(env, run, 1, 3, a, a, Some(5));
  }

  /** And gone before its own commit. */
  lemma AliasedEntryIsGone(env: Env, a: Id)
    requires a in env.aliases && IsCanonical(env, a) && IsCanonical(env, env.aliases[a]) && env.aliases[a] != a
    requires forall id :: Canonical(env, Canonical(env, id)) == Canonical(env, id)
    ensures !AlwaysReplacesOwn(env)
  {
    var t := env.aliases[a];
    assert Canonical(env, a) == a && Canonical(env, t) == t;
    var run := [Proposal(env, a), Reset(t), Publish(Proposed(env, a))];
    ProposalIsHonest(env, run, a);
    var r1, r2 := RegistryAt(env, run, 1), RegistryAt(env, run, 2);
    assert r2 == Clear(env, r1, t);
    assert Committed(env, run, 2, a);
    assert !ReplacesOwnAt(env, run, 2, a);
  }
}

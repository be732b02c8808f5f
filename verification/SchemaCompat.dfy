/** The database's schema revision and compatibility floor, moved by images of different ages. */
module SchemaCompat {
  import opened Options

  type Id = string

  /** A revision and the floors its upgrade declares, in order. */
  datatype Revision = Revision(id: Id, floors: seq<Id>)

  /** What the database records. */
  datatype Schema = Schema(revision: Option<Id>, floor: Option<Id>)

  const UNMIGRATED := Schema(None, None)

  function IdsOf(h: seq<Revision>): (ids: seq<Id>)
    ensures |ids| == |h| && forall i :: 0 <= i < |h| ==> ids[i] == h[i].id
  {
    seq(|h|, i requires 0 <= i < |h| => h[i].id)
  }

  /** One line of revisions. An image's chain is a non-empty prefix of it. */
  ghost predicate Line(h: seq<Revision>) {
    forall i, j :: 0 <= i < j < |h| ==> h[i].id != h[j].id
  }

  function IndexOf(chain: seq<Id>, id: Id): (i: nat)
    requires id in chain
    ensures i < |chain| && chain[i] == id && forall k :: 0 <= k < i ==> chain[k] != id
  {
    if chain[0] == id then 0 else 1 + IndexOf(chain[1..], id)
  }

  // ----- the verdict

  datatype Verdict = Current | NewerCompatible | NotMigrated | Behind | TooNew

  function Judge(s: Schema, chain: seq<Id>): Verdict
    requires chain != []
  {
    if s.revision.None? then NotMigrated
    else if s.revision.value == chain[|chain| - 1] then Current
    else if s.revision.value in chain then Behind
    else if s.floor.None? || s.floor.value in chain then NewerCompatible
    else TooNew
  }

  predicate Starts(s: Schema, chain: seq<Id>)
    requires chain != []
  {
    Judge(s, chain).Current? || Judge(s, chain).NewerCompatible?
  }

  // ----- raising the floor

  predicate Declarable(chain: seq<Id>, oldest: Id, setter: Id) {
    oldest in chain && setter in chain && IndexOf(chain, oldest) < IndexOf(chain, setter)
  }

  function Raised(chain: seq<Id>, floor: Option<Id>, oldest: Id): Option<Id>
    requires oldest in chain
  {
    if floor.Some? && floor.value in chain && IndexOf(chain, floor.value) >= IndexOf(chain, oldest) then floor
    else Some(oldest)
  }

  /** The floor after the first `n` declarations of revision `r`; `None` when one of them is refused. */
  function FloorAfter(chain: seq<Id>, floor: Option<Id>, r: Revision, n: nat): Option<Option<Id>>
    requires n <= |r.floors|
  {
    if n == 0 then Some(floor)
    else
      var before := FloorAfter(chain, floor, r, n - 1);
      if before.None? || !Declarable(chain, r.floors[n - 1], r.id) then None
      else Some(Raised(chain, before.value, r.floors[n - 1]))
  }

  /** The next revision of an image's history `code`, if the database is somewhere before its head. */
  function NextIndex(code: seq<Revision>, s: Schema): Option<nat> {
    var chain := IdsOf(code);
    if s.revision.None? then (if code == [] then None else Some(0))
    else if s.revision.value !in chain then None
    else if IndexOf(chain, s.revision.value) + 1 < |chain| then Some(IndexOf(chain, s.revision.value) + 1)
    else None
  }

  /** One revision, applied by an image with history `code` and committed as a whole or not at all. */
  function Applied(code: seq<Revision>, s: Schema): Schema {
    var next := NextIndex(code, s);
    if next.None? || next.value >= |code| then s
    else
      var r := code[next.value];
      var floor := FloorAfter(IdsOf(code), s.floor, r, |r.floors|);
      if floor.None? then s else Schema(Some(r.id), floor.value)
  }

  /** The two rows the database keeps. */
  class Database {
    var revision: Option<Id>
    var floor: Option<Id>

    function View(): Schema
      reads this
    {
      Schema(revision, floor)
    }

    constructor ()
      ensures View() == UNMIGRATED
    {
      revision, floor := None, None;
    }

    /** False when the declaration is refused. */
    method RaiseCompatFloor(chain: seq<Id>, oldest: Id, setter: Id) returns (ok: bool)
      modifies this`floor
      ensures ok <==> Declarable(chain, oldest, setter)
      ensures floor == if ok then Raised(chain, old(floor), oldest) else old(floor)
    {
      if oldest !in chain || setter !in chain || IndexOf(chain, oldest) >= IndexOf(chain, setter) { return false; }
      if floor.Some? && floor.value in chain && IndexOf(chain, floor.value) >= IndexOf(chain, oldest) { return true; }
      floor := Some(oldest);
      ok := true;
    }

    /** Apply the next revision in one transaction; a refused declaration rolls it back. */
    method ApplyNext(code: seq<Revision>)
      modifies this
      ensures View() == Applied(code, old(View()))
    {
      hide NextIndex, Declarable, Raised, IdsOf;
      var next := NextIndex(code, View());
      if next.None? || next.value >= |code| { return; }
      var r, chain, before := code[next.value], IdsOf(code), floor;
      for i := 0 to |r.floors|
        invariant FloorAfter(chain, before, r, i) == Some(floor) && revision == old(revision)
      {
        var ok := RaiseCompatFloor(chain, r.floors[i], r.id);
        if !ok {
          floor := before;
          RefusalLasts(chain, before, r, i + 1, |r.floors|);
          return;
        }
      }
      revision := Some(r.id);
    }

    method RequireSchema(chain: seq<Id>) returns (accepted: bool)
      requires chain != []
      ensures accepted <==> Starts(View(), chain)
    {
      var verdict := Judge(View(), chain);
      accepted := verdict.Current? || verdict.NewerCompatible?;
    }
  }

  lemma {:induction false} RefusalLasts(chain: seq<Id>, floor: Option<Id>, r: Revision, i: nat, n: nat)
    requires i <= n <= |r.floors| && FloorAfter(chain, floor, r, i).None?
    ensures FloorAfter(chain, floor, r, n).None?
  {
    if i < n {
      RefusalLasts(chain, floor, r, i, n - 1);
    }
  }

  // ----- whole runs

  /** At each step some image, known by the length of its chain, applies one revision. */
  ghost function SchemaAt(h: seq<Revision>, run: seq<nat>, n: nat): Schema
    requires n <= |run| && forall i :: 0 <= i < |run| ==> run[i] <= |h|
  {
    if n == 0 then UNMIGRATED else Applied(h[..run[n - 1]], SchemaAt(h, run, n - 1))
  }

  /** `id`'s place in the history. */
  ghost function Place(h: seq<Revision>, id: Id): nat
    requires id in IdsOf(h)
  {
    IndexOf(IdsOf(h), id)
  }

  lemma PlaceIs(h: seq<Revision>, n: nat, id: Id)
    requires Line(h) && n <= |h|
    ensures id in IdsOf(h[..n]) <==> id in IdsOf(h) && Place(h, id) < n
    ensures id in IdsOf(h[..n]) ==> IndexOf(IdsOf(h[..n]), id) == Place(h, id)
  {
    var part, whole := IdsOf(h[..n]), IdsOf(h);
    assert forall i :: 0 <= i < n ==> part[i] == whole[i];
    if id in part {
      assert whole[IndexOf(part, id)] == id;
    }
  }

  /** Declaration `d` of revision `r` names a revision before it. */
  ghost predicate Earlier(h: seq<Revision>, r: nat, d: nat)
    requires r < |h| && d < |h[r].floors|
  {
    h[r].floors[d] in IdsOf(h) && Place(h, h[r].floors[d]) < r
  }

  ghost predicate AtLeast(h: seq<Revision>, floor: Option<Id>, id: Id)
    requires id in IdsOf(h)
  {
    floor.Some? && floor.value in IdsOf(h) && Place(h, id) <= Place(h, floor.value)
  }

  /** Declaration `d` of revision `r` is among those of the first `k` revisions and the first `m` of the next. */
  ghost predicate Made(h: seq<Revision>, k: nat, m: nat, r: nat, d: nat) {
    r < |h| && d < |h[r].floors| && (r < k || (r == k && d < m))
  }

  /** The floor is one of the declarations made, and no lower than any of them. */
  ghost predicate Topmost(h: seq<Revision>, k: nat, m: nat, floor: Option<Id>) {
    && (forall r: nat, d: nat :: Made(h, k, m, r, d) ==> Earlier(h, r, d) && AtLeast(h, floor, h[r].floors[d]))
    && (floor.Some? ==> exists r: nat, d: nat :: Made(h, k, m, r, d) && h[r].floors[d] == floor.value)
  }

  /** Where the database is once `k` revisions are in. */
  ghost predicate Reached(h: seq<Revision>, k: nat, s: Schema) {
    && k <= |h|
    && s.revision == (if k == 0 then None else Some(h[k - 1].id))
    && Topmost(h, k, 0, s.floor)
  }

  lemma FloorIsEarlier(h: seq<Revision>, k: nat, m: nat, floor: Option<Id>)
    requires Topmost(h, k, m, floor) && k <= |h| && (k == |h| ==> m == 0)
    ensures floor.Some? ==>
              floor.value in IdsOf(h) && Place(h, floor.value) < k && (m == 0 ==> Place(h, floor.value) < k - 1)
  {
  }

  /** Where the ids a declaration compares stand in the image's chain. */
  lemma ChainPlaces(h: seq<Revision>, n: nat, k: nat, m: nat, floor: Option<Id>)
    requires Line(h) && k < n <= |h| && m < |h[k].floors| && Topmost(h, k, m, floor)
    requires Declarable(IdsOf(h[..n]), h[k].floors[m], h[k].id)
    ensures Earlier(h, k, m)
    ensures floor.Some? ==> floor.value in IdsOf(h)
    ensures Raised(IdsOf(h[..n]), floor, h[k].floors[m]) ==
            if floor.Some? && Place(h, floor.value) >= Place(h, h[k].floors[m]) then floor else Some(h[k].floors[m])
  {
    PlaceIs(h, n, h[k].floors[m]);
    PlaceIs(h, n, h[k].id);
    assert IdsOf(h)[k] == h[k].id;
    assert Place(h, h[k].id) == k;
    FloorIsEarlier(h, k, m, floor);
    if floor.Some? {
      PlaceIs(h, n, floor.value);
    }
  }

  lemma DeclarationRaises(h: seq<Revision>, n: nat, k: nat, m: nat, floor: Option<Id>)
    requires Line(h) && k < n <= |h| && m < |h[k].floors| && Topmost(h, k, m, floor)
    requires Declarable(IdsOf(h[..n]), h[k].floors[m], h[k].id)
    ensures Topmost(h, k, m + 1, Raised(IdsOf(h[..n]), floor, h[k].floors[m]))
  {
    ChainPlaces(h, n, k, m, floor);
    HigherIsTopmost(h, k, m, floor, Raised(IdsOf(h[..n]), floor, h[k].floors[m]));
  }

  /** The higher of the floor so far and one more declaration. */
  lemma HigherIsTopmost(h: seq<Revision>, k: nat, m: nat, floor: Option<Id>, after: Option<Id>)
    requires k < |h| && m < |h[k].floors| && Topmost(h, k, m, floor) && Earlier(h, k, m)
    requires floor.Some? ==> floor.value in IdsOf(h)
    requires after == if floor.Some? && Place(h, floor.value) >= Place(h, h[k].floors[m]) then floor
             else Some(h[k].floors[m])
    ensures Topmost(h, k, m + 1, after)
  {
    forall r: nat, d: nat | Made(h, k, m + 1, r, d) ensures Earlier(h, r, d) && AtLeast(h, after, h[r].floors[d]) {
      if Made(h, k, m, r, d) {
        assert AtLeast(h, floor, h[r].floors[d]);
      }
    }
    if after == Some(h[k].floors[m]) {
      assert Made(h, k, m + 1, k, m);
    } else {
      var r: nat, d: nat :| Made(h, k, m, r, d) && h[r].floors[d] == floor.value;
      assert Made(h, k, m + 1, r, d);
    }
  }

  lemma NextDeclarationRaises(h: seq<Revision>, n: nat, k: nat, m: nat, floor: Option<Id>)
    requires Line(h) && k < n <= |h| && m < |h[k].floors|
    requires var before := FloorAfter(IdsOf(h[..n]), floor, h[k], m); before.Some? ==> Topmost(h, k, m, before.value)
    ensures var after := FloorAfter(IdsOf(h[..n]), floor, h[k], m + 1); after.Some? ==>
            Topmost(h, k, m + 1, after.value)
  {
    var before := FloorAfter(IdsOf(h[..n]), floor, h[k], m);
    if before.Some? && Declarable(IdsOf(h[..n]), h[k].floors[m], h[k].id) {
      DeclarationRaises(h, n, k, m, before.value);
    }
  }

  lemma {:induction false} RevisionRaises(h: seq<Revision>, n: nat, k: nat, m: nat, floor: Option<Id>)
    requires Line(h) && k < n <= |h| && m <= |h[k].floors| && Topmost(h, k, 0, floor)
    ensures var after := FloorAfter(IdsOf(h[..n]), floor, h[k], m); after.Some? ==> Topmost(h, k, m, after.value)
  {
    hide Topmost;
    if m > 0 {
      RevisionRaises(h, n, k, m - 1, floor);
      NextDeclarationRaises(h, n, k, m - 1, floor);
    }
  }

  /** The next revision to apply is the one after those already in, if the image knows it. */
  lemma NextIsNext(h: seq<Revision>, n: nat, k: nat, s: Schema)
    requires Line(h) && n <= |h| && k <= |h| && s.revision == (if k == 0 then None else Some(h[k - 1].id))
    ensures NextIndex(h[..n], s) == if k < n then Some(k) else None
  {
    if k > 0 {
      assert IdsOf(h)[k - 1] == h[k - 1].id;
      assert Place(h, h[k - 1].id) == k - 1;
      PlaceIs(h, n, h[k - 1].id);
    }
  }

  lemma AllDeclarationsMade(h: seq<Revision>, k: nat, floor: Option<Id>)
    requires k < |h| && Topmost(h, k, |h[k].floors|, floor)
    ensures Topmost(h, k + 1, 0, floor)
  {
    var m := |h[k].floors|;
    assert forall r: nat, d: nat :: Made(h, k + 1, 0, r, d) ==> Made(h, k, m, r, d);
    assert forall r: nat, d: nat :: Made(h, k, m, r, d) ==> Made(h, k + 1, 0, r, d);
  }

  /** One step by an image with `n` revisions: nothing happens, or the next revision is in. */
  lemma StepReaches(h: seq<Revision>, n: nat, k: nat, s: Schema)
    requires Line(h) && n <= |h| && Reached(h, k, s)
    ensures Applied(h[..n], s) == s || (k < n && Reached(h, k + 1, Applied(h[..n], s)))
  {
    hide Topmost, FloorAfter, NextIndex;
    NextIsNext(h, n, k, s);
    if k < n {
      assert h[..n][k] == h[k];
      RevisionRaises(h, n, k, |h[k].floors|, s.floor);
      var floor := FloorAfter(IdsOf(h[..n]), s.floor, h[k], |h[k].floors|);
      if floor.Some? {
        AllDeclarationsMade(h, k, floor.value);
      }
    }
  }

  lemma NothingReached(h: seq<Revision>)
    ensures Reached(h, 0, UNMIGRATED)
  {
  }

  /** Every run of every mix of images leaves the database after some number of revisions. */
  lemma {:induction false} RunReaches(h: seq<Revision>, run: seq<nat>, n: nat) returns (k: nat)
    requires Line(h) && n <= |run| && forall i :: 0 <= i < |run| ==> run[i] <= |h|
    ensures Reached(h, k, SchemaAt(h, run, n))
  {
    hide Reached, Applied;
    if n == 0 {
      k := 0;
      NothingReached(h);
    } else {
      k := RunReaches(h, run, n - 1);
      StepReaches(h, run[n - 1], k, SchemaAt(h, run, n - 1));
      if SchemaAt(h, run, n) != SchemaAt(h, run, n - 1) {
        k := k + 1;
      }
    }
  }

  /** The floor a database records is always a revision strictly before the one it is at. */
  lemma FloorStaysBelowRevision(h: seq<Revision>, run: seq<nat>, n: nat)
    requires Line(h) && n <= |run| && forall i :: 0 <= i < |run| ==> run[i] <= |h|
    ensures var s := SchemaAt(h, run, n);
            s.floor.Some? ==> s.revision.Some? && s.revision.value in IdsOf(h) && s.floor.value in IdsOf(h)
                              && Place(h, s.floor.value) < Place(h, s.revision.value)
  {
    var k := RunReaches(h, run, n);
    FloorIsEarlier(h, k, 0, SchemaAt(h, run, n).floor);
    if k > 0 {
      assert IdsOf(h)[k - 1] == h[k - 1].id;
      assert Place(h, h[k - 1].id) == k - 1;
    }
  }

  /** `b`'s floor is no lower than `a`'s. */
  ghost predicate NoLower(h: seq<Revision>, a: Option<Id>, b: Option<Id>) {
    a.Some? ==> a.value in IdsOf(h) && AtLeast(h, b, a.value)
  }

  lemma StepRaises(h: seq<Revision>, n: nat, k: nat, s: Schema)
    requires Line(h) && n <= |h| && Reached(h, k, s)
    ensures NoLower(h, s.floor, Applied(h[..n], s).floor)
  {
    StepReaches(h, n, k, s);
    FloorIsEarlier(h, k, 0, s.floor);
    if Applied(h[..n], s) != s && s.floor.Some? {
      var r: nat, d: nat :| Made(h, k, 0, r, d) && h[r].floors[d] == s.floor.value;
      assert Made(h, k + 1, 0, r, d);
    }
  }

  lemma NoLowerTransitive(h: seq<Revision>, a: Option<Id>, b: Option<Id>, c: Option<Id>)
    requires NoLower(h, a, b) && NoLower(h, b, c)
    ensures NoLower(h, a, c)
  {
  }

  lemma NoLowerThanItself(h: seq<Revision>, k: nat, s: Schema)
    requires Reached(h, k, s)
    ensures NoLower(h, s.floor, s.floor)
  {
    FloorIsEarlier(h, k, 0, s.floor);
  }

  lemma {:induction false} FloorNeverFalls(h: seq<Revision>, run: seq<nat>, i: nat, j: nat)
    requires Line(h) && i <= j <= |run| && forall i :: 0 <= i < |run| ==> run[i] <= |h|
    ensures NoLower(h, SchemaAt(h, run, i).floor, SchemaAt(h, run, j).floor)
  {
    hide Reached, NoLower, Applied;
    if i < j {
      FloorNeverFalls(h, run, i, j - 1);
      var before := SchemaAt(h, run, j - 1);
      var k := RunReaches(h, run, j - 1);
      StepRaises(h, run[j - 1], k, before);
      NoLowerTransitive(h, SchemaAt(h, run, i).floor, before.floor, SchemaAt(h, run, j).floor);
    } else {
      var k := RunReaches(h, run, i);
      NoLowerThanItself(h, k, SchemaAt(h, run, i));
    }
  }

  /** After any run, an image may start exactly when the database has reached its head and no applied revision
      has declared a floor beyond it. */
  lemma StartsIffSupported(h: seq<Revision>, run: seq<nat>, step: nat, n: nat) returns (k: nat)
    requires Line(h) && step <= |run| && 0 < n <= |h| && forall i :: 0 <= i < |run| ==> run[i] <= |h|
    ensures Reached(h, k, SchemaAt(h, run, step))
    ensures Starts(SchemaAt(h, run, step), IdsOf(h[..n])) <==>
              n <= k && forall r: nat, d: nat :: Made(h, k, 0, r, d) ==>
                h[r].floors[d] in IdsOf(h) && Place(h, h[r].floors[d]) < n
  {
    var s := SchemaAt(h, run, step);
    k := RunReaches(h, run, step);
    StartsIffFloorAllows(h, k, s, n);
    if s.floor.Some? {
      var r: nat, d: nat :| Made(h, k, 0, r, d) && h[r].floors[d] == s.floor.value;
    }
    forall r: nat, d: nat | Made(h, k, 0, r, d) ensures Earlier(h, r, d) && AtLeast(h, s.floor, h[r].floors[d]) {}
  }

  lemma {:induction false} StartsIffFloorAllows(h: seq<Revision>, k: nat, s: Schema, n: nat)
    requires Line(h) && 0 < n <= |h| && Reached(h, k, s)
    ensures s.floor.Some? ==> s.floor.value in IdsOf(h)
    ensures Starts(s, IdsOf(h[..n])) <==> n <= k && (s.floor.None? || Place(h, s.floor.value) < n)
  {
    FloorIsEarlier(h, k, 0, s.floor);
    if s.floor.Some? {
      PlaceIs(h, n, s.floor.value);
    }
    if k > 0 {
      assert IdsOf(h)[k - 1] == h[k - 1].id;
      assert Place(h, h[k - 1].id) == k - 1;
      PlaceIs(h, n, h[k - 1].id);
      assert IdsOf(h[..n])[n - 1] == h[n - 1].id;
    }
  }

  // ----- migration gets there

  /** Every floor revision `r` declares is a revision before it. */
  ghost predicate WellDeclared(h: seq<Revision>, r: nat)
    requires r < |h|
  {
    forall d :: 0 <= d < |h[r].floors| ==> Earlier(h, r, d)
  }

  lemma DeclarableIffEarlier(h: seq<Revision>, n: nat, k: nat, d: nat)
    requires Line(h) && k < n <= |h| && d < |h[k].floors|
    ensures Declarable(IdsOf(h[..n]), h[k].floors[d], h[k].id) <==> Earlier(h, k, d)
  {
    PlaceIs(h, n, h[k].floors[d]);
    PlaceIs(h, n, h[k].id);
    assert IdsOf(h)[k] == h[k].id;
    assert Place(h, h[k].id) == k;
  }

  lemma {:induction false} FloorAfterIff(h: seq<Revision>, n: nat, k: nat, floor: Option<Id>, m: nat)
    requires Line(h) && k < n <= |h| && m <= |h[k].floors|
    ensures FloorAfter(IdsOf(h[..n]), floor, h[k], m).Some? <==> forall d :: 0 <= d < m ==> Earlier(h, k, d)
  {
    hide Declarable, Earlier, Raised;
    if m > 0 {
      FloorAfterIff(h, n, k, floor, m - 1);
      DeclarableIffEarlier(h, n, k, m - 1);
    }
  }

  /** An image applies the next revision exactly if it knows it and every floor it declares is an earlier revision. */
  lemma AppliesIff(h: seq<Revision>, n: nat, k: nat, s: Schema)
    requires Line(h) && n <= |h| && Reached(h, k, s)
    ensures Applied(h[..n], s) != s <==> k < n && WellDeclared(h, k)
    ensures Applied(h[..n], s) != s ==> Reached(h, k + 1, Applied(h[..n], s))
  {
    hide Topmost, FloorAfter, NextIndex, Earlier;
    NextIsNext(h, n, k, s);
    StepReaches(h, n, k, s);
    if k < n {
      assert h[..n][k] == h[k];
      FloorAfterIff(h, n, k, s.floor, |h[k].floors|);
      assert k > 0 ==> h[k - 1].id != h[k].id;
    }
  }

  /** In a well-declared history, `m` steps by images that know `n` revisions bring in all `n`, or `m` more. */
  lemma {:induction false} MigrationAdvances(h: seq<Revision>, run: seq<nat>, i: nat, j: nat, n: nat) returns (k: nat)
    requires Line(h) && i <= j <= |run| && forall t :: 0 <= t < |run| ==> run[t] <= |h|
    requires (forall r :: 0 <= r < |h| ==> WellDeclared(h, r)) && forall t :: i <= t < j ==> n <= run[t]
    ensures Reached(h, k, SchemaAt(h, run, j)) && (n <= k || j - i <= k)
  {
    hide Reached, Applied, WellDeclared;
    if i == j {
      k := RunReaches(h, run, i);
    } else {
      k := MigrationAdvances(h, run, i, j - 1, n);
      ReachedIsInRange(h, k, SchemaAt(h, run, j - 1));
      AppliesIff(h, run[j - 1], k, SchemaAt(h, run, j - 1));
      if k < run[j - 1] {
        k := k + 1;
      }
    }
  }

  lemma ReachedIsInRange(h: seq<Revision>, k: nat, s: Schema)
    requires Reached(h, k, s)
    ensures k <= |h|
  {
  }
}

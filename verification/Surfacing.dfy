/** Which of a failed request's attempts its caller is told about. */
module Surfacing {
  import opened Options
  import opened Identifiers
  import opened Failures
  import opened FallbackWalk
  import opened Requests
  import opened RequestLog

  /** A failed attempt and the route it was dispatched as. */
  datatype Tried = Tried(route: Adapter, error: Failure)

  /** The first position in `s` on `route`, or |s|. */
  function FirstOn(s: seq<Tried>, route: Adapter): (p: nat)
    ensures p <= |s| && (p < |s| ==> s[p].route == route) && forall i :: 0 <= i < p ==> s[i].route != route
  {
    if s == [] || s[0].route == route then 0 else 1 + FirstOn(s[1..], route)
  }

  function Cut(s: seq<Tried>, p: nat): seq<Tried>
    requires p < |s|
  {
    s[..p] + s[p + 1..]
  }

  /** Attempts in dispatch order, each one cut short giving its place to its retry. */
  function Reported(attempts: seq<Tried>): seq<Tried>
    decreases |attempts|
  {
    if attempts == [] then []
    else
      var first, later := attempts[0], attempts[1..];
      var p := FirstOn(later, first.route);
      if AbandonedForOffload(first.error) && p < |later| then [later[p]] + Reported(Cut(later, p))
      else [first] + Reported(later)
  }

  lemma MoveOne(done: seq<Tried>, x: Tried, rest: seq<Tried>)
    ensures done + ([x] + rest) == (done + [x]) + rest
  {
  }

  method ReportedAttempts(attempts: seq<Tried>) returns (reported: seq<Tried>)
    ensures reported == Reported(attempts)
  {
    reported := [];
    var later := attempts;
    while later != []
      invariant reported + Reported(later) == Reported(attempts)
      decreases |later|
    {
      ghost var before := later;
      var attempt := later[0];
      later := later[1..];
      if AbandonedForOffload(attempt.error) {
        var position := FirstOn(later, attempt.route);
        if position < |later| {
          attempt := later[position];
          later := Cut(later, position);
        }
      }
      assert Reported(before) == [attempt] + Reported(later);
      MoveOne(reported, attempt, Reported(later));
      reported := reported + [attempt];
    }
  }

  // ----- what each route had to say

  function LastOn(s: seq<Tried>, route: Adapter): Tried
    requires exists i :: 0 <= i < |s| && s[i].route == route
  {
    if s[|s| - 1].route == route then s[|s| - 1] else LastOn(s[..|s| - 1], route)
  }

  function DropRoute(s: seq<Tried>, route: Adapter): (r: seq<Tried>)
    ensures |r| <= |s|
  {
    if s == [] then [] else (if s[0].route == route then [] else [s[0]]) + DropRoute(s[1..], route)
  }

  /** Every route once, in the order they were first tried, with its last answer. */
  function Answers(s: seq<Tried>): seq<Tried>
    decreases |s|
  {
    if s == [] then [] else [LastOn(s, s[0].route)] + Answers(DropRoute(s[1..], s[0].route))
  }

  /** A route is tried again only after it was cut short, and once at most. */
  ghost predicate RetriedOnce(s: seq<Tried>) {
    && (forall i, j :: 0 <= i < j < |s| && s[i].route == s[j].route ==> AbandonedForOffload(s[i].error))
    && (forall i, j, k :: 0 <= i < j < k < |s| && s[i].route == s[j].route ==> s[j].route != s[k].route)
  }

  lemma {:induction false} DropAbsent(s: seq<Tried>, route: Adapter)
    requires forall i :: 0 <= i < |s| ==> s[i].route != route
    ensures DropRoute(s, route) == s
  {
    if s != [] {
      DropAbsent(s[1..], route);
    }
  }

  lemma {:induction false} DropOnly(s: seq<Tried>, p: nat)
    requires p < |s| && forall i :: 0 <= i < |s| && i != p ==> s[i].route != s[p].route
    ensures DropRoute(s, s[p].route) == Cut(s, p)
  {
    if p == 0 {
      DropAbsent(s[1..], s[0].route);
      assert Cut(s, 0) == s[1..];
    } else {
      DropOnly(s[1..], p - 1);
      assert Cut(s, p) == [s[0]] + Cut(s[1..], p - 1);
    }
  }

  lemma {:induction false} LastIs(s: seq<Tried>, p: nat)
    requires p < |s| && forall i :: p < i < |s| ==> s[i].route != s[p].route
    ensures LastOn(s, s[p].route) == s[p]
  {
    if p < |s| - 1 {
      LastIs(s[..|s| - 1], p);
    }
  }

  lemma TailRetriedOnce(s: seq<Tried>)
    requires RetriedOnce(s) && s != []
    ensures RetriedOnce(s[1..])
  {
    assert forall i :: 0 <= i < |s| - 1 ==> s[1..][i] == s[i + 1];
  }

  lemma CutRetriedOnce(s: seq<Tried>, p: nat)
    requires RetriedOnce(s) && p < |s|
    ensures RetriedOnce(Cut(s, p))
  {
    var c := Cut(s, p);
    assert forall i :: 0 <= i < p ==> c[i] == s[i];
    assert forall i :: p <= i < |c| ==> c[i] == s[i + 1];
  }

  /** The retry of the first attempt is the only later attempt on its route. */
  lemma OnlyRetry(s: seq<Tried>, p: nat)
    requires RetriedOnce(s) && s != [] && p < |s| - 1 && s[p + 1].route == s[0].route
    ensures AbandonedForOffload(s[0].error)
    ensures forall i :: 0 <= i < |s| - 1 && i != p ==> s[1..][i].route != s[0].route
  {
    forall j | 1 <= j < |s| && j != p + 1 ensures s[j].route != s[0].route {
    }
  }

  /** For a request whose retries follow cuts, the report is one answer per route: its last. */
  lemma {:induction false} ReportIsOneAnswerPerRoute(s: seq<Tried>)
    requires RetriedOnce(s)
    ensures Reported(s) == Answers(s)
    decreases |s|
  {
    if s != [] {
      var first, later := s[0], s[1..];
      var p := FirstOn(later, first.route);
      TailRetriedOnce(s);
      if p < |later| {
        OnlyRetry(s, p);
        LastIs(s, p + 1);
        DropOnly(later, p);
        CutRetriedOnce(later, p);
        ReportIsOneAnswerPerRoute(Cut(later, p));
      } else {
        LastIs(s, 0);
        DropAbsent(later, first.route);
        ReportIsOneAnswerPerRoute(later);
      }
    }
  }

  /** The errors of a request's failed attempts, in dispatch order. */
  function ErrorsOf(log: seq<Entry>): seq<Tried> {
    if log == [] then []
    else
      ErrorsOf(Front(log))
      + if Failed(Last(log)) then [Tried(Last(log).handout.adapter, Last(log).result.failure)] else []
  }

  ghost predicate IsErrorOf(x: Tried, e: Entry) { Failed(e) && x == Tried(e.handout.adapter, e.result.failure) }

  lemma {:induction false} ErrorAt(log: seq<Entry>, i: nat) returns (k: nat)
    requires i < |ErrorsOf(log)|
    ensures k < |log| && IsErrorOf(ErrorsOf(log)[i], log[k])
  {
    if i < |ErrorsOf(Front(log))| {
      k := ErrorAt(Front(log), i);
    } else {
      k := |log| - 1;
    }
  }

  /** Two errors come from two entries in the same order. */
  lemma {:induction false} ErrorsAt(log: seq<Entry>, i: nat, j: nat) returns (k: nat, m: nat)
    requires i < j < |ErrorsOf(log)|
    ensures k < m < |log| && IsErrorOf(ErrorsOf(log)[i], log[k]) && IsErrorOf(ErrorsOf(log)[j], log[m])
  {
    if j < |ErrorsOf(Front(log))| {
      k, m := ErrorsAt(Front(log), i, j);
    } else {
      k := ErrorAt(Front(log), i);
      m := |log| - 1;
    }
  }

  /** The only earlier attempt on a retry's route is the one that was cut short. */
  lemma RepeatWasCut(c: Case, log: seq<Entry>, k: nat, m: nat)
    requires Disciplined(c, log) && k < m < |log| && log[k].handout.adapter == log[m].handout.adapter
    ensures WasCutShort(log[k]) && !log[k].handout.Retry? && log[m].handout.Retry?
  {
    hide Disciplined;
    RepeatsAreRetries(c, log, k, m);
    var i := RetriesFollowCuts(c, log, m);
    if i < k {
      RepeatsAreRetries(c, log, i, k);
    } else if k < i {
      RepeatsAreRetries(c, log, k, i);
    }
  }

  /** So every log the executor leaves is reported as one answer per route. */
  lemma DisciplinedIsRetriedOnce(c: Case, log: seq<Entry>)
    requires Disciplined(c, log)
    ensures RetriedOnce(ErrorsOf(log)) && Reported(ErrorsOf(log)) == Answers(ErrorsOf(log))
  {
    hide Disciplined;
    var s := ErrorsOf(log);
    forall i, j | 0 <= i < j < |s| && s[i].route == s[j].route ensures AbandonedForOffload(s[i].error) {
      var k, m := ErrorsAt(log, i, j);
      RepeatWasCut(c, log, k, m);
    }
    forall i, j, l | 0 <= i < j < l < |s| && s[i].route == s[j].route ensures s[j].route != s[l].route {
      var k, m, n := ThreeErrorsAt(log, i, j, l);
      RepeatWasCut(c, log, k, m);
      if s[j].route == s[l].route {
        RepeatWasCut(c, log, m, n);
      }
    }
    ReportIsOneAnswerPerRoute(s);
  }

  lemma {:induction false} ThreeErrorsAt(log: seq<Entry>, i: nat, j: nat, l: nat) returns (k: nat, m: nat, n: nat)
    requires i < j < l < |ErrorsOf(log)|
    ensures k < m < n < |log| && IsErrorOf(ErrorsOf(log)[i], log[k])
            && IsErrorOf(ErrorsOf(log)[j], log[m]) && IsErrorOf(ErrorsOf(log)[l], log[n])
  {
    if l < |ErrorsOf(Front(log))| {
      k, m, n := ThreeErrorsAt(Front(log), i, j, l);
    } else {
      k, m := ErrorsAt(Front(log), i, j);
      n := |log| - 1;
    }
  }
}

/** The strict reader of classifier outputs and the gate over job results. */
module CiGate {
  import opened Options
  import opened PathRules
  import opened ChangeClassifier

  // ----- what travels between the classifier and the gate

  datatype Text = TrueText | FalseText | OtherText(text: string)

  datatype Key = Flag(category: Category) | ForeignKey(name: string)

  datatype ImageName = Known(image: Image) | ForeignImage(name: string)

  /** Workflow outputs as the gate receives them; no `matrix` when it is missing or not a list of names. */
  datatype Payload = Payload(flags: map<Key, Text>, matrix: Option<seq<ImageName>>)

  datatype Outputs = Outputs(selected: set<Category>, matrix: seq<Image>)

  const CATEGORIES: seq<Category> := [Backend, Frontend, DockerShared, PythonTests, Docs, TutorialE2e, SiteUi,
                                      SecurityOnly, Full]

  lemma CategoriesAreAll(c: Category)
    ensures c in CATEGORIES
  {
    assert CATEGORIES[0] == Backend && CATEGORIES[1] == Frontend && CATEGORIES[2] == DockerShared
           && CATEGORIES[3] == PythonTests && CATEGORIES[4] == Docs && CATEGORIES[5] == TutorialE2e
           && CATEGORIES[6] == SiteUi && CATEGORIES[7] == SecurityOnly && CATEGORIES[8] == Full;
  }

  function Names(images: seq<Image>): seq<ImageName> {
    seq(|images|, i requires 0 <= i < |images| => Known(images[i]))
  }

  /** The canonical strings for parsed outputs. */
  function Write(o: Outputs): Payload {
    Payload(map c | c in CATEGORIES :: Flag(c) := (if c in o.selected then TrueText else FalseText),
            Some(Names(o.matrix)))
  }

  function OutputsOf(c: Classification): Outputs { Outputs(c.selected, DockerMatrix(c)) }

  // ----- the validator

  function InOrder(frontend: bool, backend: bool): seq<Image> {
    (if frontend then [FrontendImage] else []) + (if backend then [BackendImage] else [])
  }

  function ImagesIn(names: seq<ImageName>): seq<Image> {
    InOrder(Known(FrontendImage) in names, Known(BackendImage) in names)
  }

  ghost function Selected(p: Payload): set<Category> {
    set c | c in CATEGORIES && Flag(c) in p.flags && p.flags[Flag(c)] == TrueText
  }

  /** All the flags and no others, each true or false, and known images listed once each in the stable order. */
  ghost predicate WellTyped(p: Payload) {
    && (forall k :: k in p.flags <==> k.Flag?)
    && (forall k :: k in p.flags ==> !p.flags[k].OtherText?)
    && p.matrix.Some? && p.matrix.value == Names(ImagesIn(p.matrix.value))
  }

  predicate NamesApplication(selected: set<Category>) {
    || Backend in selected || Frontend in selected || DockerShared in selected
    || TutorialE2e in selected || SiteUi in selected
  }

  /** What a classification may say. */
  ghost predicate Consistent(o: Outputs) {
    && (SecurityOnly in o.selected ==> o.selected <= {SecurityOnly, Docs} && o.matrix == [])
    && (SecurityOnly !in o.selected ==> Full in o.selected || NamesApplication(o.selected))
    && (Full in o.selected || Backend in o.selected || DockerShared in o.selected ==> PythonTests in o.selected)
    && (Frontend in o.selected ==> SiteUi in o.selected)
    && if Full in o.selected || DockerShared in o.selected then o.matrix == [FrontendImage, BackendImage]
       else
         && (FrontendImage in o.matrix <==> Frontend in o.selected)
         && (BackendImage in o.matrix ==> Backend in o.selected)
  }

  ghost predicate Acceptable(p: Payload) {
    WellTyped(p) && Consistent(OutputsIn(p))
  }

  ghost function OutputsIn(p: Payload): Outputs {
    Outputs(Selected(p), if p.matrix.Some? then ImagesIn(p.matrix.value) else [])
  }

  predicate SemanticallyValid(o: Outputs) {
    var s, m := o.selected, o.matrix;
    if SecurityOnly in s && (Full in s || NamesApplication(s) || PythonTests in s) then false
    else if SecurityOnly in s && m != [] then false
    else if SecurityOnly !in s && Full !in s && !NamesApplication(s) then false
    else if (Full in s || Backend in s || DockerShared in s) && PythonTests !in s then false
    else if Frontend in s && SiteUi !in s then false
    else if Full in s || DockerShared in s then m == [FrontendImage, BackendImage]
    else if Frontend in s && FrontendImage !in m then false
    else (forall image :: image in m ==> if image.FrontendImage? then Frontend in s else Backend in s)
  }

  lemma ValidIffConsistent(o: Outputs)
    ensures SemanticallyValid(o) <==> Consistent(o)
  {
    if Full !in o.selected && !NamesApplication(o.selected) && PythonTests !in o.selected {
      OnlyDocsLeft(o.selected);
    }
  }

  lemma OnlyDocsLeft(selected: set<Category>)
    requires Full !in selected && !NamesApplication(selected) && PythonTests !in selected
    ensures selected <= {SecurityOnly, Docs}
  {
    forall c | c in selected ensures c == SecurityOnly || c == Docs {
      assert !c.Full? && !c.PythonTests? && !c.Backend? && !c.Frontend? && !c.DockerShared? && !c.TutorialE2e?
             && !c.SiteUi?;
    }
  }

  method ParseClassification(p: Payload) returns (parsed: Option<Outputs>)
    ensures parsed.Some? <==> Acceptable(p)
    ensures parsed.Some? ==> parsed.value == OutputsIn(p)
  {
    var flags := ParseFlags(p);
    if flags.None? || p.matrix.None? { return None; }
    var matrix := ImagesIn(p.matrix.value);
    if p.matrix.value != Names(matrix) { return None; }
    ValidIffConsistent(Outputs(flags.value, matrix));
    parsed := if SemanticallyValid(Outputs(flags.value, matrix)) then Some(Outputs(flags.value, matrix)) else None;
  }

  /** The flags named in `cs` that are set. */
  function SetFlags(flags: map<Key, Text>, cs: seq<Category>): set<Category>
    requires forall c :: c in cs ==> Flag(c) in flags
  {
    set c | c in cs && flags[Flag(c)] == TrueText
  }

  lemma SetFlagsGrow(flags: map<Key, Text>, cs: seq<Category>, c: Category)
    requires forall x :: x in cs + [c] ==> Flag(x) in flags
    ensures SetFlags(flags, cs + [c]) == SetFlags(flags, cs) + if flags[Flag(c)] == TrueText then {c} else {}
  {
    assert c in cs + [c];
    assert forall x :: x in cs + [c] <==> x in cs || x == c;
  }

  method ParseFlags(p: Payload) returns (selected: Option<set<Category>>)
    ensures selected.Some? <==>
              (forall k :: k in p.flags <==> k.Flag?) && (forall k :: k in p.flags ==> !p.flags[k].OtherText?)
    ensures selected.Some? ==> selected.value == Selected(p)
  {
    hide SetFlags, Selected;
    KeysAreFlags(p);
    if p.flags.Keys != set c | c in CATEGORIES :: Flag(c) { return None; }
    selected := ReadFlags(p.flags);
    FlagsAreCategories(p);
  }

  lemma FlagsAreCategories(p: Payload)
    requires forall k :: k in p.flags <==> k.Flag?
    ensures (forall c :: c in CATEGORIES ==> !p.flags[Flag(c)].OtherText?) <==>
            forall k :: k in p.flags ==> !p.flags[k].OtherText?
    ensures SetFlags(p.flags, CATEGORIES) == Selected(p)
  {
    forall k | k in p.flags ensures k == Flag(k.category) && k.category in CATEGORIES {
      CategoriesAreAll(k.category);
    }
    assert forall c :: c in CATEGORIES ==> Flag(c) in p.flags;
  }

  method ReadFlags(flags: map<Key, Text>) returns (selected: Option<set<Category>>)
    requires forall k :: k in flags <==> k.Flag?
    ensures selected.Some? <==> forall c :: c in CATEGORIES ==> !flags[Flag(c)].OtherText?
    ensures selected.Some? ==> selected.value == SetFlags(flags, CATEGORIES)
  {
    hide SetFlags;
    var found := {};
    NothingSet(flags);
    for i := 0 to |CATEGORIES|
      invariant found == SetFlags(flags, CATEGORIES[..i])
      invariant forall c :: c in CATEGORIES[..i] ==> !flags[Flag(c)].OtherText?
    {
      var c := CATEGORIES[i];
      assert CATEGORIES[..i + 1] == CATEGORIES[..i] + [c];
      SetFlagsGrow(flags, CATEGORIES[..i], c);
      if flags[Flag(c)].OtherText? { return None; }
      if flags[Flag(c)] == TrueText { found := found + {c}; }
    }
    assert CATEGORIES[..|CATEGORIES|] == CATEGORIES;
    selected := Some(found);
  }

  lemma NothingSet(flags: map<Key, Text>)
    ensures SetFlags(flags, []) == {}
  {
  }

  lemma KeysAreFlags(p: Payload)
    ensures p.flags.Keys == (set c | c in CATEGORIES :: Flag(c)) <==> forall k :: k in p.flags <==> k.Flag?
  {
    forall c: Category ensures c in CATEGORIES { CategoriesAreAll(c); }
    var wanted := set c | c in CATEGORIES :: Flag(c);
    assert forall k :: k in wanted <==> k.Flag?;
    assert forall k :: k in p.flags.Keys <==> k in p.flags;
  }

  // ----- the gate

  datatype Event = PullRequest | Push | Schedule | Dispatch | Unsupported(name: string)

  datatype Job =
    | Changes
    | BackendQuality
    | FrontendQuality
    | SiteUiContainers
    | Test
    | DocsBuild
    | Tutorial
    | Security
    | DockerBuild
    | ForeignJob(name: string)

  datatype JobResult = Success | Failure | Aborted | Skipped | Malformed(text: string)

  const APP_JOBS: seq<(Job, Category)> :=
    [(BackendQuality, Backend), (FrontendQuality, Frontend), (SiteUiContainers, SiteUi), (Test, PythonTests),
     (DocsBuild, Docs)]

  function RunOrSkip(run: bool): JobResult { if run then Success else Skipped }

  /** The one result each job may have. */
  function Wanted(event: Event, o: Outputs, job: Job): JobResult
    requires !job.ForeignJob?
  {
    var full := Full in o.selected;
    match job
    case Changes => Success
    case Security => Success
    case Tutorial => RunOrSkip(full || TutorialE2e in o.selected)
    case DockerBuild => RunOrSkip(if event.PullRequest? then o.matrix != [] else !event.Push?)
    case BackendQuality => RunOrSkip(!event.PullRequest? || full || Backend in o.selected)
    case FrontendQuality => RunOrSkip(!event.PullRequest? || full || Frontend in o.selected)
    case SiteUiContainers => RunOrSkip(!event.PullRequest? || full || SiteUi in o.selected)
    case Test => RunOrSkip(!event.PullRequest? || full || PythonTests in o.selected)
    case DocsBuild => RunOrSkip(!event.PullRequest? || full || Docs in o.selected)
  }

  /** Events whose classification the gate can weigh at all. */
  predicate Weighable(event: Event, o: Outputs) {
    && !event.Unsupported?
    && (event.Schedule? || event.Dispatch? ==> Full in o.selected && o.matrix == [FrontendImage, BackendImage])
  }

  /** Exactly the required jobs, each with the result wanted of it. */
  ghost predicate AsWanted(event: Event, o: Outputs, results: map<Job, JobResult>) {
    && (forall job :: job in results <==> !job.ForeignJob?)
    && (forall job :: job in results && !job.ForeignJob? ==> results[job] == Wanted(event, o, job))
  }

  ghost predicate Passes(event: Event, p: Payload, results: map<Job, JobResult>) {
    Acceptable(p) && Weighable(event, OutputsIn(p)) && AsWanted(event, OutputsIn(p), results)
  }

  const REQUIRED_JOBS: set<Job> :=
    {Changes, BackendQuality, FrontendQuality, SiteUiContainers, Test, DocsBuild, Tutorial, Security, DockerBuild}

  method VerifyGate(event: Event, p: Payload, results: map<Job, JobResult>) returns (accepted: bool)
    ensures accepted <==> Passes(event, p, results)
  {
    if event.Unsupported? { return false; }
    var parsed := ParseClassification(p);
    KeysAreRequired(results);
    if parsed.None? || results.Keys != REQUIRED_JOBS { return false; }
    var o := parsed.value;
    if !Weighable(event, o) { return false; }
    var expected := ExpectedResults(event, o);
    EqualIffAsWanted(event, o, expected, results);
    accepted := expected == results;
  }

  lemma KeysAreRequired(results: map<Job, JobResult>)
    ensures results.Keys == REQUIRED_JOBS <==> forall job :: job in results <==> !job.ForeignJob?
  {
    assert forall job :: job in REQUIRED_JOBS <==> !job.ForeignJob?;
    assert forall job :: job in results.Keys <==> job in results;
  }

  lemma EqualIffAsWanted(event: Event, o: Outputs, expected: map<Job, JobResult>, results: map<Job, JobResult>)
    requires AsWanted(event, o, expected)
    ensures expected == results <==> AsWanted(event, o, results)
  {
    if AsWanted(event, o, results) {
      assert forall job: Job :: job in expected <==> job in results;
      assert forall job: Job :: job in expected ==> !job.ForeignJob? && expected[job] == results[job];
    }
  }

  /** Fill in the wanted results job by job. */
  method ExpectedResults(event: Event, o: Outputs) returns (expected: map<Job, JobResult>)
    requires !event.Unsupported?
    ensures AsWanted(event, o, expected)
  {
    hide Wanted, AppJobs, RunOrSkip;
    FixedJobs(event, o);
    expected := map[Changes := Success, Security := Success];
    for i := 0 to |APP_JOBS|
      invariant expected.Keys == {Changes, Security} + AppJobs(i)
      invariant forall job :: job in expected ==> !job.ForeignJob? && expected[job] == Wanted(event, o, job)
    {
      var (job, category) := APP_JOBS[i];
      AppJobsGrow(event, o, i);
      expected := expected[job := RunOrSkip(!event.PullRequest? || Full in o.selected || category in o.selected)];
    }
    expected := expected[DockerBuild := RunOrSkip(if event.PullRequest? then o.matrix != [] else !event.Push?)];
    expected := expected[Tutorial := RunOrSkip(Full in o.selected || TutorialE2e in o.selected)];
    AllJobs(expected);
  }

  function AppJobs(n: nat): set<Job>
    requires n <= |APP_JOBS|
  {
    set i | 0 <= i < n :: APP_JOBS[i].0
  }

  lemma FixedJobs(event: Event, o: Outputs)
    ensures Wanted(event, o, Changes) == Success && Wanted(event, o, Security) == Success
    ensures Wanted(event, o, Tutorial) == RunOrSkip(Full in o.selected || TutorialE2e in o.selected)
    ensures Wanted(event, o, DockerBuild) == RunOrSkip(if event.PullRequest? then o.matrix != [] else !event.Push?)
    ensures AppJobs(0) == {}
  {
  }

  lemma AppJobsGrow(event: Event, o: Outputs, i: nat)
    requires i < |APP_JOBS|
    ensures var (job, category) := APP_JOBS[i];
            && AppJobs(i + 1) == AppJobs(i) + {job} && !job.ForeignJob?
            && Wanted(event, o, job) == RunOrSkip(!event.PullRequest? || Full in o.selected || category in o.selected)
  {
    assert i == 0 || i == 1 || i == 2 || i == 3 || i == 4;
  }

  lemma AllJobs(results: map<Job, JobResult>)
    requires results.Keys == {Changes, Security} + AppJobs(|APP_JOBS|) + {DockerBuild, Tutorial}
    ensures forall job :: job in results <==> !job.ForeignJob?
  {
    var app := AppJobs(|APP_JOBS|);
    assert APP_JOBS[0].0 in app && APP_JOBS[1].0 in app && APP_JOBS[2].0 in app && APP_JOBS[3].0 in app
           && APP_JOBS[4].0 in app;
    forall job ensures job in results <==> !job.ForeignJob? {
      assert job in results <==> job in results.Keys;
    }
  }

  // ----- classifier and gate together

  /** Writing outputs down and reading them back gives them unchanged. */
  lemma WriteRoundTrip(o: Outputs)
    requires o.matrix == InOrder(FrontendImage in o.matrix, BackendImage in o.matrix)
    ensures WellTyped(Write(o)) && OutputsIn(Write(o)) == o
  {
    var p := Write(o);
    forall c: Category ensures c in CATEGORIES { CategoriesAreAll(c); }
    assert Selected(p) == o.selected;
    var names := Names(o.matrix);
    assert forall i :: 0 <= i < |names| ==> names[i] == Known(o.matrix[i]);
    assert forall image :: Known(image) in names <==> image in o.matrix;
  }

  /** Every diff's classification, a missing or empty diff included, passes the validator as it was written. */
  lemma EveryClassificationIsAccepted(touches: Option<seq<Touch>>)
    ensures var o := OutputsOf(Classified(touches)); Acceptable(Write(o)) && OutputsIn(Write(o)) == o
  {
    hide Classified, Consistent, WellTyped, OutputsIn, Write, DockerMatrix;
    var c := Classified(touches);
    ClassificationIsConsistent(touches);
    MatrixIsInOrder(c);
    WriteRoundTrip(OutputsOf(c));
  }

  lemma MatrixIsInOrder(c: Classification)
    ensures var m := DockerMatrix(c); m == InOrder(FrontendImage in m, BackendImage in m)
  {
  }

  lemma ClassificationIsConsistent(touches: Option<seq<Touch>>)
    ensures Consistent(OutputsOf(Classified(touches)))
  {
    hide Consistent, ImpactOf;
    if touches.None? || touches.value == [] {
      ForcedIsConsistent();
    } else {
      ChangeSetIsCoherent(touches.value);
      ConclusionIsConsistent(ImpactOf(touches.value));
    }
  }

  lemma ForcedIsConsistent()
    ensures Consistent(OutputsOf(FORCED_FULL))
  {
  }

  lemma ConclusionIsConsistent(all: Classification)
    requires Coherent(all) && SecurityOnly !in all.selected
    ensures Consistent(OutputsOf(Concluded(all)))
  {
    var c := Concluded(all);
    if SecurityOnly in c.selected {
      OnlyDocsLeft(c.selected);
    }
  }

  /** A scheduled or manual run is accepted exactly with a full classification that builds both images, and with every
      job successful. */
  lemma ScheduledChecksEverything(event: Event, p: Payload, results: map<Job, JobResult>)
    requires event.Schedule? || event.Dispatch?
    ensures Passes(event, p, results) <==>
              && Acceptable(p) && Full in OutputsIn(p).selected && OutputsIn(p).matrix == [FrontendImage, BackendImage]
              && (forall job :: job in results <==> !job.ForeignJob?)
              && forall job :: job in results ==> results[job] == Success
  {
    hide Acceptable, OutputsIn;
  }

  /** A push runs every check and the security scan, and builds no image; no other event is accepted at all. */
  lemma PushChecksEverything(event: Event, p: Payload, results: map<Job, JobResult>, job: Job)
    requires Passes(event, p, results) && event != PullRequest
    ensures !event.Unsupported? && (event.Push? ==> DockerBuild in results && results[DockerBuild] == Skipped)
    ensures !job.ForeignJob? && job != DockerBuild && job != Tutorial ==> job in results && results[job] == Success
  {
    hide Acceptable, OutputsIn;
  }

  /** The gate accepts one vector of job results per event and weighable classification, and no other. */
  lemma GateAcceptsExactlyOne(event: Event, p: Payload)
    requires Acceptable(p) && Weighable(event, OutputsIn(p))
    ensures exists results :: Passes(event, p, results)
    ensures forall a: map<Job, JobResult>, b: map<Job, JobResult> :: Passes(event, p, a) && Passes(event, p, b) ==>
            a == b
  {
    var o := OutputsIn(p);
    var results := map job | job in REQUIRED_JOBS && !job.ForeignJob? :: Wanted(event, o, job);
    assert Passes(event, p, results);
    forall a: map<Job, JobResult>, b: map<Job, JobResult> | Passes(event, p, a) && Passes(event, p, b) ensures a == b {
      EqualIffAsWanted(event, o, a, b);
    }
  }

  /** On an accepted pull request, every job that any one changed path would have required has succeeded. */
  lemma AcceptedChecksEveryPath(touches: seq<Touch>, t: Touch, results: map<Job, JobResult>, job: Job)
    requires t in touches && !job.ForeignJob?
    requires Passes(PullRequest, Write(OutputsOf(Classified(Some(touches)))), results)
    requires Wanted(PullRequest, OutputsOf(Classified(Some([t]))), job) == Success
    ensures job in results && results[job] == Success
  {
    hide Classified, Wanted, DockerMatrix, Acceptable, Write, OutputsIn;
    EveryClassificationIsAccepted(Some(touches));
    ClassificationIsMonotone([t], touches);
    WantedIsMonotone(Classified(Some([t])), Classified(Some(touches)), job);
  }

  lemma WantedIsMonotone(one: Classification, all: Classification, job: Job)
    requires !job.ForeignJob? && Wanted(PullRequest, OutputsOf(one), job) == Success
    requires one.selected - {SecurityOnly} <= all.selected
    requires forall image :: image in DockerMatrix(one) ==> image in DockerMatrix(all)
    ensures Wanted(PullRequest, OutputsOf(all), job) == Success
  {
    hide DockerMatrix;
    forall c: Category | c in one.selected && c != SecurityOnly ensures c in all.selected {
      assert c in one.selected - {SecurityOnly};
    }
    if DockerMatrix(one) != [] {
      assert DockerMatrix(one)[0] in DockerMatrix(all);
    }
  }

  /** The same, of the changed paths themselves. */
  lemma AcceptedChecksEveryFile(paths: seq<string>, path: string, results: map<Job, JobResult>, job: Job)
    requires path in paths && !job.ForeignJob?
    requires Passes(PullRequest, Write(OutputsOf(Classified(Some(Read(paths))))), results)
    requires Wanted(PullRequest, OutputsOf(Classified(Some(Read([path])))), job) == Success
    ensures job in results && results[job] == Success
  {
    var i :| 0 <= i < |paths| && paths[i] == path;
    var touches := Read(paths);
    assert touches[i] in touches;
    assert Read([path]) == [touches[i]];
    AcceptedChecksEveryPath(touches, touches[i], results, job);
  }
}

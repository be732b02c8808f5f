/** Which CI checks and application images a change set touches. */
module ChangeClassifier {
  import opened Options
  import opened PathRules

  datatype Category =
    Backend | Frontend | DockerShared | PythonTests | Docs | TutorialE2e | SiteUi | SecurityOnly | Full

  /** The outputs that are set, and the images some path asked for by name. */
  datatype Classification = Classification(selected: set<Category>, images: set<Image>)

  const NONE := Classification({}, {})

  const FORCED_FULL := Classification({Full, PythonTests}, {})

  // ----- what one path contributes

  function When(condition: bool, what: set<Category>): set<Category> { if condition then what else {} }

  function OnFrontend(condition: bool): Classification {
    if condition then Classification({Frontend, SiteUi}, {FrontendImage}) else NONE
  }

  function Join(a: Classification, b: Classification): Classification {
    Classification(a.selected + b.selected, a.images + b.images)
  }

  function ExampleImpact(t: Touch): Classification {
    Join(Classification({Backend, PythonTests} + When(t.sphinx, {Docs}) + When(t.example, {SiteUi}), {BackendImage}),
         OnFrontend(t.exampleFrontend))
  }

  predicate Recognized(t: Touch) {
    t.frontendTree || t.backendSource || t.tests || t.dockerShared || t.image.Some?
  }

  function PythonImpact(t: Touch): Classification {
    Classification(When(t.backendSource || t.tests, {Backend, PythonTests}),
                   if t.backendSource then {BackendImage} else {})
  }

  function SharedDockerImpact(t: Touch): Classification {
    Classification(When(t.dockerShared, {DockerShared, PythonTests}) + When(t.dockerignore, {SiteUi}), {})
  }

  function ImageImpact(t: Touch): Classification {
    Join(OnFrontend(t.image == Some(FrontendImage)),
         Classification(When(t.image.Some?, {PythonTests}) + When(t.image == Some(BackendImage), {Backend}),
                        if t.image == Some(BackendImage) then {BackendImage} else {}))
  }

  /** A path no rule knows runs everything. */
  function NarrowImpact(t: Touch): Classification {
    Join(Join(OnFrontend(t.frontendTree), PythonImpact(t)),
         Join(Join(SharedDockerImpact(t), ImageImpact(t)), if Recognized(t) then NONE else FORCED_FULL))
  }

  /** The first rule that knows a path decides what it selects. */
  function RuleImpact(t: Touch): Classification {
    if t.full then FORCED_FULL
    else if t.example || t.tutorial then ExampleImpact(t)
    else if t.docs then Classification(When(t.sphinx, {Docs}), {})
    else NarrowImpact(t)
  }

  /** Everything one path selects, whatever else changed. */
  function Impact(t: Touch): Classification {
    Join(Classification(When(t.tutorialE2e, {TutorialE2e}), {}), RuleImpact(t))
  }

  // ----- what a change set selects

  /** The union of what its paths select. */
  function ImpactOf(touches: seq<Touch>): Classification {
    if touches == [] then NONE else Join(ImpactOf(touches[..|touches| - 1]), Impact(touches[|touches| - 1]))
  }

  predicate Narrow(c: Classification) {
    || Frontend in c.selected || Backend in c.selected || DockerShared in c.selected || PythonTests in c.selected
    || TutorialE2e in c.selected || SiteUi in c.selected
  }

  function Concluded(c: Classification): Classification {
    if Full !in c.selected && !Narrow(c) then c.(selected := c.selected + {SecurityOnly}) else c
  }

  /** `None` is a diff that could not be computed. */
  function Classified(touches: Option<seq<Touch>>): Classification {
    if touches.None? || touches.value == [] then FORCED_FULL else Concluded(ImpactOf(touches.value))
  }

  /** The images to build, in their stable order. */
  function DockerMatrix(c: Classification): seq<Image> {
    if Full in c.selected || DockerShared in c.selected then [FrontendImage, BackendImage]
    else
      (if FrontendImage in c.images then [FrontendImage] else [])
      + if BackendImage in c.images then [BackendImage] else []
  }

  /** Walk the normalised paths, setting outputs as rules match. */
  method Classify(paths: Option<seq<string>>) returns (c: Classification)
    ensures c == Classified(if paths.None? then None else Some(Read(paths.value)))
  {
    hide Impact, TouchOf;
    if paths.None? || paths.value == [] {
      return FORCED_FULL;
    }
    ghost var touches := Read(paths.value);
    var selected: set<Category>, images: set<Image> := {}, {};
    for i := 0 to |paths.value|
      invariant Classification(selected, images) == ImpactOf(touches[..i])
    {
      var touch := TouchOf(paths.value[i]);
      assert touches[..i + 1][..i] == touches[..i] && touches[i] == touch;
      selected, images := ApplyRules(touch, selected, images);
    }
    assert touches[..|touches|] == touches;
    c := Concluded(Classification(selected, images));
  }

  method ApplyRules(t: Touch, selected0: set<Category>, images0: set<Image>)
    returns (selected: set<Category>, images: set<Image>)
    ensures Classification(selected, images) == Join(Classification(selected0, images0), Impact(t))
  {
    hide NarrowImpact, ExampleImpact;
    selected, images := selected0, images0;
    ghost var before, tutorial := Classification(selected0, images0), When(t.tutorialE2e, {TutorialE2e});
    if t.tutorialE2e {
      selected := selected + {TutorialE2e};
    }
    assert Classification(selected, images) == Join(before, Classification(tutorial, {}));
    JoinNests(before, Classification(tutorial, {}), RuleImpact(t));
    if t.full {
      selected := selected + {Full, PythonTests};
    } else if t.example || t.tutorial {
      selected, images := ApplyExampleRule(t, selected, images);
    } else if t.docs {
      if t.sphinx { selected := selected + {Docs}; }
    } else {
      selected, images := ApplyNarrowRules(t, selected, images);
    }
  }

  method ApplyExampleRule(t: Touch, selected0: set<Category>, images0: set<Image>)
    returns (selected: set<Category>, images: set<Image>)
    ensures Classification(selected, images) == Join(Classification(selected0, images0), ExampleImpact(t))
  {
    selected, images := selected0 + {Backend, PythonTests}, images0 + {BackendImage};
    if t.sphinx { selected := selected + {Docs}; }
    if t.example { selected := selected + {SiteUi}; }
    if t.exampleFrontend {
      selected, images := selected + {Frontend, SiteUi}, images + {FrontendImage};
    }
  }

  lemma JoinNests(a: Classification, b: Classification, c: Classification)
    ensures Join(Join(a, b), c) == Join(a, Join(b, c))
  {
    assert (a.selected + b.selected) + c.selected == a.selected + (b.selected + c.selected);
    assert (a.images + b.images) + c.images == a.images + (b.images + c.images);
  }

  method ApplyNarrowRules(t: Touch, selected0: set<Category>, images0: set<Image>)
    returns (selected: set<Category>, images: set<Image>)
    ensures Classification(selected, images) == Join(Classification(selected0, images0), NarrowImpact(t))
  {
    hide Join, OnFrontend, PythonImpact, SharedDockerImpact, ImageImpact;
    var frontend, backend, docker, image;
    var before, source := Classification(selected0, images0), Join(OnFrontend(t.frontendTree), PythonImpact(t));
    selected, images, frontend := ApplyFrontendRule(t, selected0, images0);
    selected, images, backend := ApplyBackendRule(t, selected, images);
    JoinNests(before, OnFrontend(t.frontendTree), PythonImpact(t));
    selected, images, docker := ApplyDockerRule(t, selected, images);
    selected, images, image := ApplyImageRule(t, selected, images);
    JoinNests(Join(before, source), SharedDockerImpact(t), ImageImpact(t));
    ghost var known := Classification(selected, images);
    if !(frontend || backend || docker || image) {
      selected := selected + {Full, PythonTests};
    }
    JoinUnknown(known, Recognized(t));
    ghost var unknown := if Recognized(t) then NONE else FORCED_FULL;
    JoinNests(Join(before, source), Join(SharedDockerImpact(t), ImageImpact(t)), unknown);
    JoinNests(before, source, Join(Join(SharedDockerImpact(t), ImageImpact(t)), unknown));
  }

  lemma JoinUnknown(c: Classification, recognized: bool)
    ensures Join(c, if recognized then NONE else FORCED_FULL) ==
            if recognized then c else Classification(c.selected + {Full, PythonTests}, c.images)
  {
  }

  method ApplyFrontendRule(t: Touch, selected0: set<Category>, images0: set<Image>)
    returns (selected: set<Category>, images: set<Image>, recognized: bool)
    ensures Classification(selected, images) == Join(Classification(selected0, images0), OnFrontend(t.frontendTree))
    ensures recognized == t.frontendTree
  {
    selected, images, recognized := selected0, images0, false;
    if t.frontendTree {
      selected, images, recognized := selected + {Frontend, SiteUi}, images + {FrontendImage}, true;
    }
  }

  method ApplyBackendRule(t: Touch, selected0: set<Category>, images0: set<Image>)
    returns (selected: set<Category>, images: set<Image>, recognized: bool)
    ensures Classification(selected, images) == Join(Classification(selected0, images0), PythonImpact(t))
    ensures recognized == (t.backendSource || t.tests)
  {
    selected, images, recognized := selected0, images0, false;
    if t.backendSource || t.tests {
      selected, recognized := selected + {Backend, PythonTests}, true;
      if t.backendSource { images := images + {BackendImage}; }
    }
  }

  method ApplyDockerRule(t: Touch, selected0: set<Category>, images0: set<Image>)
    returns (selected: set<Category>, images: set<Image>, recognized: bool)
    ensures Classification(selected, images) == Join(Classification(selected0, images0), SharedDockerImpact(t))
    ensures recognized == t.dockerShared
  {
    selected, images, recognized := selected0, images0, false;
    if t.dockerShared {
      selected, recognized := selected + {DockerShared, PythonTests}, true;
    }
    if t.dockerignore {
      selected := selected + {SiteUi};
    }
  }

  method ApplyImageRule(t: Touch, selected0: set<Category>, images0: set<Image>)
    returns (selected: set<Category>, images: set<Image>, recognized: bool)
    ensures Classification(selected, images) == Join(Classification(selected0, images0), ImageImpact(t))
    ensures recognized == t.image.Some?
  {
    selected, images, recognized := selected0, images0, false;
    if t.image.Some? {
      selected, recognized := selected + {PythonTests}, true;
      if t.image.value == FrontendImage {
        selected, images := selected + {Frontend, SiteUi}, images + {FrontendImage};
      } else {
        selected, images := selected + {Backend}, images + {BackendImage};
      }
    }
  }

  // ----- what holds of every change set

  /** Whatever a change set selects, some path of it selects on its own, and the other way round. */
  lemma {:induction false} SelectedIffSomePath(touches: seq<Touch>, c: Category, image: Image)
    ensures c in ImpactOf(touches).selected <==> exists t :: t in touches && c in Impact(t).selected
    ensures image in ImpactOf(touches).images <==> exists t :: t in touches && image in Impact(t).images
  {
    if touches != [] {
      var front, last := touches[..|touches| - 1], touches[|touches| - 1];
      SelectedIffSomePath(front, c, image);
      assert forall t :: t in touches <==> t in front || t == last;
    }
  }

  /** Growing a non-empty change set never switches off an output, security_only aside, or drops an image;
      so neither order nor repetition of paths matters. */
  lemma ClassificationIsMonotone(small: seq<Touch>, large: seq<Touch>)
    requires small != [] && forall t :: t in small ==> t in large
    ensures Classified(Some(small)).selected - {SecurityOnly} <= Classified(Some(large)).selected
    ensures forall image :: image in DockerMatrix(Classified(Some(small))) ==>
            image in DockerMatrix(Classified(Some(large)))
  {
    hide ImpactOf;
    assert small[0] in large;
    ImpactIsMonotone(small, large);
  }

  lemma ImpactIsMonotone(small: seq<Touch>, large: seq<Touch>)
    requires forall t :: t in small ==> t in large
    ensures ImpactOf(small).selected <= ImpactOf(large).selected && ImpactOf(small).images <= ImpactOf(large).images
  {
    forall c | c in ImpactOf(small).selected ensures c in ImpactOf(large).selected {
      SelectedIffSomePath(small, c, FrontendImage);
      SelectedIffSomePath(large, c, FrontendImage);
    }
    forall image | image in ImpactOf(small).images ensures image in ImpactOf(large).images {
      SelectedIffSomePath(small, Docs, image);
      SelectedIffSomePath(large, Docs, image);
    }
  }

  /** A path that is documentation and nothing else. */
  predicate IsPlainDocs(t: Touch) {
    t.docs && !t.full && !t.example && !t.tutorial && !t.tutorialE2e
  }

  /** What a path selects always hangs together. */
  ghost predicate Coherent(c: Classification) {
    && (Full in c.selected || Backend in c.selected || DockerShared in c.selected ==> PythonTests in c.selected)
    && (PythonTests in c.selected ==>
          Full in c.selected || Backend in c.selected || DockerShared in c.selected || Frontend in c.selected)
    && (Frontend in c.selected ==> SiteUi in c.selected)
    && (Frontend in c.selected <==> FrontendImage in c.images)
    && (BackendImage in c.images ==> Backend in c.selected)
  }

  lemma JoinIsCoherent(a: Classification, b: Classification)
    requires Coherent(a) && Coherent(b)
    ensures Coherent(Join(a, b))
  {
  }

  lemma RulesAreCoherent(t: Touch)
    ensures Coherent(OnFrontend(t.frontendTree)) && Coherent(PythonImpact(t)) && Coherent(SharedDockerImpact(t))
    ensures Coherent(ImageImpact(t)) && Coherent(NONE) && Coherent(FORCED_FULL)
  {
    assert t.image.Some? ==> t.image.value.FrontendImage? || t.image.value.BackendImage?;
  }

  lemma NarrowIsCoherent(t: Touch)
    ensures Coherent(NarrowImpact(t)) && SecurityOnly !in NarrowImpact(t).selected
    ensures Frontend in NarrowImpact(t).selected || PythonTests in NarrowImpact(t).selected
  {
    hide Coherent;
    RulesAreCoherent(t);
    var unknown := if Recognized(t) then NONE else FORCED_FULL;
    JoinIsCoherent(OnFrontend(t.frontendTree), PythonImpact(t));
    JoinIsCoherent(SharedDockerImpact(t), ImageImpact(t));
    JoinIsCoherent(Join(SharedDockerImpact(t), ImageImpact(t)), unknown);
    JoinIsCoherent(Join(OnFrontend(t.frontendTree), PythonImpact(t)),
                   Join(Join(SharedDockerImpact(t), ImageImpact(t)), unknown));
  }

  lemma ExampleIsCoherent(t: Touch)
    ensures Coherent(ExampleImpact(t)) && SecurityOnly !in ExampleImpact(t).selected
            && Backend in ExampleImpact(t).selected
  {
  }

  /** What a path selects apart from the tutorial run. */
  lemma JoinsTutorial(t: Touch, c: Classification)
    requires Impact(t) == Join(Classification(When(t.tutorialE2e, {TutorialE2e}), {}), c)
    requires Coherent(c) && SecurityOnly !in c.selected
    ensures Coherent(Impact(t)) && SecurityOnly !in Impact(t).selected && c.selected <= Impact(t).selected
    ensures Impact(t).selected <= c.selected + {TutorialE2e} && (t.tutorialE2e ==> TutorialE2e in Impact(t).selected)
  {
  }

  lemma PathIsCoherent(t: Touch)
    ensures Coherent(Impact(t)) && SecurityOnly !in Impact(t).selected
    ensures if IsPlainDocs(t) then Impact(t).selected <= {Docs}
            else exists c :: c in Impact(t).selected && c != Docs
  {
    hide NarrowImpact, ExampleImpact;
    if t.full {
      JoinsTutorial(t, FORCED_FULL);
      assert Full in Impact(t).selected;
    } else if t.example || t.tutorial {
      ExampleIsCoherent(t);
      JoinsTutorial(t, ExampleImpact(t));
      assert Backend in Impact(t).selected;
    } else if t.docs {
      JoinsTutorial(t, Classification(When(t.sphinx, {Docs}), {}));
      assert t.tutorialE2e ==> TutorialE2e in Impact(t).selected;
    } else {
      NarrowIsCoherent(t);
      JoinsTutorial(t, NarrowImpact(t));
      assert Frontend in Impact(t).selected || PythonTests in Impact(t).selected;
    }
  }

  lemma {:induction false} ChangeSetIsCoherent(touches: seq<Touch>)
    ensures Coherent(ImpactOf(touches)) && SecurityOnly !in ImpactOf(touches).selected
  {
    if touches != [] {
      ChangeSetIsCoherent(touches[..|touches| - 1]);
      PathIsCoherent(touches[|touches| - 1]);
    }
  }

  /** Application checks are skipped for a change set exactly when every path in it is documentation. */
  lemma SecurityOnlyIffAllDocs(touches: seq<Touch>)
    requires touches != []
    ensures SecurityOnly in Classified(Some(touches)).selected <==> forall t :: t in touches ==> IsPlainDocs(t)
  {
    hide Impact, ImpactOf, Coherent;
    var all := ImpactOf(touches).selected;
    ChangeSetIsCoherent(touches);
    forall c: Category ensures c in all <==> exists t :: t in touches && c in Impact(t).selected {
      SelectedIffSomePath(touches, c, FrontendImage);
    }
    if t :| t in touches && !IsPlainDocs(t) {
      PathIsCoherent(t);
      var c :| c in Impact(t).selected && c != Docs;
      assert c in all && c != SecurityOnly;
      SomethingRuns(ImpactOf(touches), c);
    } else {
      forall c | c in all ensures c == Docs {
        var t :| t in touches && c in Impact(t).selected;
        PathIsCoherent(t);
      }
    }
  }

  lemma SomethingRuns(all: Classification, c: Category)
    requires c in all.selected && c != Docs && c != SecurityOnly && SecurityOnly !in all.selected
    ensures SecurityOnly !in Concluded(all).selected
  {
  }
}

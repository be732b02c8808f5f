/** Which checks and images every kind of changed file selects, from its path alone. */
module PathOutcomes {
  import opened Options
  import opened PathRules
  import opened ChangeClassifier
  import opened CiGate

  predicate Markdown(path: string) { EndsWith(path, ".md") }

  function Selects(path: string): Classification { Impact(TouchOf(path)) }

  /** A path no rule looks at. */
  const UNTOUCHED := Touch(false, false, false, false, false, false, false, false, false, false, false, false, None)

  // ----- which rules can meet a path, by how it begins

  lemma FullBegins(path: string)
    ensures IsFull(path) ==> path != "" && path[0] in {'p', 'u', 'R', 'M', '.', 'c', 'd'}
  {
  }

  lemma TutorialFileBegins(path: string)
    ensures IsTutorialFile(path) ==> path != "" && path[0] in {'.', 'M', 'd'}
  {
    DockerNames();
  }

  lemma DockerNames()
    ensures "deploy/docker/Dockerfile.frontend"[0] == "deploy/docker/Dockerfile.frontend.dockerignore"[0] == 'd'
    ensures "deploy/docker/Dockerfile.backend"[0] == "deploy/docker/Dockerfile.backend.dockerignore"[0] == 'd'
    ensures "deploy/docker/docker-compose.yml"[0] == "docs/developer/router-tutorial.md"[0] == 'd'
  {
  }

  lemma DocsBegin(path: string)
    ensures IsDocs(path) && !Markdown(path) ==> path != "" && path[0] in {'L', 'd'}
  {
  }

  lemma DockerFileBegins(path: string)
    ensures path in {".dockerignore", "deploy/docker/docker-compose.yml"} ==> path[0] in {'.', 'd'}
    ensures ImageFile(path).Some? ==> path != "" && path[0] == 'd'
  {
    DockerNames();
  }

  /** What a path outside documentation, containers and distributions can meet. */
  lemma PlainPath(path: string)
    requires path != "" && path[0] in {'a', 't'} && !Markdown(path)
    ensures TouchOf(path) ==
            UNTOUCHED.(tutorialE2e := "apps/backend/" <= path || "apps/frontend/" <= path,
                       frontendTree := "apps/frontend/" <= path, backendSource := "apps/backend/" <= path,
                       tests := "tests/" <= path)
  {
    hide IsFull, IsDocs, IsTutorialFile, ImageFile, IsOverlayDocs;
    FullBegins(path);
    TutorialFileBegins(path);
    DocsBegin(path);
    DockerFileBegins(path);
  }

  // ----- the applications and their tests

  lemma SelectsOf(t: Touch)
    ensures t == UNTOUCHED.(tutorialE2e := true, frontendTree := true) ==>
              Impact(t) == Classification({Frontend, SiteUi, TutorialE2e}, {FrontendImage})
    ensures t == UNTOUCHED.(tutorialE2e := true, backendSource := true) ==>
              Impact(t) == Classification({Backend, PythonTests, TutorialE2e}, {BackendImage})
    ensures t == UNTOUCHED.(tests := true) ==> Impact(t) == Classification({Backend, PythonTests}, {})
  {
  }

  lemma FrontendFiles(path: string)
    requires "apps/frontend/" <= path && !Markdown(path)
    ensures Selects(path) == Classification({Frontend, SiteUi, TutorialE2e}, {FrontendImage})
  {
    hide TouchOf, Impact, EndsWith;
    PlainPath(path);
    assert path[5] == 'f' && path[0] == 'a';
    SelectsOf(TouchOf(path));
  }

  lemma BackendFiles(path: string)
    requires "apps/backend/" <= path && !Markdown(path)
    ensures Selects(path) == Classification({Backend, PythonTests, TutorialE2e}, {BackendImage})
  {
    hide TouchOf, Impact, EndsWith;
    PlainPath(path);
    assert path[5] == 'b' && path[0] == 'a';
    SelectsOf(TouchOf(path));
  }

  lemma TestFiles(path: string)
    requires "tests/" <= path && !Markdown(path)
    ensures Selects(path) == Classification({Backend, PythonTests}, {})
  {
    hide TouchOf, Impact, EndsWith;
    PlainPath(path);
    assert path[0] == 't';
    SelectsOf(TouchOf(path));
  }

  /** The frontend image's built-in module directory. */
  lemma SiteUiFiles(path: string)
    requires "deploy/docker/site-ui/" <= path && !Markdown(path)
    ensures Selects(path) == Classification({Frontend, SiteUi, TutorialE2e}, {FrontendImage})
  {
    hide Impact, EndsWith, IsTutorialFile;
    assert path[0] == 'd' && path[1] == 'e' && path[14] == 's';
    DeployBegins(path);
    SelectsOf(TouchOf(path));
  }

  /** What no path under `deploy/` is, and what one that is no container file is not. */
  lemma DeployBegins(path: string)
    requires |path| > 14 && path[0] == 'd' && path[1] == 'e'
    ensures !IsFull(path) && !IsExample(path) && !IsOverlayDocs(path) && !IsTutorial(path) && !IsSphinxSource(path)
    ensures !Markdown(path) ==> !IsDocs(path)
    ensures path[14] == 's' ==> !IsTutorialFile(path) && ImageFile(path).None?
    ensures path[14] == 's' ==> path !in {".dockerignore", "deploy/docker/docker-compose.yml"}
  {
    DockerNames();
    assert "deploy/docker/Dockerfile.frontend"[14] == "deploy/docker/Dockerfile.frontend.dockerignore"[14] == 'D';
    assert "deploy/docker/Dockerfile.backend"[14] == "deploy/docker/Dockerfile.backend.dockerignore"[14] == 'D';
    assert "deploy/docker/docker-compose.yml"[14] == 'd';
    assert "docs/developer/router-tutorial.md"[1] == 'o' && "docs/developer/"[1] == "docs/"[1] == 'o';
    assert "distributions/"[1] == "distributions/example/"[1] == 'i';
    assert ".dockerignore"[0] == '.';
  }

  // ----- what builds everything

  lemma FullSelects(t: Touch)
    requires t.full
    ensures Impact(t) == Classification({Full, PythonTests} + if t.tutorialE2e then {TutorialE2e} else {}, {})
  {
  }

  lemma FullFiles(path: string)
    requires || path in {"pyproject.toml", "uv.lock", "README.md", "Makefile"}
             || ".github/workflows/" <= path || "config/" <= path
    ensures Selects(path) ==
            Classification({Full, PythonTests} + if path == "Makefile" then {TutorialE2e} else {}, {})
  {
    hide Impact, EndsWith, IsTutorialE2e, IsFull;
    assert path[0] in {'p', 'u', 'R', 'M', '.', 'c'};
    FullIs(path);
    FullIsNotRun(path);
    FullSelects(TouchOf(path));
  }

  lemma FullIs(path: string)
    requires || path in {"pyproject.toml", "uv.lock", "README.md", "Makefile"}
             || ".github/workflows/" <= path || "config/" <= path
    requires path[0] in {'p', 'u', 'R', 'M', '.', 'c'}
    ensures IsFull(path)
  {
    assert OVERLAYS[0] == "distributions/example/"[0] == 'd';
  }

  /** Only the Makefile also runs the tutorial. */
  lemma FullIsNotRun(path: string)
    requires || path in {"pyproject.toml", "uv.lock", "README.md", "Makefile"}
             || ".github/workflows/" <= path || "config/" <= path
    requires path[0] in {'p', 'u', 'R', 'M', '.', 'c'}
    ensures IsTutorialE2e(path) <==> path == "Makefile"
  {
    hide EndsWith;
    ContainerNamesAreNoMarkdown();
    DockerNames();
    assert "distributions/example/"[0] == "deploy/docker/site-ui/"[0] == 'd' && "apps/"[0] == 'a';
    assert "apps/backend/"[0] == "apps/frontend/"[0] == 'a';
    if path[0] == '.' {
      assert path[1] == 'g' && ".dockerignore"[1] == 'd';
    }
  }

  /** Documentation content of a distribution: its name is one path segment. */
  ghost predicate OverlayDocs(path: string) {
    exists name, rest :: name != "" && '/' !in name && path == OVERLAYS + name + "/content/docs/" + rest
  }

  lemma FirstSlashIs(s: string, i: nat)
    requires i < |s| && s[i] == '/' && forall k :: 0 <= k < i ==> s[k] != '/'
    ensures FirstSlash(s) == i
  {
  }

  lemma OverlayDocsIf(path: string, name: string, rest: string)
    requires name != "" && '/' !in name && path == OVERLAYS + name + "/content/docs/" + rest
    ensures IsOverlayDocs(path)
  {
    var content := "/content/docs/";
    var tail := name + content + rest;
    assert path == OVERLAYS + tail && path[|OVERLAYS|..] == tail;
    assert content[0] == '/' && tail[|name|] == content[0];
    forall k | 0 <= k < |name| ensures tail[k] != '/' {
      assert tail[k] == name[k] && name[k] in name;
    }
    FirstSlashIs(tail, |name|);
    assert tail[|name|..] == content + rest;
  }

  lemma OverlayDocsOnlyIf(path: string)
    requires IsOverlayDocs(path)
    ensures OverlayDocs(path)
  {
    var content, tail := "/content/docs/", path[|OVERLAYS|..];
    var i := FirstSlash(tail);
    var name, rest := tail[..i], tail[i + |content|..];
    assert tail[i..] == content + rest;
    assert tail == name + tail[i..];
    assert path == OVERLAYS + tail;
    assert path == OVERLAYS + name + content + rest;
  }

  lemma OverlayDocsIff(path: string)
    ensures IsOverlayDocs(path) <==> OverlayDocs(path)
  {
    if name, rest :| name != "" && '/' !in name && path == OVERLAYS + name + "/content/docs/" + rest {
      OverlayDocsIf(path, name, rest);
    }
    if IsOverlayDocs(path) {
      OverlayDocsOnlyIf(path);
    }
  }

  /** A distribution's files run everything, its documentation content nothing. */
  lemma DistributionFiles(path: string)
    requires "distributions/" <= path && !("distributions/example/" <= path)
    ensures Selects(path) == if OverlayDocs(path) then NONE else FORCED_FULL
  {
    hide Impact, EndsWith, IsOverlayDocs, OverlayDocs, FirstSlash;
    OverlayDocsIff(path);
    assert path[0] == 'd' && path[1] == 'i';
    NotTutorial(path);
    if OverlayDocs(path) {
      DocsSelect(TouchOf(path));
    } else {
      FullSelects(TouchOf(path));
    }
  }

  lemma NotTutorial(path: string)
    requires |path| > 1 && path[0] == 'd' && path[1] == 'i'
    ensures !IsTutorialFile(path) && !IsTutorial(path) && !IsSphinxSource(path)
    ensures !("deploy/docker/site-ui/" <= path) && !("apps/backend/" <= path) && !("apps/frontend/" <= path)
  {
    DockerNames();
    assert "deploy/docker/Dockerfile.frontend"[1] == "deploy/docker/Dockerfile.frontend.dockerignore"[1] == 'e';
    assert "deploy/docker/Dockerfile.backend"[1] == "deploy/docker/Dockerfile.backend.dockerignore"[1] == 'e';
    assert "deploy/docker/docker-compose.yml"[1] == "deploy/docker/site-ui/"[1] == 'e';
    assert "docs/developer/router-tutorial.md"[1] == "docs/developer/"[1] == 'o';
    assert ".dockerignore"[0] == '.' && "Makefile"[0] == 'M';
    assert "apps/backend/"[0] == "apps/frontend/"[0] == 'a';
  }

  /** The runnable example counts as backend, and its frontend part as frontend too, its Markdown included. */
  lemma ExampleFiles(path: string)
    requires "distributions/example/" <= path
    ensures Selects(path) ==
            if "distributions/example/frontend/" <= path
            then Classification({Backend, Frontend, PythonTests, SiteUi, TutorialE2e}, {FrontendImage, BackendImage})
            else Classification({Backend, PythonTests, SiteUi, TutorialE2e}, {BackendImage})
  {
    hide Impact, EndsWith, IsOverlayDocs;
    assert path[0] == 'd' && path[1] == 'i';
    NotTutorial(path);
    NotFullExample(path);
    ExampleSelects(TouchOf(path));
  }

  lemma NotFullExample(path: string)
    requires IsExample(path)
    ensures !IsFull(path)
  {
  }

  lemma ExampleSelects(t: Touch)
    requires t.example && !t.full && t.tutorialE2e && !t.sphinx
    ensures Impact(t) ==
            if t.exampleFrontend
            then Classification({Backend, Frontend, PythonTests, SiteUi, TutorialE2e}, {FrontendImage, BackendImage})
            else Classification({Backend, PythonTests, SiteUi, TutorialE2e}, {BackendImage})
  {
  }

  // ----- documentation

  lemma DocsSelect(t: Touch)
    requires t.docs && !t.full && !t.example && !t.tutorial && !t.tutorialE2e
    ensures Impact(t) == Classification(if t.sphinx then {Docs} else {}, {})
  {
  }

  /** A documentation file selects the docs build if it is Sphinx source, and no check or image at all otherwise. */
  lemma DocumentationFiles(path: string)
    requires path == "LICENSE" || "docs/" <= path || Markdown(path)
    requires path != "README.md" && path != "docs/developer/router-tutorial.md"
    requires !(".github/workflows/" <= path) && !("config/" <= path) && !("distributions/" <= path)
    ensures Selects(path) == Classification(if "docs/developer/" <= path then {Docs} else {}, {})
  {
    hide Impact, IsOverlayDocs, EndsWith;
    DocumentsAreNoInput(path);
    DocsSelect(TouchOf(path));
  }

  lemma NotMarkdown(path: string, last: char)
    requires path != "" && path[|path| - 1] == last && last != 'd'
    ensures !Markdown(path)
  {
  }

  lemma ContainerNamesAreNoMarkdown()
    ensures !Markdown("deploy/docker/Dockerfile.frontend.dockerignore") && !Markdown(".dockerignore")
    ensures !Markdown("deploy/docker/Dockerfile.backend.dockerignore")
    ensures !Markdown("deploy/docker/Dockerfile.frontend") && !Markdown("deploy/docker/Dockerfile.backend")
    ensures !Markdown("deploy/docker/docker-compose.yml") && !Markdown("Makefile")
    ensures !Markdown("pyproject.toml") && !Markdown("uv.lock")
  {
    NotMarkdown("deploy/docker/Dockerfile.frontend.dockerignore", 'e');
    NotMarkdown("deploy/docker/Dockerfile.backend.dockerignore", 'e');
    NotMarkdown(".dockerignore", 'e');
    NotMarkdown("Makefile", 'e');
    NotMarkdown("deploy/docker/docker-compose.yml", 'l');
    NotMarkdown("pyproject.toml", 'l');
    NotMarkdown("uv.lock", 'k');
    EndsOtherwise("deploy/docker/Dockerfile.frontend");
    EndsOtherwise("deploy/docker/Dockerfile.backend");
  }

  lemma EndsOtherwise(path: string)
    requires |path| > 1 && path[|path| - 2] != 'm'
    ensures !Markdown(path)
  {
  }

  lemma DocumentsAreNoInput(path: string)
    requires path == "LICENSE" || "docs/" <= path || Markdown(path)
    requires path != "README.md" && path != "docs/developer/router-tutorial.md"
    requires !(".github/workflows/" <= path) && !("config/" <= path) && !("distributions/" <= path)
    ensures IsDocs(path) && !IsFull(path) && !IsExample(path) && !IsTutorial(path) && !IsTutorialE2e(path)
  {
    hide EndsWith;
    ContainerNamesAreNoMarkdown();
    DockerNames();
    assert "distributions/example/" <= path ==> "distributions/" <= path by {
      assert "distributions/" <= "distributions/example/";
    }
    if path == "LICENSE" {
      assert path[0] == 'L';
    } else if "docs/" <= path {
      assert path[0] == 'd' && path[1] == 'o';
      assert "deploy/docker/Dockerfile.frontend"[1] == "deploy/docker/Dockerfile.frontend.dockerignore"[1] == 'e';
      assert "deploy/docker/Dockerfile.backend"[1] == "deploy/docker/Dockerfile.backend.dockerignore"[1] == 'e';
      assert "deploy/docker/docker-compose.yml"[1] == "deploy/docker/site-ui/"[1] == 'e';
    }
  }

  /** The tutorial page's claims are tested: it runs the backend's checks and builds besides its own. */
  lemma TutorialPage()
    ensures Selects("docs/developer/router-tutorial.md") ==
            Classification({Backend, PythonTests, Docs, TutorialE2e}, {BackendImage})
  {
    hide Impact, EndsWith;
    var path := "docs/developer/router-tutorial.md";
    TutorialIsNoInput(path);
    assert IsTutorial(path) && IsTutorialFile(path) && IsTutorialE2e(path);
    TutorialSelects(TouchOf(path));
  }

  lemma TutorialIsNoInput(path: string)
    requires path == "docs/developer/router-tutorial.md"
    ensures !IsFull(path) && !IsExample(path) && IsSphinxSource(path)
    ensures !("distributions/example/frontend/" <= path)
  {
    assert path[0] == 'd' && path[1] == 'o' && OVERLAYS[1] == "distributions/example/"[1] == 'i';
    assert "distributions/example/frontend/"[1] == 'i';
  }

  lemma TutorialSelects(t: Touch)
    requires t.tutorial && !t.full && !t.example && t.tutorialE2e && t.sphinx && !t.exampleFrontend
    ensures Impact(t) == Classification({Backend, PythonTests, Docs, TutorialE2e}, {BackendImage})
  {
  }

  // ----- container files

  lemma ContainerSelects(t: Touch)
    ensures t == UNTOUCHED.(tutorialE2e := true, dockerShared := true, dockerignore := true) ==>
              Impact(t) == Classification({DockerShared, PythonTests, SiteUi, TutorialE2e}, {})
    ensures t == UNTOUCHED.(tutorialE2e := true, dockerShared := true) ==>
              Impact(t) == Classification({DockerShared, PythonTests, TutorialE2e}, {})
    ensures t == UNTOUCHED.(tutorialE2e := true, image := Some(FrontendImage)) ==>
              Impact(t) == Classification({Frontend, PythonTests, SiteUi, TutorialE2e}, {FrontendImage})
    ensures t == UNTOUCHED.(tutorialE2e := true, image := Some(BackendImage)) ==>
              Impact(t) == Classification({Backend, PythonTests, TutorialE2e}, {BackendImage})
  {
  }

  lemma DockerignoreFile()
    ensures Selects(".dockerignore") == Classification({DockerShared, PythonTests, SiteUi, TutorialE2e}, {})
  {
    hide Impact, EndsWith, IsOverlayDocs;
    var path := ".dockerignore";
    ContainerNamesAreNoMarkdown();
    DockerNames();
    assert path[0] == '.' && path[1] == 'd' && ".github/workflows/"[1] == 'g';
    assert "distributions/"[0] == "distributions/example/"[0] == "docs/"[0] == "docs/developer/"[0] == 'd';
    assert !IsOverlayDocs(path) by { OverlayBegins(path); }
    assert TouchOf(path) == UNTOUCHED.(tutorialE2e := true, dockerShared := true, dockerignore := true);
    ContainerSelects(TouchOf(path));
  }

  lemma OverlayBegins(path: string)
    ensures IsOverlayDocs(path) ==> OVERLAYS <= path
  {
  }

  lemma ComposeFile()
    ensures Selects("deploy/docker/docker-compose.yml") == Classification({DockerShared, PythonTests, TutorialE2e}, {})
  {
    hide Impact, EndsWith;
    var path := "deploy/docker/docker-compose.yml";
    ContainerNamesAreNoMarkdown();
    DockerNames();
    DeployBegins(path);
    ComposeIsNoImage(path);
    hide IsFull, IsDocs, IsTutorial, IsExample, IsSphinxSource, ImageFile, IsOverlayDocs;
    assert path[14] == 'd' && "deploy/docker/site-ui/"[14] == 's';
    assert "apps/frontend/"[0] == "apps/backend/"[0] == 'a' && "tests/"[0] == 't' && ".dockerignore"[0] == '.';
    assert "distributions/example/frontend/"[1] == 'i';
    assert TouchOf(path) == UNTOUCHED.(tutorialE2e := true, dockerShared := true);
    ContainerSelects(TouchOf(path));
  }

  lemma ComposeIsNoImage(path: string)
    requires path == "deploy/docker/docker-compose.yml"
    ensures ImageFile(path).None?
  {
    assert path[14] == 'd';
    if ImageFile(path).Some? {
      ImageBegins(path);
    }
  }

  lemma ImageFiles(path: string)
    requires ImageFile(path).Some?
    ensures path in {"deploy/docker/Dockerfile.frontend", "deploy/docker/Dockerfile.frontend.dockerignore"} ==>
              Selects(path) == Classification({Frontend, PythonTests, SiteUi, TutorialE2e}, {FrontendImage})
    ensures path in {"deploy/docker/Dockerfile.backend", "deploy/docker/Dockerfile.backend.dockerignore"} ==>
              Selects(path) == Classification({Backend, PythonTests, TutorialE2e}, {BackendImage})
  {
    hide Impact, EndsWith, IsDocs, IsOverlayDocs;
    ContainerNamesAreNoMarkdown();
    ImageTouch(path);
    FrontendOrBackend();
    ContainerSelects(TouchOf(path));
  }

  lemma FrontendOrBackend()
    ensures "deploy/docker/Dockerfile.frontend"[25] == "deploy/docker/Dockerfile.frontend.dockerignore"[25] == 'f'
    ensures "deploy/docker/Dockerfile.backend"[25] == "deploy/docker/Dockerfile.backend.dockerignore"[25] == 'b'
  {
  }

  lemma ImageTouch(path: string)
    requires ImageFile(path).Some? && !Markdown(path)
    ensures TouchOf(path) == UNTOUCHED.(tutorialE2e := true, image := ImageFile(path))
  {
    hide EndsWith, IsOverlayDocs, IsDocs, IsFull, IsTutorialE2e, IsTutorial, IsExample, IsSphinxSource, ImageFile;
    ImageBegins(path);
    DeployBegins(path);
    ImageIsRun(path);
    assert "deploy/docker/site-ui/"[14] == 's' && "deploy/docker/docker-compose.yml"[14] == 'd';
    assert "apps/frontend/"[0] == "apps/backend/"[0] == 'a' && "tests/"[0] == 't' && ".dockerignore"[0] == '.';
    assert "distributions/example/frontend/"[1] == 'i';
  }

  lemma ImageIsRun(path: string)
    requires ImageFile(path).Some?
    ensures IsTutorialE2e(path)
  {
    hide EndsWith;
  }

  lemma ImageBegins(path: string)
    requires ImageFile(path).Some?
    ensures |path| > 14 && path[0] == 'd' && path[1] == 'e' && path[14] == 'D'
  {
    var front, frontIgnore := "deploy/docker/Dockerfile.frontend", "deploy/docker/Dockerfile.frontend.dockerignore";
    var back, backIgnore := "deploy/docker/Dockerfile.backend", "deploy/docker/Dockerfile.backend.dockerignore";
    DockerNames();
    assert front[1] == frontIgnore[1] == back[1] == backIgnore[1] == 'e';
    assert front[14] == frontIgnore[14] == back[14] == backIgnore[14] == 'D';
    assert path == front || path == frontIgnore || path == back || path == backIgnore;
  }

  // ----- everything else

  /** A file none of these rules names runs everything. */
  lemma UnknownFiles(path: string)
    requires !("apps/frontend/" <= path) && !("apps/backend/" <= path) && !("tests/" <= path)
    requires !("deploy/docker/site-ui/" <= path) && !("distributions/" <= path) && !("docs/" <= path)
    requires path != "LICENSE" && !Markdown(path)
    requires path !in {".dockerignore", "deploy/docker/docker-compose.yml", "deploy/docker/Dockerfile.frontend"}
    requires path !in {"deploy/docker/Dockerfile.frontend.dockerignore", "deploy/docker/Dockerfile.backend"}
    requires path != "deploy/docker/Dockerfile.backend.dockerignore"
    ensures Full in Selects(path).selected && PythonTests in Selects(path).selected
  {
    hide EndsWith, IsFull, IsTutorialE2e, Impact;
    assert "distributions/" <= "distributions/example/" && "distributions/" <= OVERLAYS && "docs/" <= "docs/developer/";
    assert "docs/" <= "docs/developer/router-tutorial.md";
    assert !IsExample(path) && !IsTutorial(path) && !IsDocs(path);
    UnknownSelects(TouchOf(path));
  }

  lemma UnknownSelects(t: Touch)
    requires !t.example && !t.tutorial && !t.docs && !Recognized(t)
    ensures Full in Impact(t).selected && PythonTests in Impact(t).selected
  {
  }

  // ----- through the gate

  /** An accepted pull request that changed a backend source file has linted, tested, built and exercised it. */
  lemma AcceptedBackendChange(paths: seq<string>, path: string, results: map<Job, JobResult>, job: Job)
    requires path in paths && "apps/backend/" <= path && !Markdown(path)
    requires Passes(PullRequest, Write(OutputsOf(Classified(Some(Read(paths))))), results)
    requires job in {BackendQuality, Test, Tutorial, DockerBuild}
    ensures job in results && results[job] == Success
  {
    hide Passes, Write, Classified, Selects;
    BackendFiles(path);
    OneFile(path);
    AcceptedChecksEveryFile(paths, path, results, job);
  }

  /** One that changed a frontend source file has checked the frontend, its containers and the tutorial. */
  lemma AcceptedFrontendChange(paths: seq<string>, path: string, results: map<Job, JobResult>, job: Job)
    requires path in paths && "apps/frontend/" <= path && !Markdown(path)
    requires Passes(PullRequest, Write(OutputsOf(Classified(Some(Read(paths))))), results)
    requires job in {FrontendQuality, SiteUiContainers, Tutorial, DockerBuild}
    ensures job in results && results[job] == Success
  {
    hide Passes, Write, Classified, Selects;
    FrontendFiles(path);
    OneFile(path);
    AcceptedChecksEveryFile(paths, path, results, job);
  }

  lemma OneFile(path: string)
    requires Narrow(Selects(path)) || Full in Selects(path).selected
    ensures Classified(Some(Read([path]))) == Selects(path)
  {
    hide TouchOf, Impact;
    var touches := Read([path]);
    assert touches == [TouchOf(path)] && touches[..0] == [];
    assert ImpactOf([]) == NONE;
    var c := Selects(path);
    assert Join(NONE, c) == c;
  }
}

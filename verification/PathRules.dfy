/** The rules that sort one changed path, on its text. */
module PathRules {
  import opened Options

  datatype Image = FrontendImage | BackendImage

  predicate StartsWith(path: string, prefix: string) { prefix <= path }

  predicate EndsWith(path: string, suffix: string) {
    |suffix| <= |path| && path[|path| - |suffix|..] == suffix
  }

  /** The index of the first slash, or the length when there is none. */
  function FirstSlash(s: string): (i: nat)
    ensures i <= |s| && (i < |s| ==> s[i] == '/') && forall k :: 0 <= k < i ==> s[k] != '/'
  {
    if s == "" || s[0] == '/' then 0 else 1 + FirstSlash(s[1..])
  }

  const OVERLAYS := "distributions/"

  /** Documentation content of any one distribution overlay. */
  predicate IsOverlayDocs(path: string) {
    StartsWith(path, OVERLAYS)
    && var rest := path[|OVERLAYS|..];
       FirstSlash(rest) > 0 && StartsWith(rest[FirstSlash(rest)..], "/content/docs/")
  }

  predicate IsExample(path: string) { StartsWith(path, "distributions/example/") }

  predicate IsTutorial(path: string) { path == "docs/developer/router-tutorial.md" }

  predicate IsFull(path: string) {
    && !IsOverlayDocs(path) && !IsExample(path)
    && (path in {"pyproject.toml", "uv.lock", "README.md", "Makefile"}
        || StartsWith(path, ".github/workflows/") || StartsWith(path, "config/") || StartsWith(path, OVERLAYS))
  }

  predicate IsDocs(path: string) {
    path == "LICENSE" || StartsWith(path, "docs/") || IsOverlayDocs(path) || EndsWith(path, ".md")
  }

  predicate IsTutorialFile(path: string) {
    || path in {".dockerignore", "Makefile", "deploy/docker/docker-compose.yml"}
    || path in {"deploy/docker/Dockerfile.backend", "deploy/docker/Dockerfile.backend.dockerignore"}
    || path in {"deploy/docker/Dockerfile.frontend", "deploy/docker/Dockerfile.frontend.dockerignore"}
    || IsTutorial(path)
  }

  predicate IsTutorialE2e(path: string) {
    if EndsWith(path, ".md") && !IsTutorialFile(path) && !IsExample(path) then false
    else
      || IsTutorialFile(path) || IsExample(path) || StartsWith(path, "deploy/docker/site-ui/")
      || StartsWith(path, "apps/backend/") || StartsWith(path, "apps/frontend/")
  }

  predicate IsSphinxSource(path: string) { StartsWith(path, "docs/developer/") }

  /** Which rules a path meets. */
  datatype Touch = Touch(
    full: bool,
    example: bool,
    exampleFrontend: bool,
    tutorial: bool,
    tutorialE2e: bool,
    docs: bool,
    sphinx: bool,
    frontendTree: bool,
    backendSource: bool,
    tests: bool,
    dockerShared: bool,
    dockerignore: bool,
    image: Option<Image>)

  function ImageFile(path: string): Option<Image> {
    if path in {"deploy/docker/Dockerfile.frontend", "deploy/docker/Dockerfile.frontend.dockerignore"}
        then Some(FrontendImage)
    else if path in {"deploy/docker/Dockerfile.backend", "deploy/docker/Dockerfile.backend.dockerignore"}
        then Some(BackendImage)
    else None
  }

  function TouchOf(path: string): Touch {
    Touch(
      IsFull(path),
      IsExample(path),
      StartsWith(path, "distributions/example/frontend/"),
      IsTutorial(path),
      IsTutorialE2e(path),
      IsDocs(path),
      IsSphinxSource(path),
      StartsWith(path, "apps/frontend/") || StartsWith(path, "deploy/docker/site-ui/"),
      StartsWith(path, "apps/backend/"),
      StartsWith(path, "tests/"),
      path in {".dockerignore", "deploy/docker/docker-compose.yml"},
      path == ".dockerignore",
      ImageFile(path))
  }

  /** The rules met by each path of a change set. */
  function Read(paths: seq<string>): (r: seq<Touch>)
    ensures |r| == |paths|
  {
    seq(|paths|, i requires 0 <= i < |paths| => TouchOf(paths[i]))
  }
}

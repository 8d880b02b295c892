// The build steps of build/build_docker_images.py for one python component:
// tag the base image, add the aladdin boilerplate, apply the component's own
// Dockerfile, probe the image, add poetry, add each dependency and then the
// component itself. Every step moves the component's tag to a new image by
// one external call; the steps that restrict the docker context do so inside
// a .dockerignore scope. Each method is proved against the calls it makes
// (the Host trace) and the file it leaves behind.

module Steps {
  import opened Strings
  import opened Values
  import opened Config
  import opened Descriptor
  import opened Docker
  import opened Ignore
  import opened Probe

  const AladdinizeDockerfile: string := "build/python/aladdinize.dockerfile"
  const LobotomizeDockerfile: string := "build/python/lobotomize.dockerfile"
  const AddPoetryDockerfile: string := "build/python/add-poetry.dockerfile"
  const DependenciesDockerfile: string := "build/python/add-component-python-dependencies.dockerfile"
  const ContentDockerfile: string := "build/python/add-component-content.dockerfile"
  const EchoMessageDockerfile: string := "build/python/echo-message.dockerfile"

  /** The throw-away image the probes run in, and the command that removes it. */
  const ExtractorTag: string := "user_extractor"
  const RemoveExtractor: seq<string> := ["docker", "rmi", "user_extractor"]

  /** Build arguments in the insertion order of the dict literal that names them. */
  type BuildArgs = seq<(string, string)>

  function TagCommand(base: string, tag: string): seq<string>
  {
    ["docker", "tag", base, tag]
  }

  /** dict(FROM_IMAGE=tag, PYTHON_OPTIMIZE=...): the arguments of every step that lays one template over the tag. */
  function LayerArgs(p: BuildParams): BuildArgs
  {
    [("FROM_IMAGE", Tag(p)), ("PYTHON_OPTIMIZE", PythonOptimize(p))]
  }

  /** USER_HOME and USER_CHOWN: formatting a field that is still UNDEFINED raises NotImplementedError. */
  function UserArgs(u: UserInfo): (r: Result<BuildArgs>)
    ensures r.Ok? <==> u.Resolved()
  {
    match (u.Chown(), Format(u.home))
    case (Raise(e), _) => Raise(e)
    case (_, Raise(e)) => Raise(e)
    case (Ok(chown), Ok(home)) => Ok([("USER_HOME", home), ("USER_CHOWN", chown)])
  }

  function PoetryArgs(p: BuildParams, late: Option<string>, u: UserInfo): (r: Result<BuildArgs>)
    ensures r.Ok? <==> late.Some? && u.Resolved()
  {
    match (BuilderImage(late), UserArgs(u))
    case (Raise(e), _) => Raise(e)
    case (_, Raise(e)) => Raise(e)
    case (Ok(builder), Ok(user)) =>
      Ok([("BUILDER_IMAGE", builder), ("FROM_IMAGE", Tag(p)), ("POETRY_VERSION", p.poetryVersion)] + user)
  }

  function DependencyArgs(p: BuildParams, component: string, late: Option<string>, u: UserInfo): (r: Result<BuildArgs>)
    ensures r.Ok? <==> late.Some? && u.Resolved()
  {
    match (BuilderImage(late), UserArgs(u))
    case (Raise(e), _) => Raise(e)
    case (_, Raise(e)) => Raise(e)
    case (Ok(builder), Ok(user)) =>
      Ok([("BUILDER_IMAGE", builder), ("FROM_IMAGE", Tag(p)), ("COMPONENT", component), ("POETRY_VERSION", p.poetryVersion),
          ("POETRY_NO_DEV", PoetryNoDev(p)), ("PYTHON_OPTIMIZE", PythonOptimize(p))] + user)
  }

  /** add_poetry's context: pip.conf and poetry.toml, and whatever the original file already admits. */
  const PoetryScope: seq<Directive> := [Directive.IgnoreAll] + [Include("pip.conf")] + [Include("poetry.toml")] + [Directive.IgnoreDefaults]

  /** add_component_python_dependencies' context: exactly the files a poetry install needs. */
  function DependencyScope(component: string): seq<Directive>
  {
    [Directive.IgnoreAll] + [Include("pip.conf")] + [Include("poetry.toml")] + [Include(component + "/pyproject.toml")] + [Include(component + "/poetry.lock")]
  }

  /** add_component_content's context: the component's directory, minus the original exclusions. */
  function ContentScope(component: string): seq<Directive>
  {
    [Directive.IgnoreAll] + [Include(component)] + [Directive.IgnoreDefaults]
  }

  // What each step sets out to do. `ignore` is the content of components/.dockerignore outside
  // the scopes: the unscoped steps build with it, and each scope is written from it.

  /** tag_base_image: formatting a base image that is not a string into the command raises TypeError. */
  function TagPlan(p: BuildParams, languageVersion: string, ignore: string): Plan
  {
    match BaseImage(p, languageVersion)
    case Raise(e) => Raising(e)
    case Ok(base) => Single(Call(TagCommand(base, Tag(p)), ignore))
  }

  function AladdinizePlan(p: BuildParams, ignore: string): Plan
  {
    Single(Call(BuildCommand(AladdinizeDockerfile, Tag(p), LayerArgs(p)), ignore))
  }

  /** build_specialized_image: without a Dockerfile the path is None, which the command cannot hold. */
  function SpecializedPlan(p: BuildParams, existing: set<string>, ignore: string): Plan
  {
    match SpecializedDockerfile(p, existing)
    case None => Raising(TypeError("expected str, bytes or os.PathLike object, not NoneType"))
    case Some(dockerfile) => Single(Call(BuildCommand(dockerfile, Tag(p), LayerArgs(p)), ignore))
  }

  function PoetryPlan(p: BuildParams, late: Option<string>, u: UserInfo, ignore: string): Plan
  {
    match PoetryArgs(p, late, u)
    case Raise(e) => Raising(e)
    case Ok(args) => Single(Call(BuildCommand(AddPoetryDockerfile, Tag(p), args), ScopedFile(ignore, PoetryScope)))
  }

  function DependencyPlan(p: BuildParams, component: string, late: Option<string>, u: UserInfo, ignore: string): Plan
  {
    match DependencyArgs(p, component, late, u)
    case Raise(e) => Raising(e)
    case Ok(args) => Single(Call(BuildCommand(DependenciesDockerfile, Tag(p), args), ScopedFile(ignore, DependencyScope(component))))
  }

  function ContentPlan(p: BuildParams, component: string, ignore: string): Plan
  {
    Single(Call(BuildCommand(ContentDockerfile, Tag(p), LayerArgs(p)), ScopedFile(ignore, ContentScope(component))))
  }

  /** add_component: the poetry install (decided by the files of the component being built), then the content. */
  function ComponentPlan(p: BuildParams, component: string, late: Option<string>, u: UserInfo, existing: set<string>, ignore: string): Plan
  {
    Then(if HasPythonDependencies(p, existing) then DependencyPlan(p, component, late, u, ignore) else Skip, ContentPlan(p, component, ignore))
  }

  /**
   * Whether a dependency gets a poetry install is decided by the lock files of the component being
   * built: a dependency with its own pyproject.toml and poetry.lock only has its content copied when
   * the building component lacks them, and is installed from its own files when the building component has them.
   */
  lemma DependencyLockFilesIgnored(p: BuildParams, component: string, late: Option<string>, u: UserInfo, existing: set<string>, ignore: string)
    requires ComponentFile(component, "pyproject.toml") in existing && ComponentFile(component, "poetry.lock") in existing
    ensures !HasPythonDependencies(p, existing) ==> ComponentPlan(p, component, late, u, existing, ignore) == ContentPlan(p, component, ignore)
    ensures HasPythonDependencies(p, existing) ==>
              ComponentPlan(p, component, late, u, existing, ignore) == Then(DependencyPlan(p, component, late, u, ignore), ContentPlan(p, component, ignore))
  {
  }

  /** add_dependencies: add_component for each dependency, in list order. */
  function DependenciesPlan(p: BuildParams, components: seq<string>, late: Option<string>, u: UserInfo, existing: set<string>, ignore: string): Plan
    decreases |components|
  {
    if components == [] then Skip
    else
      var last := |components| - 1;
      Then(DependenciesPlan(p, components[..last], late, u, existing, ignore), ComponentPlan(p, components[last], late, u, existing, ignore))
  }

  /** The steps before the probe: tag, boilerplate when enabled, the component's Dockerfile when present. */
  function PreProbePlan(p: BuildParams, languageVersion: string, existing: set<string>, ignore: string): Plan
  {
    Then(Then(TagPlan(p, languageVersion, ignore),
              if Truthy(Aladdinize(p)) then AladdinizePlan(p, ignore) else Skip),
         if SpecializedDockerfile(p, existing).Some? then SpecializedPlan(p, existing, ignore) else Skip)
  }

  /** The dependencies of the component, added one after the other; a value that cannot be iterated raises first. */
  function AllDependenciesPlan(p: BuildParams, late: Option<string>, u: UserInfo, existing: set<string>, ignore: string): Plan
  {
    match Dependencies(p)
    case Raise(e) => Raising(e)
    case Ok(components) => DependenciesPlan(p, components, late, u, existing, ignore)
  }

  /** The steps after the probe: poetry when enabled, each dependency, then the component itself. */
  function PostProbePlan(p: BuildParams, late: Option<string>, u: UserInfo, existing: set<string>, ignore: string): Plan
  {
    Then(Then(if Truthy(AddPoetry(p)) then PoetryPlan(p, late, u, ignore) else Skip,
              AllDependenciesPlan(p, late, u, existing, ignore)),
         ComponentPlan(p, p.component, late, u, existing, ignore))
  }

  /** The command that builds the throw-away extractor image on top of the component's tag. */
  function ExtractorBuild(p: BuildParams): seq<string>
  {
    BuildCommand(LobotomizeDockerfile, ExtractorTag, [("FROM_IMAGE", Tag(p))])
  }

  /** The version probe runs only when component.yaml sets no truthy language.version. */
  function VersionProbes(c: ComponentConfig): (argvs: seq<seq<string>>)
    ensures |argvs| == if c.LanguageVersion().None? then 1 else 0
  {
    if c.LanguageVersion().None? then [RunCommand(VersionScript)] else []
  }

  /** The user probe runs only when the configured user info is not truthy. */
  function UserProbes(c: ComponentConfig): (argvs: seq<seq<string>>)
    ensures |argvs| == if c.ConfiguredUserInfo().Truthy() then 0 else 1
  {
    if c.ConfiguredUserInfo().Truthy() then [] else [RunCommand(UserScript)]
  }

  /** The probes get_base_image_info runs: only values the component.yaml leaves unset are probed. */
  function Probes(c: ComponentConfig): (argvs: seq<seq<string>>)
    ensures |argvs| <= 2
    ensures |argvs| == 0 <==> c.LanguageVersion().Some? && c.ConfiguredUserInfo().Truthy()
  {
    VersionProbes(c) + UserProbes(c)
  }

  /** The calls of get_base_image_info when the extractor builds: build it, probe, remove it. */
  function ProbeCalls(p: BuildParams, ignore: string): (calls: seq<Call>)
  {
    [Call(ExtractorBuild(p), ignore)] + CallsOf(Probes(p.config), ignore) + [Call(RemoveExtractor, ignore)]
  }

  /** The calls get_base_image_info makes from trace position k: only the extractor build when that raises. */
  function ProbeTrace(host: Host, p: BuildParams, k: nat, ignore: string): (calls: seq<Call>)
  {
    if host.CallOutcome(k).Fail? then [Call(ExtractorBuild(p), ignore)] else ProbeCalls(p, ignore)
  }

  /** The python version get_base_image_info settles on when its version probe is the call at position k. */
  function ProbedVersion(host: Host, c: ComponentConfig, k: nat): (version: string)
    ensures c.LanguageVersion().Some? ==> version == c.LanguageVersion().value
    ensures c.LanguageVersion().None? ==> version == FallbackVersion || |Split(version, '.')| == 3
  {
    if c.LanguageVersion().Some? then c.LanguageVersion().value
    else ParseVersion(Stripped(host.Response(k, RunCommand(VersionScript))))
  }

  /** The user info get_base_image_info settles on when its user probe is the call at position k. */
  function ProbedUser(host: Host, c: ComponentConfig, k: nat): (user: UserInfo)
    ensures user.Resolved() || user == c.ConfiguredUserInfo()
    ensures c.ConfiguredUserInfo().Truthy() ==> user == c.ConfiguredUserInfo()
    ensures !c.ConfiguredUserInfo().Truthy() ==> user.Resolved()
  {
    if c.ConfiguredUserInfo().Truthy() then c.ConfiguredUserInfo()
    else ParseUserInfo(Stripped(host.Response(k, RunCommand(UserScript))))
  }

  /**
   * What get_base_image_info returns when its calls start at trace position k: configured values win,
   * probes fall back instead of raising, and only the extractor build or its removal can raise.
   */
  function ProbeResult(host: Host, p: BuildParams, k: nat): (r: Result<(string, UserInfo)>)
    ensures r.Raise? <==> host.CallOutcome(k).Fail? || host.CallOutcome(k + 1 + |Probes(p.config)|).Fail?
    ensures r.Raise? ==> r.error == CalledProcessError(SedCommand)
  {
    var c := p.config;
    if host.CallOutcome(k).Fail? then Raise(CalledProcessError(SedCommand))
    else if host.CallOutcome(k + 1 + |Probes(c)|).Fail? then Raise(CalledProcessError(SedCommand))
    else Ok((ProbedVersion(host, c, k + 1), ProbedUser(host, c, k + 1 + |VersionProbes(c)|)))
  }

  /** build_empty_image's MESSAGE build arg, after textwrap.dedent. */
  const EmptyMessageHead: string :=
    "\nThis image was published but is not meant to be run in this environment.\n\n"
    + "If you're seeing this, you probably need to add this cluster to the\n"
    + "clusters list in the components/"
  const EmptyMessageTail: string := "/component.yaml file.\n"

  function EmptyImageMessage(component: string): string
  {
    EmptyMessageHead + component + EmptyMessageTail
  }

  function EmptyImagePlan(p: BuildParams, ignore: string): Plan
  {
    Single(Call(BuildCommand(EchoMessageDockerfile, Tag(p), [("MESSAGE", EmptyImageMessage(p.component))]), ignore))
  }

  // ---------------------------------------------------------------------------
  // The step functions.

  method TagBaseImage(host: Host, bi: BuildInfo) returns (o: Outcome)
    modifies host`trace
    ensures Ran(host, old(host.trace), host.trace, o, TagPlan(bi.params, bi.LanguageVersion(), host.dockerignore))
  {
    var base := BaseImage(bi.params, bi.LanguageVersion());
    if base.Raise? {
      return Fail(base.error);
    }
    o := host.CheckCall(TagCommand(base.value, Tag(bi.params)));
  }

  method AladdinizeImage(host: Host, bi: BuildInfo) returns (o: Outcome)
    modifies host`trace
    ensures Ran(host, old(host.trace), host.trace, o, AladdinizePlan(bi.params, host.dockerignore))
  {
    o := host.DockerBuild(AladdinizeDockerfile, Tag(bi.params), LayerArgs(bi.params));
  }

  /** build_specialized_image: runs outside any scope, so the original .dockerignore applies. */
  method BuildSpecializedImage(host: Host, bi: BuildInfo) returns (o: Outcome)
    modifies host`trace
    ensures Ran(host, old(host.trace), host.trace, o, SpecializedPlan(bi.params, host.existing, host.dockerignore))
  {
    var dockerfile := SpecializedDockerfile(bi.params, host.existing);
    if dockerfile.None? {
      return Fail(TypeError("expected str, bytes or os.PathLike object, not NoneType"));
    }
    o := host.DockerBuild(dockerfile.value, Tag(bi.params), LayerArgs(bi.params));
  }

  /** _call inside get_base_image_info: run a shell script in the extractor and strip its output. */
  method CallProbe(host: Host, script: string) returns (output: Result<string>)
    modifies host`trace
    ensures host.trace == old(host.trace) + [Call(RunCommand(script), host.dockerignore)]
    ensures output == Stripped(host.Response(|old(host.trace)|, RunCommand(script)))
  {
    var raw := host.CheckOutput(RunCommand(script));
    output := Stripped(raw);
  }

  /** The version half of get_base_image_info's try block. */
  method ProbeVersion(host: Host, c: ComponentConfig) returns (version: string)
    modifies host`trace
    ensures version == ProbedVersion(host, c, |old(host.trace)|)
    ensures host.trace == old(host.trace) + CallsOf(VersionProbes(c), host.dockerignore)
  {
    var configured := c.LanguageVersion();
    if configured.Some? {
      version := configured.value;
    } else {
      var output := CallProbe(host, VersionScript);
      version := ParseVersion(output);
    }
  }

  /** The user half of get_base_image_info's try block. */
  method ProbeUser(host: Host, c: ComponentConfig) returns (user: UserInfo)
    modifies host`trace
    ensures user == ProbedUser(host, c, |old(host.trace)|)
    ensures host.trace == old(host.trace) + CallsOf(UserProbes(c), host.dockerignore)
  {
    user := c.ConfiguredUserInfo();
    if !user.Truthy() {
      var output := CallProbe(host, UserScript);
      user := ParseUserInfo(output);
    }
  }

  /** The try block of get_base_image_info: the version probe, then the user probe. */
  method RunProbes(host: Host, c: ComponentConfig) returns (version: string, user: UserInfo)
    modifies host`trace
    ensures version == ProbedVersion(host, c, |old(host.trace)|)
    ensures user == ProbedUser(host, c, |old(host.trace)| + |VersionProbes(c)|)
    ensures host.trace == old(host.trace) + CallsOf(Probes(c), host.dockerignore)
  {
    version := ProbeVersion(host, c);
    user := ProbeUser(host, c);
    CallsOfConcat(VersionProbes(c), UserProbes(c), host.dockerignore);
  }

  /** get_base_image_info: build the extractor, probe what is not configured, always remove the extractor. */
  method GetBaseImageInfo(host: Host, p: BuildParams) returns (r: Result<(string, UserInfo)>)
    modifies host`trace
    ensures r == ProbeResult(host, p, |old(host.trace)|)
    ensures host.trace == old(host.trace) + ProbeTrace(host, p, |old(host.trace)|, host.dockerignore)
  {
    var built := host.DockerBuild(LobotomizeDockerfile, ExtractorTag, [("FROM_IMAGE", Tag(p))]);
    if built.Fail? {
      return Raise(built.error);
    }
    var version, user := RunProbes(host, p.config);
    var removed := host.CheckCall(RemoveExtractor);
    if removed.Fail? {
      r := Raise(removed.error);
    } else {
      r := Ok((version, user));
    }
  }

  // The directives each scoped step writes before its docker build, in the order it writes them.

  method WritePoetryScope(ignoreFile: DockerIgnore)
    requires ignoreFile.before == "" && ignoreFile.written == [] && ignoreFile.Valid()
    modifies ignoreFile.host`dockerignore, ignoreFile`entries, ignoreFile`written
    ensures ignoreFile.written == PoetryScope && ignoreFile.Valid()
    ensures ignoreFile.host.dockerignore == ScopedFile(ignoreFile.originalContent, PoetryScope)
  {
    ignoreFile.IgnoreAll();
    ignoreFile.Include("pip.conf");
    ignoreFile.Include("poetry.toml");
    ignoreFile.IgnoreDefaults();
  }

  method WriteDependencyScope(ignoreFile: DockerIgnore, component: string)
    requires ignoreFile.before == "" && ignoreFile.written == [] && ignoreFile.Valid()
    modifies ignoreFile.host`dockerignore, ignoreFile`entries, ignoreFile`written
    ensures ignoreFile.written == DependencyScope(component) && ignoreFile.Valid()
    ensures ignoreFile.host.dockerignore == ScopedFile(ignoreFile.originalContent, DependencyScope(component))
  {
    ignoreFile.IgnoreAll();
    ignoreFile.Include("pip.conf");
    ignoreFile.Include("poetry.toml");
    ignoreFile.Include(component + "/pyproject.toml");
    ignoreFile.Include(component + "/poetry.lock");
  }

  method WriteContentScope(ignoreFile: DockerIgnore, component: string)
    requires ignoreFile.before == "" && ignoreFile.written == [] && ignoreFile.Valid()
    modifies ignoreFile.host`dockerignore, ignoreFile`entries, ignoreFile`written
    ensures ignoreFile.written == ContentScope(component) && ignoreFile.Valid()
    ensures ignoreFile.host.dockerignore == ScopedFile(ignoreFile.originalContent, ContentScope(component))
  {
    ignoreFile.IgnoreAll();
    ignoreFile.Include(component);
    ignoreFile.IgnoreDefaults();
  }

  /** add_poetry, writing its directives into the scoped .dockerignore it is given. */
  method AddPoetryStep(host: Host, bi: BuildInfo, ignoreFile: DockerIgnore) returns (o: Outcome)
    requires ignoreFile.host == host && ignoreFile.before == "" && ignoreFile.written == [] && ignoreFile.Valid()
    modifies host`trace, host`dockerignore, ignoreFile`entries, ignoreFile`written
    ensures ignoreFile.written == PoetryScope && ignoreFile.Valid()
    ensures Ran(host, old(host.trace), host.trace, o, PoetryPlan(bi.params, bi.lateLanguageVersion, bi.User(), ignoreFile.originalContent))
  {
    WritePoetryScope(ignoreFile);
    var args := PoetryArgs(bi.params, bi.lateLanguageVersion, bi.User());
    if args.Raise? {
      o := Fail(args.error);
    } else {
      o := host.DockerBuild(AddPoetryDockerfile, Tag(bi.params), args.value);
    }
  }

  /** add_component_python_dependencies: only the files a poetry install needs are sent to docker. */
  method AddComponentPythonDependencies(host: Host, bi: BuildInfo, component: string, ignoreFile: DockerIgnore) returns (o: Outcome)
    requires ignoreFile.host == host && ignoreFile.before == "" && ignoreFile.written == [] && ignoreFile.Valid()
    modifies host`trace, host`dockerignore, ignoreFile`entries, ignoreFile`written
    ensures ignoreFile.written == DependencyScope(component) && ignoreFile.Valid()
    ensures Ran(host, old(host.trace), host.trace, o, DependencyPlan(bi.params, component, bi.lateLanguageVersion, bi.User(), ignoreFile.originalContent))
  {
    WriteDependencyScope(ignoreFile, component);
    var args := DependencyArgs(bi.params, component, bi.lateLanguageVersion, bi.User());
    if args.Raise? {
      o := Fail(args.error);
    } else {
      o := host.DockerBuild(DependenciesDockerfile, Tag(bi.params), args.value);
    }
  }

  /** add_component_content: only the component's directory, minus the original exclusions, is sent to docker. */
  method AddComponentContent(host: Host, bi: BuildInfo, component: string, ignoreFile: DockerIgnore) returns (o: Outcome)
    requires ignoreFile.host == host && ignoreFile.before == "" && ignoreFile.written == [] && ignoreFile.Valid()
    modifies host`trace, host`dockerignore, ignoreFile`entries, ignoreFile`written
    ensures ignoreFile.written == ContentScope(component) && ignoreFile.Valid()
    ensures Ran(host, old(host.trace), host.trace, o, ContentPlan(bi.params, component, ignoreFile.originalContent))
  {
    WriteContentScope(ignoreFile, component);
    o := host.DockerBuild(ContentDockerfile, Tag(bi.params), LayerArgs(bi.params));
  }

  // The three steps as the dockerignore("w") decorator wraps them: the file is restored on every path.

  method ScopedAddPoetryStep(host: Host, bi: BuildInfo) returns (o: Outcome)
    modifies host`trace, host`dockerignore
    ensures host.dockerignore == old(host.dockerignore)
    ensures Ran(host, old(host.trace), host.trace, o, PoetryPlan(bi.params, bi.lateLanguageVersion, bi.User(), old(host.dockerignore)))
  {
    var ignoreFile, snapshot := OpenScope(host);
    o := AddPoetryStep(host, bi, ignoreFile);
    CloseScope(host, snapshot);
  }

  method ScopedAddComponentPythonDependencies(host: Host, bi: BuildInfo, component: string) returns (o: Outcome)
    modifies host`trace, host`dockerignore
    ensures host.dockerignore == old(host.dockerignore)
    ensures Ran(host, old(host.trace), host.trace, o, DependencyPlan(bi.params, component, bi.lateLanguageVersion, bi.User(), old(host.dockerignore)))
  {
    var ignoreFile, snapshot := OpenScope(host);
    o := AddComponentPythonDependencies(host, bi, component, ignoreFile);
    CloseScope(host, snapshot);
  }

  method ScopedAddComponentContent(host: Host, bi: BuildInfo, component: string) returns (o: Outcome)
    modifies host`trace, host`dockerignore
    ensures host.dockerignore == old(host.dockerignore)
    ensures Ran(host, old(host.trace), host.trace, o, ContentPlan(bi.params, component, old(host.dockerignore)))
  {
    var ignoreFile, snapshot := OpenScope(host);
    o := AddComponentContent(host, bi, component, ignoreFile);
    CloseScope(host, snapshot);
  }
}

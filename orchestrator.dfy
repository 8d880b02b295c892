// build() of build/build_docker_images.py: for each component, read its
// component.yaml, check the cluster whitelist, dispatch on the language and
// build its image, stopping at the first exception. The function-local
// build_info and language_version outlive the iteration that set them, and the
// model keeps that: a later iteration may read the values an earlier one left,
// or find them unbound.

module Orchestrator {
  import opened Strings
  import opened Values
  import opened Config
  import opened Descriptor
  import opened Docker
  import opened Steps
  import opened Image

  /** What build() reads besides the host: its arguments, lamp.json, CLUSTER_NAME and the component.yaml files. */
  datatype Job = Job(
    lamp: map<string, Value>,
    hash: string,
    defaultPythonVersion: string,
    poetryVersion: string,
    clusterName: Option<string>,
    yamls: map<string, YamlFile>)

  /** The components to build: the ones named, or every directory under components/ when none is. */
  function ToBuild(components: seq<string>, listing: seq<string>): (r: seq<string>)
    ensures components != [] ==> r == components
    ensures components == [] ==> r == listing
  {
    if components == [] then listing else components
  }

  /** The loop's function-local variables that survive an iteration: build_info (its fields) and language_version. */
  datatype Locals = Locals(buildInfo: Option<BuildParams>, languageVersion: Option<string>)

  const Unbound: Locals := Locals(None, None)

  /** The BuildInfo(...) call: lamp["name"] is read before lamp["docker_images"]. */
  function NewParams(job: Job, component: string, config: ComponentConfig): (r: Result<BuildParams>)
    ensures r.Ok? <==> "name" in job.lamp && "docker_images" in job.lamp
    ensures "name" !in job.lamp ==> r == Raise(KeyError("name"))
    ensures "name" in job.lamp && "docker_images" !in job.lamp ==> r == Raise(KeyError("docker_images"))
    ensures r.Ok? ==> r.value.component == component && r.value.config == config && r.value.hash == job.hash
  {
    if "name" !in job.lamp then Raise(KeyError("name"))
    else if "docker_images" !in job.lamp then Raise(KeyError("docker_images"))
    else Ok(BuildParams(ToStr(job.lamp["name"]), job.lamp["docker_images"], component, config,
                        job.hash, job.defaultPythonVersion, job.poetryVersion))
  }

  /** What one iteration does once it has looked at the configuration. */
  datatype Action =
    | BuildPython(params: BuildParams, version: string) // build_python_component_image on a new BuildInfo
    | BuildEmpty(params: BuildParams)                   // build_empty_image on whatever build_info holds
    | Stop(error: Exception)                            // raised before any docker call

  function UnsupportedLanguage(component: string, language: string, version: string): Exception
  {
    ValueError("Unsupported language for " + component + " component: " + language + ":" + version)
  }

  function UnsupportedVersion(component: string, version: string): Exception
  {
    ValueError("Unsupported python version for " + component + " component: " + version)
  }

  /** The python branch: a new BuildInfo, its language version, the python 3 check. */
  function PythonBranch(job: Job, component: string, config: ComponentConfig, locals: Locals): (Action, Locals)
  {
    match NewParams(job, component, config)
    case Raise(e) => (Stop(e), locals)
    case Ok(p) =>
      var version := ResolvedLanguageVersion(p, None);
      var next := Locals(Some(p), Some(version));
      if StartsWith(version, "3") then (BuildPython(p, version), next)
      else (Stop(UnsupportedVersion(component, version)), next)
  }

  /** The component.yaml of a component, as build() loads it. */
  function ConfigOf(job: Job, component: string): ComponentConfig
  {
    CreateComponentConfig(YamlAt(job.yamls, component))
  }

  /** One iteration up to its docker calls: the action taken and the locals it leaves. */
  function Decide(job: Job, component: string, locals: Locals): (Action, Locals)
  {
    var config := ConfigOf(job, component);
    if job.clusterName.None? then (Stop(KeyError("CLUSTER_NAME")), locals)
    else
      match config.ShouldBuildForCluster(job.clusterName.value)
      case Raise(e) => (Stop(e), locals)
      case Ok(false) =>
        if locals.buildInfo.Some? then (BuildEmpty(locals.buildInfo.value), locals)
        else (Stop(UnboundLocalError("build_info")), locals)
      case Ok(true) =>
        match config.LanguageName()
        case Raise(e) => (Stop(e), locals)
        case Ok(name) =>
          var language := if name.Some? then name.value else "python";
          if language == "python" then PythonBranch(job, component, config, locals)
          else if locals.languageVersion.Some? then (Stop(UnsupportedLanguage(component, language, locals.languageVersion.value)), locals)
          else (Stop(UnboundLocalError("language_version")), locals)
  }

  /** The docker calls of an action run from trace position k, and how it ends. */
  function ActionRun(host: Host, action: Action, k: nat, ignore: string): Run
  {
    match action
    case BuildPython(p, version) => PythonImageRun(host, p, version, k, ignore)
    case BuildEmpty(p) => host.Execute(k, EmptyImagePlan(p, ignore))
    case Stop(e) => Run([], Fail(e))
  }

  /**
   * The actions of the first n iterations and the locals they leave. The
   * decisions read no docker result, so they can be taken ahead of the docker
   * calls; Runs stops at the first action that raises.
   */
  function Prefix(job: Job, components: seq<string>, n: nat): (r: (seq<Action>, Locals))
    requires n <= |components|
    ensures |r.0| == n
  {
    if n == 0 then ([], Unbound)
    else
      var (actions, locals) := Prefix(job, components, n - 1);
      var (action, next) := Decide(job, components[n - 1], locals);
      (actions + [action], next)
  }

  /** The i-th action is the one Decide takes on the locals the first i iterations leave. */
  lemma {:induction false} PrefixAt(job: Job, components: seq<string>, i: nat, n: nat)
    requires i < n <= |components|
    ensures Prefix(job, components, n).0[i] == Decide(job, components[i], Prefix(job, components, i).1).0
    decreases n
  {
    if i < n - 1 {
      PrefixAt(job, components, i, n - 1);
    }
  }

  /** How an action runs from a trace position; the build's is ActionRun on its host and .dockerignore. */
  type Runner = (Action, nat) -> Run

  function ActionRunner(host: Host, ignore: string): Runner
  {
    (action: Action, k: nat) => ActionRun(host, action, k, ignore)
  }

  /** An action that raises before any docker call makes none. */
  ghost predicate StopsRaise(run: Runner)
  {
    forall e: Exception, k: nat :: run(Stop(e), k) == Run([], Fail(e))
  }

  lemma ActionRunnerStopsRaise(host: Host, ignore: string)
    ensures StopsRaise(ActionRunner(host, ignore))
  {
    forall e: Exception, k: nat ensures ActionRunner(host, ignore)(Stop(e), k) == Run([], Fail(e)) {
      assert ActionRunner(host, ignore)(Stop(e), k) == ActionRun(host, Stop(e), k, ignore);
    }
  }

  /** The docker calls of the actions from the j-th on, from trace position k, up to the first exception. */
  function Runs(run: Runner, actions: seq<Action>, j: nat, k: nat): Run
    requires j <= |actions|
    decreases |actions| - j, 1
  {
    if j < |actions| then StepThenRuns(run, actions, j, k) else Run([], Pass)
  }

  /** The j-th action runs, then the ones after it unless it raised. */
  function StepThenRuns(run: Runner, actions: seq<Action>, j: nat, k: nat): Run
    requires j < |actions|
    decreases |actions| - j, 0
  {
    var step := run(actions[j], k);
    FollowedBy(step, Runs(run, actions, j + 1, k + |step.made|))
  }

  /** The first of the remaining actions runs, then the others unless it raised. */
  lemma RunsStep(run: Runner, actions: seq<Action>, j: nat, k: nat, step: Run, next: nat, k': nat)
    requires j < |actions| && step == run(actions[j], k)
    requires next == j + 1 && k' == k + |step.made|
    ensures Runs(run, actions, j, k) == FollowedBy(step, Runs(run, actions, next, k'))
  {
  }

  /** The whole build from trace position k. */
  function BuildRun(host: Host, job: Job, components: seq<string>, k: nat, ignore: string): Run
  {
    Runs(ActionRunner(host, ignore), Prefix(job, components, |components|).0, 0, k)
  }

  lemma FollowedByNothing(r: Run)
    ensures FollowedBy(Run([], Pass), r) == r
  {
    assert [] + r.made == r.made;
  }

  /** Calls already made followed by one more step, and then the rest. */
  lemma FollowedByStep(made: seq<Call>, step: Run, rest: Run)
    ensures step.outcome.Pass? ==> FollowedBy(Run(made, Pass), FollowedBy(step, rest)) == FollowedBy(Run(made + step.made, Pass), rest)
    ensures step.outcome.Fail? ==> FollowedBy(Run(made, Pass), FollowedBy(step, rest)) == Run(made + step.made, step.outcome)
  {
    if step.outcome.Pass? {
      assert made + (step.made + rest.made) == (made + step.made) + rest.made;
    }
  }

  /** The params of the object build_info refers to, None while unbound. */
  function ParamsOf(buildInfo: BuildInfo?): Option<BuildParams>
  {
    if buildInfo == null then None else Some(buildInfo.params)
  }

  /** One iteration of build()'s loop body. */
  method BuildComponent(host: Host, job: Job, component: string, buildInfo: BuildInfo?, languageVersion: Option<string>)
    returns (o: Outcome, buildInfo': BuildInfo?, languageVersion': Option<string>)
    modifies host`trace, host`dockerignore
    ensures host.dockerignore == old(host.dockerignore)
    ensures var d := Decide(job, component, Locals(ParamsOf(buildInfo), languageVersion));
            var r := ActionRun(host, d.0, |old(host.trace)|, old(host.dockerignore));
            && host.trace == old(host.trace) + r.made && o == r.outcome
            && Locals(ParamsOf(buildInfo'), languageVersion') == d.1
  {
    ghost var locals := Locals(ParamsOf(buildInfo), languageVersion);
    ghost var d := Decide(job, component, locals);
    buildInfo', languageVersion' := buildInfo, languageVersion;
    var config := ConfigOf(job, component);
    if job.clusterName.None? {
      return Fail(KeyError("CLUSTER_NAME")), buildInfo', languageVersion';
    }
    var should := config.ShouldBuildForCluster(job.clusterName.value);
    if should.Raise? {
      return Fail(should.error), buildInfo', languageVersion';
    }
    if !should.value {
      if buildInfo == null {
        return Fail(UnboundLocalError("build_info")), buildInfo', languageVersion';
      }
      assert d.0 == BuildEmpty(buildInfo.params);
      o := BuildEmptyImage(host, buildInfo);
      return;
    }
    var name := config.LanguageName();
    if name.Raise? {
      return Fail(name.error), buildInfo', languageVersion';
    }
    var language := if name.value.Some? then name.value.value else "python";
    if language != "python" {
      if languageVersion.None? {
        return Fail(UnboundLocalError("language_version")), buildInfo', languageVersion';
      }
      return Fail(UnsupportedLanguage(component, language, languageVersion.value)), buildInfo', languageVersion';
    }
    assert d == PythonBranch(job, component, config, locals);
    var params := NewParams(job, component, config);
    if params.Raise? {
      return Fail(params.error), buildInfo', languageVersion';
    }
    var bi := new BuildInfo(params.value);
    var version := bi.LanguageVersion();
    buildInfo', languageVersion' := bi, Some(version);
    if !StartsWith(version, "3") {
      return Fail(UnsupportedVersion(component, version)), buildInfo', languageVersion';
    }
    o := BuildPythonComponentImage(host, bi);
  }

  /** build(): each component in turn, the first exception ending the build. */
  method Build(host: Host, job: Job, components: seq<string>, listing: seq<string>) returns (o: Outcome)
    modifies host`trace, host`dockerignore
    ensures host.dockerignore == old(host.dockerignore)
    ensures var r := BuildRun(host, job, ToBuild(components, listing), |old(host.trace)|, old(host.dockerignore));
            host.trace == old(host.trace) + r.made && o == r.outcome
  {
    var todo := ToBuild(components, listing);
    ghost var t0, ignore := host.trace, host.dockerignore;
    ghost var plan := Prefix(job, todo, |todo|).0;
    ghost var run := ActionRunner(host, ignore);
    ghost var whole := Runs(run, plan, 0, |t0|);
    ghost var made: seq<Call> := [];
    ghost var k := |t0|;
    var buildInfo: BuildInfo? := null;
    var languageVersion: Option<string> := None;
    FollowedByNothing(whole);
    var i := 0;
    while i < |todo|
      invariant 0 <= i <= |todo| == |plan|
      invariant host.dockerignore == ignore && host.trace == t0 + made && |host.trace| == k
      invariant Locals(ParamsOf(buildInfo), languageVersion) == Prefix(job, todo, i).1
      invariant whole == FollowedBy(Run(made, Pass), Runs(run, plan, i, k))
    {
      PrefixAt(job, todo, i, |todo|);
      ghost var d := Decide(job, todo[i], Prefix(job, todo, i).1);
      ghost var step := ActionRun(host, d.0, k, ignore);
      ghost var k' := k + |step.made|;
      var next := i + 1;
      ghost var rest := Runs(run, plan, next, k');
      FollowedByStep(made, step, rest);
      assert run(plan[i], k) == ActionRun(host, plan[i], k, ignore);
      RunsStep(run, plan, i, k, step, next, k');
      o, buildInfo, languageVersion := BuildComponent(host, job, todo[i], buildInfo, languageVersion);
      TraceAppendAssociative(t0, made, step.made);
      made := made + step.made;
      k := k';
      assert o == step.outcome;
      if o.Fail? {
        return;
      }
      assert whole == FollowedBy(Run(made, Pass), rest);
      i := next;
    }
    o := Pass;
  }

  /** When the remaining actions pass, the first of them is no Stop and the others pass from where it left off. */
  lemma PassedStep(run: Runner, actions: seq<Action>, j: nat, k: nat) returns (k': nat)
    requires StopsRaise(run)
    requires j < |actions| && Runs(run, actions, j, k).outcome.Pass?
    ensures !actions[j].Stop? && Runs(run, actions, j + 1, k').outcome.Pass?
  {
    var step := run(actions[j], k);
    k' := k + |step.made|;
    RunsStep(run, actions, j, k, step, j + 1, k');
    var action := actions[j];
    assert action.Stop? ==> step.outcome.Fail?;
  }

  /** A passing run took no action that raises. */
  lemma {:induction false} PassedRunsTookNoStop(run: Runner, actions: seq<Action>, j: nat, k: nat)
    requires StopsRaise(run)
    requires j <= |actions| && Runs(run, actions, j, k).outcome.Pass?
    ensures forall i :: j <= i < |actions| ==> !actions[i].Stop?
    decreases |actions| - j
  {
    if j < |actions| {
      var k' := PassedStep(run, actions, j, k);
      PassedRunsTookNoStop(run, actions, j + 1, k');
    }
  }

  /** A passing build took no action that raises: every component was built or published empty. */
  lemma PassedBuildTookNoStop(host: Host, job: Job, components: seq<string>, k: nat, ignore: string)
    requires BuildRun(host, job, components, k, ignore).outcome.Pass?
    ensures forall i :: 0 <= i < |components| ==> !Prefix(job, components, |components|).0[i].Stop?
  {
    ActionRunnerStopsRaise(host, ignore);
    PassedRunsTookNoStop(ActionRunner(host, ignore), Prefix(job, components, |components|).0, 0, k);
  }

  /**
   * What one iteration can decide: a python build of this component on a python 3 version, rebinding
   * both locals; an empty image built from the build_info an earlier iteration left; or an exception,
   * the locals changing only when a new BuildInfo for this component was made.
   */
  lemma DecideShapes(job: Job, component: string, locals: Locals)
    ensures var (action, next) := Decide(job, component, locals);
            && (job.clusterName.None? ==> action == Stop(KeyError("CLUSTER_NAME")) && next == locals)
            && (action.BuildPython? ==>
                  && StartsWith(action.version, "3") && action.params.component == component && action.params.hash == job.hash
                  && next == Locals(Some(action.params), Some(action.version)))
            && (action.BuildEmpty? ==> next == locals && locals.buildInfo == Some(action.params))
            && (next != locals ==> next.buildInfo.Some? && next.buildInfo.value.component == component && next.languageVersion.Some?)
  {
    var config := ConfigOf(job, component);
    if job.clusterName.Some? && config.ShouldBuildForCluster(job.clusterName.value) == Ok(true) {
      var name := config.LanguageName();
      if name.Ok? && (name.value.None? || name.value.value == "python") {
        assert Decide(job, component, locals) == PythonBranch(job, component, config, locals);
      }
    }
  }

  /** The first component is decided on unbound locals; when its run raises, the build ends there. */
  lemma FirstFailureEndsBuild(host: Host, job: Job, components: seq<string>, k: nat, ignore: string)
    requires components != []
    ensures var step := ActionRun(host, Decide(job, components[0], Unbound).0, k, ignore);
            step.outcome.Fail? ==> BuildRun(host, job, components, k, ignore) == step
  {
    PrefixAt(job, components, 0, |components|);
    var plan := Prefix(job, components, |components|).0;
    var run := ActionRunner(host, ignore);
    var step := run(plan[0], k);
    RunsStep(run, plan, 0, k, step, 1, k + |step.made|);
  }

  /** Without CLUSTER_NAME the first component raises KeyError before any docker call. */
  lemma NoClusterNameFailsFirst(host: Host, job: Job, components: seq<string>, k: nat, ignore: string)
    requires job.clusterName.None? && components != []
    ensures BuildRun(host, job, components, k, ignore) == Run([], Fail(KeyError("CLUSTER_NAME")))
  {
    FirstFailureEndsBuild(host, job, components, k, ignore);
  }

  /** A first component skipped on this cluster reads build_info before anything assigned it. */
  lemma SkippedFirstIsUnbound(host: Host, job: Job, components: seq<string>, k: nat, ignore: string)
    requires components != [] && job.clusterName.Some?
    requires ConfigOf(job, components[0]).ShouldBuildForCluster(job.clusterName.value) == Ok(false)
    ensures BuildRun(host, job, components, k, ignore) == Run([], Fail(UnboundLocalError("build_info")))
  {
    FirstFailureEndsBuild(host, job, components, k, ignore);
  }

  /**
   * A component in another language raises ValueError naming the version the last python
   * component left in language_version, or UnboundLocalError when there was none.
   */
  lemma ForeignLanguageReadsLastVersion(job: Job, component: string, locals: Locals, language: string)
    requires job.clusterName.Some?
    requires ConfigOf(job, component).ShouldBuildForCluster(job.clusterName.value) == Ok(true)
    requires ConfigOf(job, component).LanguageName() == Ok(Some(language)) && language != "python"
    ensures locals.languageVersion.None? ==> Decide(job, component, locals) == (Stop(UnboundLocalError("language_version")), locals)
    ensures locals.languageVersion.Some? ==>
              Decide(job, component, locals) == (Stop(UnsupportedLanguage(component, language, locals.languageVersion.value)), locals)
  {
  }

  /** A first component in another language fails before any docker call. */
  lemma ForeignFirstIsUnbound(host: Host, job: Job, components: seq<string>, k: nat, ignore: string, language: string)
    requires components != [] && job.clusterName.Some?
    requires ConfigOf(job, components[0]).ShouldBuildForCluster(job.clusterName.value) == Ok(true)
    requires ConfigOf(job, components[0]).LanguageName() == Ok(Some(language)) && language != "python"
    ensures BuildRun(host, job, components, k, ignore) == Run([], Fail(UnboundLocalError("language_version")))
  {
    ForeignLanguageReadsLastVersion(job, components[0], Unbound, language);
    FirstFailureEndsBuild(host, job, components, k, ignore);
  }

  /**
   * A python component whose resolved version does not start with "3" raises ValueError, and
   * build_info and language_version already hold its values.
   */
  lemma PythonTwoRejected(job: Job, component: string, locals: Locals, p: BuildParams)
    requires job.clusterName.Some?
    requires ConfigOf(job, component).ShouldBuildForCluster(job.clusterName.value) == Ok(true)
    requires ConfigOf(job, component).LanguageName() in {Ok(None), Ok(Some("python"))}
    requires NewParams(job, component, ConfigOf(job, component)) == Ok(p)
    requires !StartsWith(ResolvedLanguageVersion(p, None), "3")
    ensures var version := ResolvedLanguageVersion(p, None);
            Decide(job, component, locals) == (Stop(UnsupportedVersion(component, version)), Locals(Some(p), Some(version)))
  {
  }

  /**
   * A component skipped on this cluster after a python component publishes the empty image
   * with the earlier component's BuildInfo: its name and tag, not its own.
   */
  lemma SkippedAfterPythonReusesBuildInfo(job: Job, a: string, b: string)
    requires job.clusterName.Some? && Decide(job, a, Unbound).0.BuildPython?
    requires ConfigOf(job, b).ShouldBuildForCluster(job.clusterName.value) == Ok(false)
    ensures var first := Decide(job, a, Unbound).0;
            Prefix(job, [a, b], 2).0 == [first, BuildEmpty(first.params)]
  {
    var first := Decide(job, a, Unbound);
    assert [a, b][0] == a && [a, b][1] == b;
    assert Prefix(job, [a, b], 0) == ([], Unbound);
    assert [] + [first.0] == [first.0];
    assert Prefix(job, [a, b], 1) == ([first.0], first.1);
    assert first.1.buildInfo == Some(first.0.params);
  }
}

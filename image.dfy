// build_python_component_image of build/build_docker_images.py and the steps it
// strings together: add_component, add_dependencies, the steps before the probe,
// the probe and the layers after it, and build_empty_image. Every method is
// proved to make exactly the calls of its plan, stopping at the first call that
// raises, and to leave components/.dockerignore as it found it.

module Image {
  import opened Values
  import opened Config
  import opened Descriptor
  import opened Docker
  import opened Steps

  /** add_component: the scoped dependency install when the component being built has a lock file, then the content. */
  method AddComponent(host: Host, bi: BuildInfo, component: string) returns (o: Outcome)
    modifies host`trace, host`dockerignore
    ensures host.dockerignore == old(host.dockerignore)
    ensures Ran(host, old(host.trace), host.trace, o,
                ComponentPlan(bi.params, component, bi.lateLanguageVersion, bi.User(), host.existing, old(host.dockerignore)))
  {
    ghost var t0 := host.trace;
    ghost var ignore := host.dockerignore;
    ghost var content := ContentPlan(bi.params, component, ignore);
    if HasPythonDependencies(bi.params, host.existing) {
      o := ScopedAddComponentPythonDependencies(host, bi, component);
      ghost var install := DependencyPlan(bi.params, component, bi.lateLanguageVersion, bi.User(), ignore);
      if o.Fail? {
        RanStops(host, t0, host.trace, o, install, content);
        return;
      }
      ghost var t1 := host.trace;
      o := ScopedAddComponentContent(host, bi, component);
      RanThen(host, t0, t1, host.trace, Pass, o, install, content);
    } else {
      o := ScopedAddComponentContent(host, bi, component);
      assert Then(Skip, content) == content;
    }
  }

  /** Once a prefix of the dependencies has raised, the remaining ones are never added. */
  lemma {:induction false} DependenciesStop(host: Host, t0: seq<Call>, t1: seq<Call>, o: Outcome, p: BuildParams,
                                            components: seq<string>, n: nat, late: Option<string>, u: UserInfo,
                                            existing: set<string>, ignore: string)
    requires n <= |components|
    requires Ran(host, t0, t1, o, DependenciesPlan(p, components[..n], late, u, existing, ignore)) && o.Fail?
    ensures Ran(host, t0, t1, o, DependenciesPlan(p, components, late, u, existing, ignore))
    decreases |components| - n
  {
    if n == |components| {
      assert components[..n] == components;
    } else {
      assert components[..n + 1][..n] == components[..n];
      RanStops(host, t0, t1, o, DependenciesPlan(p, components[..n], late, u, existing, ignore),
               ComponentPlan(p, components[n], late, u, existing, ignore));
      DependenciesStop(host, t0, t1, o, p, components, n + 1, late, u, existing, ignore);
    }
  }

  /** One more dependency added after the ones before it passed. */
  lemma DependenciesStep(host: Host, t0: seq<Call>, t1: seq<Call>, t2: seq<Call>, o: Outcome, p: BuildParams,
                         components: seq<string>, i: nat, late: Option<string>, u: UserInfo, existing: set<string>, ignore: string)
    requires i < |components|
    requires Ran(host, t0, t1, Pass, DependenciesPlan(p, components[..i], late, u, existing, ignore))
    requires Ran(host, t1, t2, o, ComponentPlan(p, components[i], late, u, existing, ignore))
    ensures Ran(host, t0, t2, o, DependenciesPlan(p, components[..i + 1], late, u, existing, ignore))
  {
    assert components[..i + 1][..i] == components[..i];
    RanThen(host, t0, t1, t2, Pass, o, DependenciesPlan(p, components[..i], late, u, existing, ignore),
            ComponentPlan(p, components[i], late, u, existing, ignore));
  }

  /** add_dependencies: add_component for each dependency in order; iterating a non-iterable value raises TypeError. */
  method AddDependencies(host: Host, bi: BuildInfo) returns (o: Outcome)
    modifies host`trace, host`dockerignore
    ensures host.dockerignore == old(host.dockerignore)
    ensures Ran(host, old(host.trace), host.trace, o,
                AllDependenciesPlan(bi.params, bi.lateLanguageVersion, bi.User(), host.existing, old(host.dockerignore)))
  {
    var deps := Dependencies(bi.params);
    if deps.Raise? {
      return Fail(deps.error);
    }
    var components := deps.value;
    ghost var t0 := host.trace;
    ghost var p, ignore := bi.params, host.dockerignore;
    ghost var late, u := bi.lateLanguageVersion, bi.User();
    o := Pass;
    var i := 0;
    while i < |components| && o.Pass?
      invariant 0 <= i <= |components|
      invariant host.dockerignore == ignore
      invariant Ran(host, t0, host.trace, o, DependenciesPlan(p, components[..i], late, u, host.existing, ignore))
    {
      ghost var t1 := host.trace;
      o := AddComponent(host, bi, components[i]);
      DependenciesStep(host, t0, t1, host.trace, o, p, components, i, late, u, host.existing, ignore);
      i := i + 1;
    }
    if o.Fail? {
      DependenciesStop(host, t0, host.trace, o, p, components, i, late, u, host.existing, ignore);
    } else {
      assert components[..i] == components;
    }
  }

  /** The part of build_python_component_image before the probe: tag, boilerplate, the component's Dockerfile. */
  method BuildBaseImage(host: Host, bi: BuildInfo) returns (o: Outcome)
    modifies host`trace
    ensures Ran(host, old(host.trace), host.trace, o, PreProbePlan(bi.params, bi.LanguageVersion(), host.existing, host.dockerignore))
  {
    ghost var t0 := host.trace;
    ghost var p := bi.params;
    ghost var tag := TagPlan(p, bi.LanguageVersion(), host.dockerignore);
    ghost var layer := if Truthy(Aladdinize(p)) then AladdinizePlan(p, host.dockerignore) else Skip;
    ghost var special := if SpecializedDockerfile(p, host.existing).Some? then SpecializedPlan(p, host.existing, host.dockerignore) else Skip;
    o := TagBaseImage(host, bi);
    if o.Fail? {
      RanStops(host, t0, host.trace, o, tag, layer);
      RanStops(host, t0, host.trace, o, Then(tag, layer), special);
      return;
    }
    ghost var t1 := host.trace;
    if Truthy(Aladdinize(bi.params)) {
      o := AladdinizeImage(host, bi);
    } else {
      assert t1 + [] == t1;
    }
    RanThen(host, t0, t1, host.trace, Pass, o, tag, layer);
    if o.Fail? {
      RanStops(host, t0, host.trace, o, Then(tag, layer), special);
      return;
    }
    ghost var t2 := host.trace;
    if SpecializedDockerfile(bi.params, host.existing).Some? {
      o := BuildSpecializedImage(host, bi);
    } else {
      assert t2 + [] == t2;
    }
    RanThen(host, t0, t2, host.trace, Pass, o, Then(tag, layer), special);
  }

  /** The part of build_python_component_image after the probe: poetry, the dependencies, the component. */
  method AddLayers(host: Host, bi: BuildInfo) returns (o: Outcome)
    modifies host`trace, host`dockerignore
    ensures host.dockerignore == old(host.dockerignore)
    ensures Ran(host, old(host.trace), host.trace, o,
                PostProbePlan(bi.params, old(bi.lateLanguageVersion), old(bi.User()), host.existing, old(host.dockerignore)))
  {
    ghost var t0 := host.trace;
    ghost var p := bi.params;
    ghost var ignore := host.dockerignore;
    ghost var poetry := if Truthy(AddPoetry(p)) then PoetryPlan(p, bi.lateLanguageVersion, bi.User(), ignore) else Skip;
    ghost var deps := AllDependenciesPlan(p, bi.lateLanguageVersion, bi.User(), host.existing, ignore);
    ghost var own := ComponentPlan(p, p.component, bi.lateLanguageVersion, bi.User(), host.existing, ignore);
    if Truthy(AddPoetry(bi.params)) {
      o := ScopedAddPoetryStep(host, bi);
      if o.Fail? {
        RanStops(host, t0, host.trace, o, poetry, deps);
        RanStops(host, t0, host.trace, o, Then(poetry, deps), own);
        return;
      }
    } else {
      o := Pass;
      assert t0 + [] == t0;
    }
    ghost var t1 := host.trace;
    o := AddDependencies(host, bi);
    RanThen(host, t0, t1, host.trace, Pass, o, poetry, deps);
    if o.Fail? {
      RanStops(host, t0, host.trace, o, Then(poetry, deps), own);
      return;
    }
    ghost var t2 := host.trace;
    o := AddComponent(host, bi, bi.params.component);
    RanThen(host, t0, t2, host.trace, Pass, o, Then(poetry, deps), own);
  }

  /** From trace position k once the base image is built: the probe, then the layers built with what it found. */
  function ProbedLayersRun(host: Host, p: BuildParams, k: nat, ignore: string): Run
  {
    var probed := ProbeResult(host, p, k);
    if probed.Raise? then Run(ProbeTrace(host, p, k, ignore), Fail(probed.error))
    else
      var probe := ProbeCalls(p, ignore);
      var post := host.Execute(k + |probe|, PostProbePlan(p, Some(probed.value.0), probed.value.1, host.existing, ignore));
      Run(probe + post.made, post.outcome)
  }

  /**
   * build_python_component_image from trace position k: the steps before the probe, the probe, then
   * the layers built with the probed version and user; the first exception ends the build.
   */
  function PythonImageRun(host: Host, p: BuildParams, languageVersion: string, k: nat, ignore: string): Run
  {
    var pre := host.Execute(k, PreProbePlan(p, languageVersion, host.existing, ignore));
    FollowedBy(pre, ProbedLayersRun(host, p, k + |pre.made|, ignore))
  }

  /** When the probe raises, nothing is built after its calls. */
  lemma ProbedLayersRaise(host: Host, p: BuildParams, k: nat, ignore: string, e: Exception)
    requires ProbeResult(host, p, k) == Raise(e)
    ensures ProbedLayersRun(host, p, k, ignore) == Run(ProbeTrace(host, p, k, ignore), Fail(e))
  {
  }

  /** When the probe passes, the layers are built from the position after its calls, with what it found. */
  lemma ProbedLayersPass(host: Host, p: BuildParams, k: nat, ignore: string, version: string, user: UserInfo, probe: seq<Call>, post: Run)
    requires ProbeResult(host, p, k) == Ok((version, user))
    requires probe == ProbeCalls(p, ignore)
    requires post == host.Execute(k + |probe|, PostProbePlan(p, Some(version), user, host.existing, ignore))
    ensures ProbedLayersRun(host, p, k, ignore) == Run(probe + post.made, post.outcome)
  {
  }

  /** The try block of build_python_component_image from get_base_image_info on. */
  method ProbeAndAddLayers(host: Host, bi: BuildInfo) returns (o: Outcome)
    modifies host`trace, host`dockerignore, bi`lateLanguageVersion, bi`lateUserInfo
    ensures host.dockerignore == old(host.dockerignore)
    ensures var r := ProbedLayersRun(host, bi.params, |old(host.trace)|, old(host.dockerignore));
            host.trace == old(host.trace) + r.made && o == r.outcome
    ensures var probed := ProbeResult(host, bi.params, |old(host.trace)|);
            && (probed.Ok? ==> bi.lateLanguageVersion == Some(probed.value.0) && bi.lateUserInfo == Some(probed.value.1))
            && (probed.Raise? ==> bi.lateLanguageVersion == old(bi.lateLanguageVersion) && bi.lateUserInfo == old(bi.lateUserInfo))
  {
    ghost var t0 := host.trace;
    ghost var p := bi.params;
    ghost var ignore := host.dockerignore;
    var info := GetBaseImageInfo(host, bi.params);
    if info.Raise? {
      ProbedLayersRaise(host, p, |t0|, ignore, info.error);
      return Fail(info.error);
    }
    var version, user := info.value.0, info.value.1;
    ghost var probe := ProbeCalls(p, ignore);
    ghost var k1 := |t0| + |probe|;
    ghost var plan := PostProbePlan(p, Some(version), user, host.existing, ignore);
    ghost var post := host.Execute(k1, plan);
    ProbedLayersPass(host, p, |t0|, ignore, version, user, probe, post);
    bi.SetLanguageVersion(version);
    bi.SetUserInfo(user);
    assert bi.User() == user;
    ghost var t1 := host.trace;
    assert t1 == t0 + probe;
    o := AddLayers(host, bi);
    RanFrom(host, t1, host.trace, o, plan, k1);
    TraceAppendAssociative(t0, probe, post.made);
  }

  /** build_python_component_image: the probed version and user are set on the BuildInfo before the layers are added. */
  method BuildPythonComponentImage(host: Host, bi: BuildInfo) returns (o: Outcome)
    modifies host`trace, host`dockerignore, bi`lateLanguageVersion, bi`lateUserInfo
    ensures host.dockerignore == old(host.dockerignore)
    ensures var r := PythonImageRun(host, bi.params, old(bi.LanguageVersion()), |old(host.trace)|, old(host.dockerignore));
            host.trace == old(host.trace) + r.made && o == r.outcome
    ensures var pre := host.Execute(|old(host.trace)|, PreProbePlan(bi.params, old(bi.LanguageVersion()), host.existing, old(host.dockerignore)));
            var probed := ProbeResult(host, bi.params, |old(host.trace)| + |pre.made|);
            && (pre.outcome.Pass? && probed.Ok? ==> bi.lateLanguageVersion == Some(probed.value.0) && bi.lateUserInfo == Some(probed.value.1))
            && (pre.outcome.Fail? || probed.Raise? ==> bi.lateLanguageVersion == old(bi.lateLanguageVersion) && bi.lateUserInfo == old(bi.lateUserInfo))
  {
    ghost var t0 := host.trace;
    ghost var p := bi.params;
    ghost var ignore := host.dockerignore;
    ghost var version := bi.LanguageVersion();
    ghost var late, lateUser := bi.lateLanguageVersion, bi.lateUserInfo;
    ghost var plan := PreProbePlan(p, version, host.existing, ignore);
    ghost var pre := host.Execute(|t0|, plan);
    o := BuildBaseImage(host, bi);
    RanFrom(host, t0, host.trace, o, plan, |t0|);
    if o.Fail? {
      assert PythonImageRun(host, p, version, |t0|, ignore) == pre;
      return;
    }
    ghost var k1 := |t0| + |pre.made|;
    ghost var rest := ProbedLayersRun(host, p, k1, ignore);
    assert PythonImageRun(host, p, version, |t0|, ignore) == FollowedBy(pre, rest);
    assert |host.trace| == k1;
    o := ProbeAndAddLayers(host, bi);
    ghost var probed := ProbeResult(host, p, k1);
    assert probed.Ok? ==> bi.lateLanguageVersion == Some(probed.value.0) && bi.lateUserInfo == Some(probed.value.1);
    assert probed.Raise? ==> bi.lateLanguageVersion == late && bi.lateUserInfo == lateUser;
    assert host.trace == t0 + pre.made + rest.made && o == rest.outcome;
    TraceAppendAssociative(t0, pre.made, rest.made);
  }

  /** build_empty_image: an image that only prints why the component was not built for this cluster. */
  method BuildEmptyImage(host: Host, bi: BuildInfo) returns (o: Outcome)
    modifies host`trace
    ensures Ran(host, old(host.trace), host.trace, o, EmptyImagePlan(bi.params, host.dockerignore))
  {
    o := host.DockerBuild(EchoMessageDockerfile, Tag(bi.params), [("MESSAGE", EmptyImageMessage(bi.params.component))]);
  }
}

# aladdin-demo build tooling in Dafny

This project models the build tooling of the aladdin-demo repository and proves properties of the model.

- **Image builder** (`build/build_docker_images.py`). For every component it:
  - reads the component's `component.yaml`;
  - checks the cluster whitelist;
  - dispatches on the component's language;
  - builds a python image as a chain of `docker` calls that all move one tag.

  The steps are: tag the base image, add the aladdin boilerplate, apply the component's own Dockerfile, probe the image for its python version and user, add poetry, add each dependency, and add the component itself. Steps that restrict the docker context rewrite the shared `components/.dockerignore` for the length of one call, then restore it.
- **Dependency graph and config loader of the CLI** (`bin/commands/__init__.py`): `get_component_graph` and `get_component_config`.
- **API-docs member filter** (`docs/source/conf.py`): `skip_member_if`.

How the model is built:

- **The outside world is a `Host` object** (module `Docker`). It records every external command as a trace of argument lists. Each entry carries the content `components/.dockerignore` had when the command ran.
- **Oracles fixed in advance.** The host decides ahead of time:
  - which call raises;
  - what a probe prints on stdout;
  - which paths exist on disk.
- **Steps as plans.** A build step is specified by a `Plan`: the calls it sets out to make and the exception it raises itself. `Host.Execute` runs a plan the way Python runs a sequence of statements: the calls are made in order until one raises.
- **Proof obligation for every method.** Each step method is proved to leave exactly the trace of its plan (`Ran`), and every scoped step to restore the file.
- **The whole loop.** `Orchestrator.Build` is proved against `BuildRun`. That function first decides each component's action from the configuration, carrying the loop's function-local `build_info` and `language_version` from one iteration to the next as Python does. It then runs the actions in order until the first exception.
- **Configuration as data.** YAML documents are a `Value` datatype. `UNDEFINED` is the `Undefined` case of `Lookup`. Python exceptions are a `Result`/`Outcome` error path, never a precondition.

Where the code and the written design of the repository disagree, the model follows the code:

- **Docker failures.** `_check_call` waits for docker but never looks at its exit status. Only a failure of the `sed` stage raises, so a failing `docker build` does not by itself stop the build. The model's `Host.CallOutcome` is that of the pipeline.
- **Clusters outside the whitelist.** A component skipped for this cluster is built empty with whatever `build_info` an earlier iteration left. On the first iteration that raises `UnboundLocalError` instead of building a placeholder image.
- **Unsupported language.** The error message formats `language_version`. That is unbound (`UnboundLocalError`) unless an earlier python component set it, and stale otherwise.
- **Which component's poetry files.** `add_component` decides the poetry install by the lock files of the component being built, not of the dependency being added.
- **The extractor image.** It is built and removed even when both values are configured. Only the probes themselves are skipped. It is not removed when building it raised.
- **Configuration errors.** `ComponentConfig.validate` never raises, so no configuration error exists. Every failure to read `component.yaml` gives the empty configuration.

## Model

| member | source | states |
|---|---|---|
| Values.ToStr | build/build_docker_images.py:76-79 | str() of a truthy value is non-empty, so a truthy `language.version` always gives a non-empty version string |
| Values.Format | build/build_docker_images.py:22-27 | formatting UNDEFINED raises NotImplementedError; formatting a value gives its str() |
| Values.Iterate | build/build_docker_images.py:564-565 | a `for` loop over a list yields its items; over a string, its one-character strings; over anything else it raises TypeError |
| Config.UserInfo.Chown | build/build_docker_images.py:41-43 | "name:group" exactly when both fields are defined; otherwise it raises |
| Config.ComponentConfig.Get | build/build_docker_images.py:56-62 | the dotted-path fold of `get`; its contract is GetMeansResolve: the nested value or the default, never an exception |
| Config.ComponentConfig.Version | build/build_docker_images.py:67-69 | `meta.version` with default 1; its contract is VersionDefaultsToOne |
| Config.ComponentConfig.ConfiguredUserInfo | build/build_docker_images.py:101-105 | the configured user.* fields; its contract is ConfiguredUserReadsUserKeys |
| Config.ComponentConfig.LanguageName | build/build_docker_images.py:71-74 | UNDEFINED for a falsy `language.name`; the lower-cased, non-empty name for a truthy string; AttributeError exactly for a truthy non-string |
| Config.ComponentConfig.LanguageVersion | build/build_docker_images.py:76-79 | defined exactly when `language.version` is truthy; then its str(), which is non-empty |
| Config.ComponentConfig.ShouldBuildForCluster | build/build_docker_images.py:64-65 | true when `clusters` is UNDEFINED; otherwise Python's `in` on the list, string or mapping; TypeError exactly for an int, bool or null |
| Config.GetMeansResolve | build/build_docker_images.py:56-62 | with a non-dict default, `get` returns the nested value when every dotted key is present and the default otherwise; it never raises |
| Config.WalkStaysAtDefault | build/build_docker_images.py:58-62 | once the fold falls back to a non-dict default, the remaining keys leave it there |
| Config.DictDefaultIsWalkedInto | build/build_docker_images.py:56-62 | a dict default is walked into like data: `get("a.b", {"b": 1})` on `{}` gives 1 |
| Config.GetOneKey | build/build_docker_images.py:81-99 | a dot-free path reads the single key it names, as the `clusters` and `dependencies` accessors do |
| Config.GetTwoKeys | build/build_docker_images.py:67-105 | "a.b" reads key b of key a, as the meta, language, image and user accessors do |
| Config.VersionDefaultsToOne | build/build_docker_images.py:67-69 | `version` is the nested `meta.version` when component.yaml sets it, else 1 |
| Config.ConfiguredUserReadsUserKeys | build/build_docker_images.py:101-105 | the configured user info holds `user.name`, `user.group` and `user.home`, each UNDEFINED when missing |
| Config.ClusterWhitelist | build/build_docker_images.py:64-83 | unset clusters build everywhere; an explicit list builds exactly for its members; an empty list builds nowhere |
| Config.YamlAt | build/build_docker_images.py:340-342 | input helper: a component without a component.yaml on disk has a missing file |
| Config.CreateComponentConfig | build/build_docker_images.py:334-346 | a parsed file gives its document; any failure to read gives the empty config, on which every lookup is UNDEFINED |
| Config.GetComponentConfig | bin/commands/__init__.py:101-114 | a missing file gives `{}`; a file that cannot be opened raises its OSError; a file `yaml.safe_load` rejects raises its yaml.YAMLError; a parsed file gives its document |
| Config.LoadersDisagreeOnUnreadable | bin/commands/__init__.py:108-114 | the CLI loader raises exactly on files that cannot be opened or parsed, which the build script turns into the empty config |
| Descriptor.TagEndsWithHash | build/build_docker_images.py:151-153 | the tag is "project-component:hash", and a hash without ':' is what follows its last ':' |
| Descriptor.Tag | build/build_docker_images.py:151-153 | "project-component:hash"; its partner is TagEndsWithHash |
| Descriptor.Dev | build/build_docker_images.py:155-157 | a dev build is one whose hash is "local"; PoetryNoDev, PythonOptimize and AddPoetry state what it switches |
| Descriptor.HasPythonDependencies | build/build_docker_images.py:144-149 | both pyproject.toml and poetry.lock exist under the directory of the component being built; its consequence for dependencies is Steps.DependencyLockFilesIgnored |
| Descriptor.PoetryNoDev | build/build_docker_images.py:159-161 | "" exactly for dev builds (hash "local"), "--no-dev" otherwise |
| Descriptor.PythonOptimize | build/build_docker_images.py:163-165 | "" exactly for dev builds, "-O" otherwise |
| Descriptor.Aladdinize | build/build_docker_images.py:175-179 | truthy exactly when `image.aladdinize` is unset or truthy |
| Descriptor.AddPoetry | build/build_docker_images.py:181-185 | False outside dev builds; in a dev build truthy exactly when `image.add_poetry` is unset or truthy |
| Descriptor.ResolvedLanguageVersion | build/build_docker_images.py:138-142 | the version set by set_language_version wins, then a truthy `language.version`, then the default version |
| Descriptor.BaseImage | build/build_docker_images.py:167-169 | a truthy string `image.base`, else "python:<language version>-slim". `base_image` itself returns a truthy `image.base` of any type. The TypeError of a non-string one is raised by `subprocess.Popen` when `docker tag` is launched with it (line 432, the only reader), and the model reports that error here, before any call |
| Descriptor.BuilderImage | build/build_docker_images.py:171-173 | defined exactly once the language version has been set; before that AttributeError |
| Descriptor.BuilderMatchesDefaultBase | build/build_docker_images.py:167-173 | once the probed version is set, a component without `image.base` builds on the same python as its builder stages |
| Descriptor.Dependencies | build/build_docker_images.py:196-198 | a falsy `dependencies` gives no dependency; a list gives the str() of each item in order |
| Descriptor.SpecializedDockerfile | build/build_docker_images.py:187-190 | `components/<component>/Dockerfile` exactly when that file exists |
| Descriptor.BuildInfo.constructor | build/build_docker_images.py:108-121 | a BuildInfo holds its named-tuple fields and neither late attribute |
| Descriptor.BuildInfo.SetLanguageVersion | build/build_docker_images.py:131-132 | sets the late language version and nothing else |
| Descriptor.BuildInfo.SetUserInfo | build/build_docker_images.py:128-129 | sets the late user info and nothing else |
| Descriptor.BuildInfo.LanguageVersion | build/build_docker_images.py:138-142 | the object's language version, as ResolvedLanguageVersion states it from the late-set value |
| Descriptor.BuildInfo.User | build/build_docker_images.py:192-194 | the late-set user info, else the configured one (Config.ConfiguredUserReadsUserKeys) |
| Docker.BuildArgFlags | build/build_docker_images.py:629-630 | two flags per build argument |
| Docker.BuildArgFlagsPairs | build/build_docker_images.py:629-630 | argument i becomes "--build-arg" at position 2i and "KEY=VALUE" right after it, in insertion order |
| Docker.BuildCommandLayout | build/build_docker_images.py:626-631 | a docker build command is "docker build", the build args in order, then "--tag tag -f dockerfile components"; its length is 2n+7 |
| Docker.Host.CheckCall | build/build_docker_images.py:665-669 | one call is appended to the trace with the current .dockerignore; it raises exactly when the pipeline fails |
| Docker.Host.CheckOutput | build/build_docker_images.py:510-512 | one call is appended to the trace; the result is the call's stdout, or CalledProcessError |
| Docker.Host.DockerBuild | build/build_docker_images.py:620-662 | the loop assembles the docker build command of BuildCommand, and that one command is run |
| Docker.Host.Execute | build/build_docker_images.py:379-414 | running the steps of a plan as Python runs statements; its contract is ExecutePasses, ExecuteStops and ExecuteThen |
| Docker.Host.ExecutePasses | build/build_docker_images.py:379-414 | a run of steps passes exactly when the steps raise nothing themselves and none of their calls raises |
| Docker.Host.ExecuteStops | build/build_docker_images.py:379-414 | a run makes a prefix of the planned calls, every one but the last having passed; a run that stops early ends right after that first call that raised, with its exception |
| Docker.Host.ExecuteThen | build/build_docker_images.py:379-414 | running two steps in sequence is running the first, then, only if it passed, the second from where the first left off |
| Ignore.TerminatedLines | build/build_docker_images.py:233-235 | read back line by line, the written file gives the entries' lines and then an empty string |
| Ignore.SingleLineEntries | build/build_docker_images.py:233-235 | entries without newlines come back as one line each |
| Ignore.ScopeForgetsOldContent | build/build_docker_images.py:252-258 | opening in "w" mode drops the old content: a scope without ignore_defaults writes the same file whatever the file held before |
| Ignore.DockerIgnore.constructor | build/build_docker_images.py:209-216 | the file receives "", "### Ephemeral modifications ###" and "# Specific instructions", each newline-terminated |
| Ignore.DockerIgnore.Write | build/build_docker_images.py:233-235 | the entry and "\n" are appended to the file |
| Ignore.DockerIgnore.Ignore | build/build_docker_images.py:227-228 | the entry and "\n" are appended to the file |
| Ignore.DockerIgnore.IgnoreAll | build/build_docker_images.py:218-219 | "**" is appended, and the file is still the header plus the directives written |
| Ignore.DockerIgnore.Include | build/build_docker_images.py:230-231 | "!entry" is appended, and the file is still the header plus the directives written |
| Ignore.DockerIgnore.IgnoreDefaults | build/build_docker_images.py:221-225 | "", "### Original content ###" and the snapshot are appended |
| Ignore.OpenScope | build/build_docker_images.py:253-258 | the snapshot is the old content; the file is truncated and receives the header only |
| Ignore.CloseScope | build/build_docker_images.py:259-261 | the file holds the snapshot again |
| Probe.ParseVersion | build/build_docker_images.py:526-536 | output with exactly two dots is the version; anything else, including a failed call, gives "3.8"; a version other than "3.8" has three dot-separated parts |
| Probe.ParseUserInfo | build/build_docker_images.py:541-550 | three lines give name, first whitespace-separated group (None when there is none) and home; any other shape or a failed call gives all None; every field is defined |
| Probe.VersionProbeRoundTrip | build/build_docker_images.py:508-536 | a python that prints "x.y.z" and a newline is believed: the probed version is what it printed |
| Probe.MalformedVersionFallsBack | build/build_docker_images.py:530-536 | output without exactly three dot-separated parts gives "3.8" |
| Probe.UserProbeRoundTrip | build/build_docker_images.py:541-547 | what whoami, groups and echo $HOME print is parsed back to the name, the first group and the home directory |
| Probe.UserProbeNeedsThreeLines | build/build_docker_images.py:542-550 | two lines cannot be unpacked into three names, so every field becomes None |
| Steps.UserArgs | build/build_docker_images.py:473-474 | USER_HOME and USER_CHOWN can be formatted exactly when every user field is defined |
| Steps.PoetryArgs | build/build_docker_images.py:469-475 | add_poetry's build args exist exactly when the language version is set and every user field is defined |
| Steps.DependencyArgs | build/build_docker_images.py:592-601 | the dependency install's build args exist exactly when the language version is set and every user field is defined |
| Steps.VersionProbes | build/build_docker_images.py:520-529 | the version probe runs exactly when `language.version` is not truthy |
| Steps.UserProbes | build/build_docker_images.py:521-542 | the user probe runs exactly when the configured user info is not truthy |
| Steps.Probes | build/build_docker_images.py:520-550 | at most two probes, and none exactly when both values are configured |
| Steps.ProbedVersion | build/build_docker_images.py:520-536 | a configured version wins; otherwise "3.8" or a probed version with three dot-separated parts |
| Steps.ProbedUser | build/build_docker_images.py:521-550 | truthy configured user info wins; otherwise the probed user info, every field of which is defined |
| Steps.ProbeResult | build/build_docker_images.py:500-554 | get_base_image_info raises exactly when the extractor build or its removal fails; the probes themselves never raise |
| Steps.TagBaseImage | build/build_docker_images.py:419-432 | one "docker tag base tag" call, or TypeError for a base image that is not a string |
| Steps.AladdinizeImage | build/build_docker_images.py:435-449 | one docker build of the aladdinize template with FROM_IMAGE and PYTHON_OPTIMIZE |
| Steps.BuildSpecializedImage | build/build_docker_images.py:479-497 | one docker build of the component's Dockerfile under the unscoped .dockerignore |
| Steps.CallProbe | build/build_docker_images.py:508-515 | one docker run call in the extractor; its output is stripped |
| Steps.ProbeVersion | build/build_docker_images.py:520-536 | the version is ProbedVersion, and the calls made are exactly the version probes |
| Steps.ProbeUser | build/build_docker_images.py:538-550 | the user info is ProbedUser, and the calls made are exactly the user probes |
| Steps.RunProbes | build/build_docker_images.py:522-550 | the version probe, then the user probe, at the positions that follow |
| Steps.GetBaseImageInfo | build/build_docker_images.py:500-554 | the extractor is built, the unconfigured values are probed, and the extractor is removed; the calls and the result are those of ProbeTrace and ProbeResult |
| Steps.WritePoetryScope | build/build_docker_images.py:461-464 | the scope holds `**`, `!pip.conf`, `!poetry.toml` and the original content |
| Steps.WriteDependencyScope | build/build_docker_images.py:582-586 | the scope holds `**` and exactly pip.conf, poetry.toml and the component's pyproject.toml and poetry.lock |
| Steps.WriteContentScope | build/build_docker_images.py:608-610 | the scope holds `**`, the component's directory and the original content |
| Steps.AddPoetryStep | build/build_docker_images.py:452-476 | writes the poetry scope, then runs the poetry plan with that file in place |
| Steps.AddComponentPythonDependencies | build/build_docker_images.py:577-602 | writes the dependency scope, then runs the install plan with that file in place |
| Steps.AddComponentContent | build/build_docker_images.py:605-617 | writes the content scope, then runs the content plan with that file in place |
| Steps.ScopedAddPoetryStep | build/build_docker_images.py:250-261 | add_poetry under the decorator: the file is restored whether the step passes or raises |
| Steps.ScopedAddComponentPythonDependencies | build/build_docker_images.py:250-261 | the dependency install under the decorator: the file is restored on every path |
| Steps.ScopedAddComponentContent | build/build_docker_images.py:250-261 | the content copy under the decorator: the file is restored on every path |
| Steps.DependencyLockFilesIgnored | build/build_docker_images.py:568-574 | a dependency's own pyproject.toml and poetry.lock are ignored: it only has its content copied when the building component lacks those files, and gets the install when the building component has them |
| Steps.EmptyImageMessage | build/build_docker_images.py:357-366 | the dedented MESSAGE naming the component's component.yaml; used by BuildEmptyImage |
| Image.AddComponent | build/build_docker_images.py:568-574 | the scoped install when the building component has both poetry files, then the content; the file is restored |
| Image.DependenciesStop | build/build_docker_images.py:564-565 | once a dependency raises, the remaining ones are never added |
| Image.DependenciesStep | build/build_docker_images.py:564-565 | after the dependencies before it pass, one more dependency continues the run |
| Image.AddDependencies | build/build_docker_images.py:557-565 | add_component for each dependency in list order, stopping at the first exception; a value that cannot be iterated raises first; the file is restored |
| Image.BuildBaseImage | build/build_docker_images.py:383-391 | tag, then the boilerplate when enabled, then the component's Dockerfile when present, stopping at the first exception |
| Image.AddLayers | build/build_docker_images.py:402-410 | poetry when enabled, then each dependency, then the component itself, stopping at the first exception; the file is restored |
| Image.ProbedLayersRaise | build/build_docker_images.py:394-400 | proof step for ProbeAndAddLayers, one branch of ProbedLayersRun: when the probe raises, nothing is built after its calls |
| Image.ProbedLayersPass | build/build_docker_images.py:394-410 | proof step for ProbeAndAddLayers, the other branch of ProbedLayersRun: when the probe passes, the layers are built right after its calls, with the probed version and user |
| Image.ProbeAndAddLayers | build/build_docker_images.py:394-410 | the probe and the layers; the probed values are set on the BuildInfo exactly when the probe passes |
| Image.BuildPythonComponentImage | build/build_docker_images.py:371-416 | the calls are the steps before the probe, the probe, then the layers, up to the first exception; the file is restored; the late values are set exactly when the probe was reached and passed |
| Image.BuildEmptyImage | build/build_docker_images.py:349-368 | one docker build of the echo-message template whose MESSAGE names the component |
| Orchestrator.ToBuild | build/build_docker_images.py:281-284 | the components named, or every discovered directory when none is named |
| Orchestrator.NewParams | build/build_docker_images.py:300-309 | a BuildInfo exactly when lamp.json has `name` and `docker_images`; KeyError for the first one missing; the component, config and hash are those given |
| Orchestrator.PythonBranch | build/build_docker_images.py:299-318 | the python branch; its contract is DecideShapes and PythonTwoRejected |
| Orchestrator.Decide | build/build_docker_images.py:286-322 | one iteration up to its docker calls; its contract is DecideShapes and the lemmas on the skipped, foreign and python 2 cases |
| Orchestrator.DecideShapes | build/build_docker_images.py:286-329 | an iteration either builds this component on a python 3 version and rebinds both locals, or builds empty from the build_info left earlier, or raises; the locals change only when a new BuildInfo for this component was made; without CLUSTER_NAME it raises KeyError |
| Orchestrator.PrefixAt | build/build_docker_images.py:286-329 | each iteration's action is decided on the build_info and language_version left by the iterations before it |
| Orchestrator.BuildComponent | build/build_docker_images.py:286-329 | one iteration makes the calls of its decided action and leaves build_info and language_version as Decide says; the file is restored |
| Orchestrator.Build | build/build_docker_images.py:268-331 | the calls and the outcome are those of BuildRun: each component's action in order, until the first exception; the file is restored |
| Orchestrator.BuildRun | build/build_docker_images.py:286-331 | the calls and outcome of the whole loop, which Build is proved to produce; its lemmas are PassedBuildTookNoStop, FirstFailureEndsBuild and the quirk lemmas |
| Orchestrator.PassedRunsTookNoStop | build/build_docker_images.py:286-331 | a run of actions that passes took no action that raises |
| Orchestrator.PassedBuildTookNoStop | build/build_docker_images.py:286-331 | a build that passes built every component or built it empty: no component was rejected |
| Orchestrator.FirstFailureEndsBuild | build/build_docker_images.py:286-329 | when the first component's run raises, the build is exactly that run |
| Orchestrator.NoClusterNameFailsFirst | build/build_docker_images.py:292 | without CLUSTER_NAME the build raises KeyError before any docker call |
| Orchestrator.SkippedFirstIsUnbound | build/build_docker_images.py:323-329 | a first component skipped for this cluster raises UnboundLocalError on build_info before any docker call |
| Orchestrator.ForeignLanguageReadsLastVersion | build/build_docker_images.py:319-322 | a language other than python is rejected before any docker call: UnboundLocalError when no language_version is bound, else ValueError naming the last python version |
| Orchestrator.ForeignFirstIsUnbound | build/build_docker_images.py:319-322 | a first component in another language raises UnboundLocalError on language_version |
| Orchestrator.PythonTwoRejected | build/build_docker_images.py:311-318 | a python version not starting with "3" is rejected with ValueError before any docker call, and build_info and language_version are rebound |
| Orchestrator.SkippedAfterPythonReusesBuildInfo | build/build_docker_images.py:300-329 | a skipped component after a python one is built empty with the previous component's BuildInfo |
| ComponentGraph.Member | bin/commands/__init__.py:88 | `Component[key]` gives the component exactly when the key is the name of one; TypeError (unhashable type) for a list or mapping; KeyError for any other value |
| ComponentGraph.Members | bin/commands/__init__.py:87-90 | the dependencies map to components in order exactly when every one names a component |
| ComponentGraph.MembersFirstUnknown | bin/commands/__init__.py:87-90 | the first dependency that is no component decides the error: TypeError for a list or mapping, otherwise a KeyError naming it |
| ComponentGraph.EdgesUpToOk | bin/commands/__init__.py:85-90 | the edges exist exactly when every component's file and dependency list can be read |
| ComponentGraph.EdgesUpToContents | bin/commands/__init__.py:85-90 | d → c is an edge exactly when c is a component that declares dependency d |
| ComponentGraph.EdgesJoinComponents | bin/commands/__init__.py:83-90 | every edge joins two discovered components |
| ComponentGraph.EdgesUpToRaises | bin/commands/__init__.py:85-90 | the first component that raises decides the error; later components change nothing |
| ComponentGraph.NoDependenciesKey | bin/commands/__init__.py:86-89 | a component without a `dependencies` key, or without a component.yaml, contributes no edge |
| ComponentGraph.NonMappingDocument | bin/commands/__init__.py:86-89 | a component.yaml whose document is not a mapping, such as an empty file that loads as None, raises AttributeError at `.get("dependencies", [])` |
| ComponentGraph.UniterableDependencies | bin/commands/__init__.py:89 | a `dependencies` value that is null (an empty `dependencies:`), an int or a bool raises the TypeError of iterating it |
| ComponentGraph.UnknownDependency | bin/commands/__init__.py:88 | a dependency that names no component raises, unless an earlier one already has: TypeError when it is a list or mapping, KeyError otherwise |
| ComponentGraph.DependenciesAreComponents | bin/commands/__init__.py:88 | every dependency a component declares is itself a component |
| ComponentGraph.DiGraph.constructor | bin/commands/__init__.py:83 | an empty graph |
| ComponentGraph.DiGraph.AddNodesFrom | bin/commands/__init__.py:84 | the nodes are added and the edges are unchanged |
| ComponentGraph.DiGraph.AddEdgesFrom | bin/commands/__init__.py:87-90 | the edges are added, and so are their endpoints |
| ComponentGraph.DiGraph.FindCycle | bin/commands/__init__.py:92-98 | reports a cycle exactly when the edges close a directed cycle (a self-loop included) |
| ComponentGraph.AddDeclaredEdges | bin/commands/__init__.py:85-90 | the loop adds exactly the declared edges, or reports the first error; the nodes are the components |
| ComponentGraph.GetComponentGraph | bin/commands/__init__.py:74-98 | the graph of all components and declared edges when it is acyclic; RuntimeError when it has a cycle; otherwise the first error a component raises: the loader's OSError or yaml.YAMLError; AttributeError for a component.yaml that is no mapping, an empty one included; TypeError for a `dependencies` value that is neither a list nor a string; or the TypeError or KeyError of the enum lookup |
| DocsConf.SkipMemberIf | docs/source/conf.py:90-98 | True exactly when a name rule applies or the docstring carries "autoapiskip:"; None for any other member with a docstring; never False; AttributeError exactly when no name rule applies and there is no docstring |
| DocsConf.BinSkippedFirst | docs/source/conf.py:91-92 | a single instance of SkipMemberIf, recording the short circuit: "bin" is skipped whatever its docstring, even without one |
| DocsConf.LoggersSkipped | docs/source/conf.py:94 | every name ending ".logger" is skipped |
| DocsConf.EntryPointsSkipped | docs/source/conf.py:95-96 | "commands…parse_args" and "bin…main" are skipped |
| DocsConf.MarkerDecides | docs/source/conf.py:97 | any other member whose docstring contains the marker is skipped |
| DocsConf.BinSubmodulesKept | docs/source/conf.py:93-98 | a single instance of SkipMemberIf: "bin.commands" with an unmarked docstring is left to autoapi (None) |
| Strings.Contains | docs/source/conf.py:97 | Python's `t in s`: true exactly when t occurs at some position of s |
| Strings.SplitJoinsBack | build/build_docker_images.py:60 | `split(sep)` loses nothing: joining the parts back with the separator gives the string |
| Strings.SplitJoin | build/build_docker_images.py:60 | split undoes join when no part contains the separator |
| Strings.SplitCount | build/build_docker_images.py:531 | a string splits into one more part than it has separators, so two dots mean three parts |
| Strings.StripDrops | build/build_docker_images.py:514 | strip() keeps a slice of the string and drops only whitespace on either side of it |
| Strings.StripLine | build/build_docker_images.py:514 | stripping the newline a command prints after text without blank ends gives back that text |
| Strings.WordsAreWords | build/build_docker_images.py:543 | split() yields only non-empty runs of non-space characters, and yields none exactly when the string is all blanks |
| Strings.LeadingWord | build/build_docker_images.py:543-545 | a word followed by a blank, or by nothing, is the first thing split() yields |
| Strings.Lower | build/build_docker_images.py:74 | lower() maps each character to its lower case, keeping the length |

## Left out

- Logging, coloredlogs and the `__main__` block are not modelled, because they have no effect on the calls made.
- `components/.dockerignore` is assumed to exist. Two FileNotFoundErrors that a missing file would raise are not modelled:
  - `shutil.copyfile` in the `dockerignore` decorator;
  - the `open` that `_docker_build` uses to log the file, which would raise before any docker build runs.
- Subprocesses are not run. Docker and sed become a trace of argument lists on `Host`. Which call raises, what each call prints and which paths exist are fixed in advance by the host's parameters. The files on disk do not change during a build.
- `os.environ["CLUSTER_NAME"]`, lamp.json, the component.yaml files and the directory listing of `components/` are inputs (`Job`, `listing`). YAML and JSON parsing are not modelled; the parsed document is given, or the text of the OSError or yaml.YAMLError that reading it raises.
- The temporary file and the `atexit` hook of the `dockerignore` decorator are not modelled: the snapshot is a value, restored on every return path of the step. Process termination in mid-step is not modelled, and neither is the fact that `atexit.unregister(shutil.copyfile)` drops every copyfile registration.
- The `NameError` raised by the assertion message that names `retrieved_version` is not modelled as an exception of its own. It is caught by the same `except Exception` as a failed assertion, so the model only keeps the "3.8" fallback.
- Values.ToStr: the str() of a non-empty list or mapping is a placeholder, because Python's repr of containers is not modelled. Floats in YAML are not modelled either.
- Values.Iterate: iterating a mapping raises TypeError in the model, whereas Python iterates its keys, because `map` has no insertion order. A mapping-valued `dependencies` is therefore not modelled.
- Strings.Lower: only ASCII letters are lower-cased, because Unicode case mapping is not modelled.
- ComponentGraph.DiGraph.FindCycle: decides whether a cycle exists by removing sources. It does not model networkx's depth-first search, which cycle `find_cycle` reports, or the cycle carried in the RuntimeError.
- ComponentGraph.GetComponentGraph: the components are given as a sequence standing for the `Component` enum. The edges that networkx would have added before a KeyError or TypeError are not modelled, because the graph is discarded with the exception.
- Config.CreateComponentConfig: `validate` has an empty body, so the `ConfigurationException` branch can never be taken and is not modelled.
- Sphinx's `setup` registration and the settings constants of `docs/source/conf.py` are not modelled; `skip_member_if` reads only `name` and `obj.docstring`.

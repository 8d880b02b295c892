// BuildInfo of build/build_docker_images.py: the seven named-tuple fields
// (BuildParams, a value) with the properties derived from them, and the object
// that carries the two attributes set late in the build (language version and
// user info).

module Descriptor {
  import opened Strings
  import opened Values
  import opened Config

  /** The named-tuple fields of BuildInfo. */
  datatype BuildParams = BuildParams(
    project: string,
    toPublish: Value,
    component: string,
    config: ComponentConfig,
    hash: string,
    defaultLanguageVersion: string,
    poetryVersion: string)

  /** The image tag "{project}-{component}:{hash}". */
  function Tag(p: BuildParams): string
  {
    p.project + "-" + p.component + ":" + p.hash
  }

  /** A hash without ':' is exactly what follows the tag's last ':'. */
  lemma TagEndsWithHash(p: BuildParams)
    requires ':' !in p.hash
    ensures var parts := Split(Tag(p), ':'); parts[|parts| - 1] == p.hash
  {
    assert Tag(p) == (p.project + "-" + p.component) + [':'] + p.hash;
    SplitAppend(p.project + "-" + p.component, p.hash, ':');
    SplitNoSep(p.hash, ':');
  }

  /** A dev build is one whose hash is the literal "local". */
  predicate Dev(p: BuildParams)
  {
    p.hash == "local"
  }

  function PoetryNoDev(p: BuildParams): (r: string)
    ensures r == "" <==> Dev(p)
  {
    if Dev(p) then "" else "--no-dev"
  }

  function PythonOptimize(p: BuildParams): (r: string)
    ensures r == "" <==> Dev(p)
  {
    if Dev(p) then "" else "-O"
  }

  /** aladdinize: the configured image.aladdinize value, True when it is not set. */
  function Aladdinize(p: BuildParams): (r: Value)
    ensures Truthy(r) <==> p.config.ImageAladdinize().Undefined? || Truthy(p.config.ImageAladdinize().v)
  {
    var configured := p.config.ImageAladdinize();
    if configured.Val? then configured.v else Bool(true)
  }

  /** add_poetry: False outside dev builds; in a dev build the configured value, True when not set. */
  function AddPoetry(p: BuildParams): (r: Value)
    ensures !Dev(p) ==> r == Bool(false)
    ensures Truthy(r) <==> Dev(p) && (p.config.ImageAddPoetry().Undefined? || Truthy(p.config.ImageAddPoetry().v))
  {
    var configured := p.config.ImageAddPoetry();
    if !Dev(p) then Bool(false)
    else if configured.Val? then configured.v else Bool(true)
  }

  /** language_version: the value set late, else a truthy configured language.version, else the default. */
  function ResolvedLanguageVersion(p: BuildParams, late: Option<string>): (r: string)
    ensures late.Some? ==> r == late.value
    ensures late.None? && p.config.LanguageVersion().Some? ==> r == p.config.LanguageVersion().value
    ensures late.None? && p.config.LanguageVersion().None? ==> r == p.defaultLanguageVersion
  {
    if late.Some? then late.value
    else if p.config.LanguageVersion().Some? then p.config.LanguageVersion().value
    else p.defaultLanguageVersion
  }

  /** base_image: a truthy image.base, else the slim python image of the language version. */
  function BaseImage(p: BuildParams, languageVersion: string): (r: Result<string>)
    ensures !Present(p.config.ImageBase()) ==> r == Ok("python:" + languageVersion + "-slim")
    ensures Present(p.config.ImageBase()) && p.config.ImageBase().v.Str? ==> r == Ok(p.config.ImageBase().v.s)
    ensures r.Raise? <==> Present(p.config.ImageBase()) && !p.config.ImageBase().v.Str?
  {
    var base := p.config.ImageBase();
    if !Present(base) then Ok("python:" + languageVersion + "-slim")
    else if base.v.Str? then Ok(base.v.s)
    else Raise(TypeError("expected str, bytes or os.PathLike object"))
  }

  /** builder_image: reads the late-set version directly, so it raises until set_language_version has run. */
  function BuilderImage(late: Option<string>): (r: Result<string>)
    ensures r.Ok? <==> late.Some?
  {
    if late.Some? then Ok("python:" + late.value + "-slim")
    else Raise(AttributeError("'BuildInfo' object has no attribute '_language_version'"))
  }

  /** Once the probed version is set, a component without image.base builds on the same python its builder stages use. */
  lemma BuilderMatchesDefaultBase(p: BuildParams, version: string)
    requires !Present(p.config.ImageBase())
    ensures BaseImage(p, ResolvedLanguageVersion(p, Some(version))) == BuilderImage(Some(version))
  {
  }

  /** dependencies: `config.dependencies or []`, iterated; each item formatted with an f-string. */
  function Dependencies(p: BuildParams): (r: Result<seq<string>>)
    ensures !Present(p.config.Dependencies()) ==> r == Ok([])
    ensures var d := p.config.Dependencies();
            Present(d) && d.v.List? ==>
              (r.Ok? && |r.value| == |d.v.items| && forall i :: 0 <= i < |d.v.items| ==> r.value[i] == ToStr(d.v.items[i]))
  {
    var deps := p.config.Dependencies();
    if !Present(deps) then Ok([])
    else match Iterate(deps.v)
      case Raise(e) => Raise(e)
      case Ok(items) => Ok(seq(|items|, i requires 0 <= i < |items| => ToStr(items[i])))
  }

  /** The path of a file of a component, as pathlib renders "components" / component / name for a plain component name (no trailing or doubled '/'). */
  function ComponentFile(component: string, name: string): string
  {
    "components/" + component + "/" + name
  }

  /** has_python_dependencies: both pyproject.toml and poetry.lock exist for the component being built. */
  predicate HasPythonDependencies(p: BuildParams, existing: set<string>)
  {
    ComponentFile(p.component, "pyproject.toml") in existing && ComponentFile(p.component, "poetry.lock") in existing
  }

  /** specialized_dockerfile: the component's own Dockerfile, when it exists. */
  function SpecializedDockerfile(p: BuildParams, existing: set<string>): (r: Option<string>)
    ensures r.Some? <==> ComponentFile(p.component, "Dockerfile") in existing
    ensures r.Some? ==> r.value == ComponentFile(p.component, "Dockerfile")
  {
    var path := ComponentFile(p.component, "Dockerfile");
    if path in existing then Some(path) else None
  }

  /** The BuildInfo object: named-tuple fields plus the two attributes set during the build. */
  class BuildInfo {
    const params: BuildParams
    var lateLanguageVersion: Option<string>
    var lateUserInfo: Option<UserInfo>

    constructor(params: BuildParams)
      ensures this.params == params
      ensures lateLanguageVersion == None && lateUserInfo == None
    {
      this.params := params;
      lateLanguageVersion := None;
      lateUserInfo := None;
    }

    method SetLanguageVersion(version: string)
      modifies this`lateLanguageVersion
      ensures lateLanguageVersion == Some(version)
    {
      lateLanguageVersion := Some(version);
    }

    method SetUserInfo(userInfo: UserInfo)
      modifies this`lateUserInfo
      ensures lateUserInfo == Some(userInfo)
    {
      lateUserInfo := Some(userInfo);
    }

    function LanguageVersion(): string
      reads this
    {
      ResolvedLanguageVersion(params, lateLanguageVersion)
    }

    /** user_info: the value set late, else the configured user.* fields. */
    function User(): UserInfo
      reads this
    {
      if lateUserInfo.Some? then lateUserInfo.value else params.config.ConfiguredUserInfo()
    }
  }
}

// The component.yaml view of build/build_docker_images.py: ComponentConfig with
// its dotted-path `get`, the typed accessors layered on it, UserInfo, and the
// two loaders (the build script's create_component_config and the CLI's
// get_component_config in bin/commands/__init__.py).

module Config {
  import opened Strings
  import opened Values

  /** The runtime user of an image: name, group, home directory. */
  datatype UserInfo = UserInfo(name: Lookup, group: Lookup, home: Lookup)
  {
    /** UserInfo.__bool__: all three fields are truthy. */
    predicate Truthy()
    {
      Present(name) && Present(group) && Present(home)
    }

    /** Every field is defined, so that each can be formatted. */
    predicate Resolved()
    {
      name.Val? && group.Val? && home.Val?
    }

    /** UserInfo.chown: "name:group". */
    function Chown(): (r: Result<string>)
      ensures r.Ok? <==> name.Val? && group.Val?
      ensures r.Ok? ==> r.value == ToStr(name.v) + ":" + ToStr(group.v)
    {
      match (Format(name), Format(group))
      case (Ok(n), Ok(g)) => Ok(n + ":" + g)
      case (Raise(e), _) => Raise(e)
      case (_, Raise(e)) => Raise(e)
    }
  }

  /** One step of the dotted-path fold: `d.get(key, default) if isinstance(d, dict) else default`. */
  function GetStep(d: Lookup, key: string, default: Lookup): Lookup
  {
    if d.Val? && d.v.Dict? then
      if key in d.v.fields then Val(d.v.fields[key]) else default
    else default
  }

  /** functools.reduce of GetStep over the keys, from the left. */
  function Walk(d: Lookup, keys: seq<string>, default: Lookup): Lookup
  {
    WalkFrom(d, keys, 0, default)
  }

  /** The fold from the key at index i on, d being what the keys before it gave. */
  function WalkFrom(d: Lookup, keys: seq<string>, i: nat, default: Lookup): Lookup
    decreases |keys| - i
  {
    if i >= |keys| then d else WalkFrom(GetStep(d, keys[i], default), keys, i + 1, default)
  }

  /** Reference reading of a key path: the nested value, or UNDEFINED when some key is missing. */
  function Resolve(v: Value, keys: seq<string>): Lookup
    decreases |keys|
  {
    if keys == [] then Val(v)
    else if v.Dict? && keys[0] in v.fields then Resolve(v.fields[keys[0]], keys[1..])
    else Undefined
  }

  predicate IsDictDefault(default: Lookup)
  {
    default.Val? && default.v.Dict?
  }

  /** The representation of a component.yaml. */
  datatype ComponentConfig = ComponentConfig(data: Value)
  {
    /** get(path, default): split on "." and walk the nested dicts; never raises. */
    function Get(path: string, default: Lookup): Lookup
    {
      At(Split(path, '.'), default)
    }

    /** The walk get performs once the path is split; the accessors below name their keys directly. */
    function At(keys: seq<string>, default: Lookup): Lookup
    {
      Walk(Val(data), keys, default)
    }

    function Version(): Lookup
    {
      At(["meta", "version"], Val(Int(1)))
    }

    /** language.name lower-cased, UNDEFINED when falsy; a truthy non-string has no lower(). */
    function LanguageName(): (r: Result<Option<string>>)
      ensures !Present(At(["language", "name"], Undefined)) ==> r == Ok(None)
      ensures var n := At(["language", "name"], Undefined);
              Present(n) && n.v.Str? ==> r == Ok(Some(Lower(n.v.s))) && r.value.value != ""
      ensures r.Raise? <==> Present(At(["language", "name"], Undefined)) && !At(["language", "name"], Undefined).v.Str?
    {
      var name := At(["language", "name"], Undefined);
      if !Present(name) then Ok(None)
      else if name.v.Str? then Ok(Some(Lower(name.v.s)))
      else Raise(AttributeError("object has no attribute 'lower'"))
    }

    /** str(language.version), or UNDEFINED when it is falsy. */
    function LanguageVersion(): (r: Option<string>)
      ensures r.Some? <==> Present(At(["language", "version"], Undefined))
      ensures r.Some? ==> r.value == ToStr(At(["language", "version"], Undefined).v) && r.value != ""
    {
      var version := At(["language", "version"], Undefined);
      if Present(version) then Some(ToStr(version.v)) else None
    }

    function Clusters(): Lookup
    {
      At(["clusters"], Undefined)
    }

    function ImageBase(): Lookup
    {
      At(["image", "base"], Undefined)
    }

    function ImageAladdinize(): Lookup
    {
      At(["image", "aladdinize"], Undefined)
    }

    function ImageAddPoetry(): Lookup
    {
      At(["image", "add_poetry"], Undefined)
    }

    function Dependencies(): Lookup
    {
      At(["dependencies"], Undefined)
    }

    function ConfiguredUserInfo(): UserInfo
    {
      UserInfo(At(["user", "name"], Undefined), At(["user", "group"], Undefined), At(["user", "home"], Undefined))
    }

    /** should_build_for_cluster: `clusters is UNDEFINED or cluster in clusters`. */
    function ShouldBuildForCluster(cluster: string): (r: Result<bool>)
      ensures Clusters().Undefined? ==> r == Ok(true)
      ensures Clusters().Val? && Clusters().v.List? ==> r == Ok(Str(cluster) in Clusters().v.items)
      ensures Clusters().Val? && Clusters().v.Str? ==> r == Ok(Contains(Clusters().v.s, cluster))
      ensures Clusters().Val? && Clusters().v.Dict? ==> r == Ok(cluster in Clusters().v.fields)
      ensures r.Raise? <==> Clusters().Val? && (Clusters().v.Int? || Clusters().v.Bool? || Clusters().v.Null?)
    {
      var clusters := Clusters();
      if clusters.Undefined? then Ok(true)
      else match clusters.v
        case List(xs) => Ok(Str(cluster) in xs)
        case Str(s) => Ok(Contains(s, cluster))
        case Dict(m) => Ok(cluster in m)
        case _ => Raise(TypeError("argument is not iterable"))
    }
  }

  /** With a default that is not a dict, get returns the nested value when every key is present and the default otherwise. */
  lemma GetMeansResolve(c: ComponentConfig, path: string, default: Lookup)
    requires !IsDictDefault(default)
    ensures var found := Resolve(c.data, Split(path, '.'));
            c.Get(path, default) == if found.Val? then found else default
  {
    WalkResolves(c.data, Split(path, '.'), default);
  }

  lemma WalkResolves(v: Value, keys: seq<string>, default: Lookup)
    requires !IsDictDefault(default)
    ensures var found := Resolve(v, keys);
            Walk(Val(v), keys, default) == if found.Val? then found else default
  {
    WalkFromResolves(v, keys, 0, default);
    assert keys[0..] == keys;
  }

  lemma {:induction false} WalkFromResolves(v: Value, keys: seq<string>, i: nat, default: Lookup)
    requires !IsDictDefault(default) && i <= |keys|
    ensures var found := Resolve(v, keys[i..]);
            WalkFrom(Val(v), keys, i, default) == if found.Val? then found else default
    decreases |keys| - i
  {
    if i < |keys| {
      assert keys[i..][0] == keys[i] && keys[i..][1..] == keys[i + 1..];
      if v.Dict? && keys[i] in v.fields {
        WalkFromResolves(v.fields[keys[i]], keys, i + 1, default);
      } else {
        WalkStaysAtDefault(keys, i + 1, default);
      }
    }
  }

  /** Once the fold has fallen back to a non-dict default it stays there: a missing key ends the walk. */
  lemma {:induction false} WalkStaysAtDefault(keys: seq<string>, i: nat, default: Lookup)
    requires !IsDictDefault(default)
    ensures WalkFrom(default, keys, i, default) == default
    decreases |keys| - i
  {
    if i < |keys| {
      WalkStaysAtDefault(keys, i + 1, default);
    }
  }

  /** A dict default is walked into like data: get("a.b", {"b": 1}) on {} gives 1. */
  lemma DictDefaultIsWalkedInto()
    ensures ComponentConfig(Dict(map[])).Get("a.b", Val(Dict(map["b" := Int(1)]))) == Val(Int(1))
  {
    assert Split("a.b", '.') == ["a", "b"] by {
      SplitJoin(["a", "b"], '.');
    }
  }

  /**
   * get on a one-key path walks that key. The accessors above name their dot-free keys
   * directly, so each reads what get reads on the corresponding path ("clusters", "dependencies").
   */
  lemma GetOneKey(c: ComponentConfig, a: string, default: Lookup)
    requires '.' !in a
    ensures c.Get(a, default) == c.At([a], default)
  {
    SplitNoSep(a, '.');
  }

  /** get on "a.b" walks a, then b ("meta.version", "language.name", "image.base", "user.home", ...). */
  lemma GetTwoKeys(c: ComponentConfig, a: string, b: string, default: Lookup)
    requires '.' !in a && '.' !in b
    ensures c.Get(a + "." + b, default) == c.At([a, b], default)
  {
    assert a + "." + b == a + ['.'] + b;
    SplitAppend(a, b, '.');
    SplitNoSep(a, '.');
    SplitNoSep(b, '.');
    assert Split(a + "." + b, '.') == [a, b];
  }

  /** meta.version: the nested value when component.yaml sets it, else 1. */
  lemma VersionDefaultsToOne(c: ComponentConfig)
    ensures var found := Resolve(c.data, ["meta", "version"]);
            c.Version() == if found.Val? then found else Val(Int(1))
  {
    WalkResolves(c.data, ["meta", "version"], Val(Int(1)));
  }

  /** The configured user info reads user.name, user.group and user.home, each UNDEFINED when missing. */
  lemma ConfiguredUserReadsUserKeys(c: ComponentConfig)
    ensures c.ConfiguredUserInfo() ==
              UserInfo(Resolve(c.data, ["user", "name"]), Resolve(c.data, ["user", "group"]), Resolve(c.data, ["user", "home"]))
  {
    WalkResolves(c.data, ["user", "name"], Undefined);
    WalkResolves(c.data, ["user", "group"], Undefined);
    WalkResolves(c.data, ["user", "home"], Undefined);
  }

  /** Unset clusters build everywhere; an explicit list builds exactly for its members; [] builds nowhere. */
  lemma ClusterWhitelist(c: ComponentConfig, cluster: string)
    requires c.Clusters().Undefined? || c.Clusters().v.List?
    ensures c.ShouldBuildForCluster(cluster).Ok?
    ensures c.ShouldBuildForCluster(cluster).value <==>
              c.Clusters().Undefined? || exists i :: 0 <= i < |c.Clusters().v.items| && c.Clusters().v.items[i] == Str(cluster)
    ensures c.Clusters() == Val(List([])) ==> !c.ShouldBuildForCluster(cluster).value
  {
  }

  /** A component.yaml as found on disk. */
  datatype YamlFile =
    | Missing                      // open raises FileNotFoundError
    | Unopenable(reason: string)   // open raises another OSError (permissions, a directory, ...)
    | Malformed(problem: string)   // yaml.safe_load raises yaml.YAMLError
    | Parsed(doc: Value)           // yaml.safe_load's result
  {
    /** The file is there but cannot be read into a document. */
    predicate Unreadable()
    {
      Unopenable? || Malformed?
    }
  }

  /** The component.yaml of a component, given the files found under components/ (absent: not on disk). */
  function YamlAt(files: map<string, YamlFile>, component: string): (file: YamlFile)
    ensures component !in files ==> file.Missing?
  {
    if component in files then files[component] else Missing
  }

  /** create_component_config: any failure to read yields the empty config (validate() never raises). */
  function CreateComponentConfig(file: YamlFile): (c: ComponentConfig)
    ensures file.Parsed? ==> c.data == file.doc
    ensures !file.Parsed? ==> forall path :: c.Get(path, Undefined) == Undefined
  {
    if file.Parsed? then ComponentConfig(file.doc)
    else
      assert forall path :: ComponentConfig(Dict(map[])).Get(path, Undefined) == Undefined by {
        forall path ensures ComponentConfig(Dict(map[])).Get(path, Undefined) == Undefined {
          GetMeansResolve(ComponentConfig(Dict(map[])), path, Undefined);
        }
      }
      ComponentConfig(Dict(map[]))
  }

  /** get_component_config (bin/commands): only a missing file yields {}; other errors propagate. */
  function GetComponentConfig(file: YamlFile): (r: Result<Value>)
    ensures r == Ok(Dict(map[])) <== file.Missing?
    ensures r.Raise? <==> file.Unreadable()
    ensures file.Unopenable? ==> r == Raise(OSError(file.reason))
    ensures file.Malformed? ==> r == Raise(YAMLError(file.problem))
    ensures file.Parsed? ==> r == Ok(file.doc)
  {
    match file
    case Missing => Ok(Dict(map[]))
    case Unopenable(reason) => Raise(OSError(reason))
    case Malformed(problem) => Raise(YAMLError(problem))
    case Parsed(doc) => Ok(doc)
  }

  /** The two loaders disagree exactly on unreadable files: the build script swallows the error. */
  lemma LoadersDisagreeOnUnreadable(file: YamlFile)
    ensures GetComponentConfig(file).Raise? <==> (file.Unreadable() && CreateComponentConfig(file) == ComponentConfig(Dict(map[])))
  {
  }
}

// The Python values the build tooling works with: parsed YAML/JSON documents,
// the UNDEFINED sentinel of build/build_docker_images.py, Python's truthiness
// and str(), and the exceptions the tooling raises or catches.

module Values {
  import opened Strings

  datatype Option<+T> = None | Some(value: T)

  /** A parsed YAML or JSON document (floats are not part of the model). */
  datatype Value =
    | Dict(fields: map<string, Value>)
    | List(items: seq<Value>)
    | Str(s: string)
    | Bool(b: bool)
    | Int(i: int)
    | Null

  /** The result of a configuration lookup: a value, or the UNDEFINED sentinel. */
  datatype Lookup = Undefined | Val(v: Value)

  /** Python's bool(v). */
  predicate Truthy(v: Value)
  {
    match v
    case Dict(m) => |m| > 0
    case List(xs) => |xs| > 0
    case Str(s) => s != ""
    case Bool(b) => b
    case Int(i) => i != 0
    case Null => false
  }

  /** bool(x) for a lookup: UNDEFINED.__bool__ returns False. */
  predicate Present(l: Lookup)
  {
    l.Val? && Truthy(l.v)
  }

  /** Python's str(v) (and f"{v}"); the text of a non-empty list or mapping is not modelled. */
  function ToStr(v: Value): (r: string)
    ensures Truthy(v) ==> r != ""
  {
    match v
    case Str(s) => s
    case Int(i) => IntToString(i)
    case Bool(b) => if b then "True" else "False"
    case Null => "None"
    case List(xs) => if xs == [] then "[]" else "[...]"
    case Dict(m) => if |m| == 0 then "{}" else "{...}"
  }

  datatype Exception =
    | ValueError(message: string)
    | TypeError(message: string)
    | AttributeError(message: string)
    | KeyError(key: string)
    | UnboundLocalError(name: string)
    | NotImplementedError
    | CalledProcessError(argv: seq<string>)
    | OSError(reason: string)
    | YAMLError(problem: string)  // yaml.YAMLError, e.g. a ScannerError or ParserError
    | RuntimeError(message: string)

  /** A value, or the exception raised while computing it. */
  datatype Result<+T> = Ok(value: T) | Raise(error: Exception)

  /** Normal completion, or the exception raised. */
  datatype Outcome = Pass | Fail(error: Exception)

  /** Formatting a lookup with str() or an f-string: UNDEFINED.__str__ raises NotImplementedError. */
  function Format(l: Lookup): (r: Result<string>)
    ensures r.Ok? <==> l.Val?
    ensures l.Val? ==> r.value == ToStr(l.v)
  {
    match l
    case Undefined => Raise(NotImplementedError)
    case Val(v) => Ok(ToStr(v))
  }

  /** Iterating a value with a for loop: a list yields its items, a string its characters. */
  function Iterate(v: Value): (r: Result<seq<Value>>)
    ensures v.List? ==> r == Ok(v.items)
    ensures v.Str? ==> r.Ok? && |r.value| == |v.s|
    ensures v.Str? ==> forall i :: 0 <= i < |v.s| ==> r.value[i] == Str([v.s[i]])
    ensures r.Raise? <==> !(v.List? || v.Str?)
  {
    match v
    case List(xs) => Ok(xs)
    case Str(s) => Ok(seq(|s|, i requires 0 <= i < |s| => Str([s[i]])))
    case Dict(_) => Raise(TypeError("iteration over a mapping is not modelled"))
    case Bool(_) => Raise(TypeError("'bool' object is not iterable"))
    case Int(_) => Raise(TypeError("'int' object is not iterable"))
    case Null => Raise(TypeError("'NoneType' object is not iterable"))
  }
}

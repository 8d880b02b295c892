// get_component_graph of bin/commands/__init__.py: one node per discovered
// component, an edge from each dependency a component.yaml declares to the
// component declaring it, and a RuntimeError when the edges close a directed
// cycle. The cycle search is a source-removal (Kahn) pass proved to find a
// cycle exactly when one exists; which cycle networkx would report is not modelled.

module ComponentGraph {
  import opened Values
  import opened Config

  // ---------------------------------------------------------------------------
  // Directed graphs and their cycles.

  /** A closed walk of at least one edge: consecutive nodes are joined by edges and it ends where it starts. */
  ghost predicate IsCycle<T>(edges: set<(T, T)>, walk: seq<T>)
  {
    && |walk| >= 2
    && walk[0] == walk[|walk| - 1]
    && forall i :: 0 <= i < |walk| - 1 ==> (walk[i], walk[i + 1]) in edges
  }

  /** The edges close a directed cycle (a self-loop is one). */
  ghost predicate HasCycle<T(!new)>(edges: set<(T, T)>)
  {
    exists walk :: IsCycle(edges, walk)
  }

  predicate Within<T>(walk: seq<T>, s: set<T>)
  {
    forall i :: 0 <= i < |walk| ==> walk[i] in s
  }

  /** No edge reaches n from a node of rest. */
  predicate NoIncoming<T>(edges: set<(T, T)>, rest: set<T>, n: T)
  {
    forall m :: m in rest ==> (m, n) !in edges
  }

  /** Every node of a cycle is the source of one of its edges. */
  lemma CyclesWithinNodes<T>(edges: set<(T, T)>, nodes: set<T>)
    requires forall e :: e in edges ==> e.0 in nodes && e.1 in nodes
    ensures forall w :: IsCycle(edges, w) ==> Within(w, nodes)
  {
    forall w | IsCycle(edges, w) ensures Within(w, nodes) {
      forall i | 0 <= i < |w| ensures w[i] in nodes {
        var j := if i == |w| - 1 then 0 else i;
        assert (w[j], w[j + 1]) in edges;
      }
    }
  }

  /** A node without incoming edges from rest lies on no cycle through rest. */
  lemma SourceOffCycles<T>(edges: set<(T, T)>, rest: set<T>, n: T)
    requires n in rest && NoIncoming(edges, rest, n)
    requires forall w :: IsCycle(edges, w) ==> Within(w, rest)
    ensures forall w :: IsCycle(edges, w) ==> Within(w, rest - {n})
  {
    forall w | IsCycle(edges, w) ensures Within(w, rest - {n}) {
      forall i | 0 <= i < |w| ensures w[i] != n {
        var j := if i == 0 then |w| - 2 else i - 1;
        assert (w[j], w[j + 1]) in edges && w[j + 1] == w[i] && w[j] in rest;
      }
    }
  }

  /** Following incoming edges back from n for k steps, never leaving a set in which every node has one. */
  lemma {:induction false} WalkBack<T>(edges: set<(T, T)>, rest: set<T>, n: T, k: nat) returns (w: seq<T>)
    requires n in rest
    requires forall m :: m in rest ==> !NoIncoming(edges, rest, m)
    ensures |w| == k + 1 && w[k] == n && Within(w, rest)
    ensures forall i :: 0 <= i < k ==> (w[i], w[i + 1]) in edges
  {
    if k == 0 {
      w := [n];
    } else {
      var v := WalkBack(edges, rest, n, k - 1);
      assert !NoIncoming(edges, rest, v[0]);
      var p :| p in rest && (p, v[0]) in edges;
      w := [p] + v;
      assert forall i :: 1 <= i < k ==> w[i] == v[i - 1] && w[i + 1] == v[i];
    }
  }

  /** Pigeonhole: a walk longer than the set it stays in visits some node twice. */
  lemma {:induction false} Repeat<T>(w: seq<T>, s: set<T>) returns (i: nat, j: nat)
    requires Within(w, s) && |w| > |s|
    ensures i < j < |w| && w[i] == w[j]
    decreases |w|
  {
    if k :| 1 <= k < |w| && w[k] == w[0] {
      i, j := 0, k;
    } else {
      var rest := w[1..];
      assert Within(rest, s - {w[0]}) by {
        forall t | 0 <= t < |rest| ensures rest[t] in s - {w[0]} {
          assert rest[t] == w[t + 1];
        }
      }
      var a, b := Repeat(rest, s - {w[0]});
      i, j := a + 1, b + 1;
    }
  }

  /** When every node of a non-empty set has an incoming edge from the set, the edges close a cycle. */
  lemma StuckHasCycle<T(!new)>(edges: set<(T, T)>, rest: set<T>)
    requires rest != {}
    requires forall m :: m in rest ==> !NoIncoming(edges, rest, m)
    ensures HasCycle(edges)
  {
    var n :| n in rest;
    var w := WalkBack(edges, rest, n, |rest|);
    var i, j := Repeat(w, rest);
    var cycle := w[i..j + 1];
    forall t | 0 <= t < |cycle| - 1 ensures (cycle[t], cycle[t + 1]) in edges {
      assert cycle[t] == w[i + t] && cycle[t + 1] == w[i + t + 1];
    }
    assert IsCycle(edges, cycle);
  }

  // ---------------------------------------------------------------------------
  // The edges the component.yaml files declare.

  /** A list or a mapping cannot be a dict key: hashing it raises TypeError. */
  predicate Unhashable(key: Value)
  {
    key.List? || key.Dict?
  }

  /** What the enum's member dict raises for a key that is not in it. */
  function LookupFailure(key: Value): Exception
  {
    match key
    case List(_) => TypeError("unhashable type: 'list'")
    case Dict(_) => TypeError("unhashable type: 'dict'")
    case _ => KeyError(ToStr(key))
  }

  /**
   * The component enum's lookup by name, Component[key], a lookup in the enum's member dict:
   * TypeError for a list or mapping, KeyError for any other value that names no component.
   */
  function Member(components: seq<string>, key: Value): (r: Result<string>)
    ensures r.Ok? <==> key.Str? && key.s in components
    ensures r.Ok? ==> r.value == key.s
    ensures r.Raise? && key.List? ==> r.error == TypeError("unhashable type: 'list'")
    ensures r.Raise? && key.Dict? ==> r.error == TypeError("unhashable type: 'dict'")
    ensures r.Raise? && !Unhashable(key) ==> r.error == KeyError(ToStr(key))
  {
    if key.Str? && key.s in components then Ok(key.s) else Raise(LookupFailure(key))
  }

  predicate Names(components: seq<string>, key: Value)
  {
    key.Str? && key.s in components
  }

  /** The generator over the dependencies: each looked up in turn, the first unknown one raising. */
  function Members(components: seq<string>, items: seq<Value>): (r: Result<seq<string>>)
    ensures r.Ok? <==> forall i :: 0 <= i < |items| ==> Names(components, items[i])
    ensures r.Ok? ==> |r.value| == |items| && forall i :: 0 <= i < |items| ==> r.value[i] == items[i].s
    decreases |items|
  {
    if items == [] then Ok([])
    else
      var init := items[..|items| - 1];
      match Members(components, init)
      case Raise(e) => Raise(e)
      case Ok(names) =>
        match Member(components, items[|items| - 1])
        case Raise(e) => Raise(e)
        case Ok(name) => Ok(names + [name])
  }

  /** The first dependency that is no component decides the error: TypeError for a list or mapping, else a KeyError naming it. */
  lemma {:induction false} MembersFirstUnknown(components: seq<string>, items: seq<Value>, j: nat)
    requires j < |items| && !Names(components, items[j])
    requires forall i :: 0 <= i < j ==> Names(components, items[i])
    ensures items[j].List? ==> Members(components, items) == Raise(TypeError("unhashable type: 'list'"))
    ensures items[j].Dict? ==> Members(components, items) == Raise(TypeError("unhashable type: 'dict'"))
    ensures !Unhashable(items[j]) ==> Members(components, items) == Raise(KeyError(ToStr(items[j])))
    decreases |items|
  {
    var init := items[..|items| - 1];
    if j < |items| - 1 {
      MembersFirstUnknown(components, init, j);
    } else {
      assert forall i :: 0 <= i < |init| ==> Names(components, init[i]) by {
        forall i | 0 <= i < |init| ensures Names(components, init[i]) {
          assert init[i] == items[i];
        }
      }
    }
  }

  /** `component_yaml.get("dependencies", [])`, iterated, each item looked up in the component enum. */
  function DependencyNames(doc: Value, components: seq<string>): (r: Result<seq<string>>)
  {
    if !doc.Dict? then Raise(AttributeError("object has no attribute 'get'"))
    else
      var deps := if "dependencies" in doc.fields then doc.fields["dependencies"] else List([]);
      match Iterate(deps)
      case Raise(e) => Raise(e)
      case Ok(items) => Members(components, items)
  }

  /** The dependencies one component declares, read through get_component_config. */
  function ComponentDependencies(components: seq<string>, files: map<string, YamlFile>, c: string): Result<seq<string>>
  {
    match GetComponentConfig(YamlAt(files, c))
    case Raise(e) => Raise(e)
    case Ok(doc) => DependencyNames(doc, components)
  }

  /** The edges of the first n components, dependency to dependent; the first component whose file or list is bad raises. */
  function EdgesUpTo(components: seq<string>, files: map<string, YamlFile>, n: nat): Result<set<(string, string)>>
    requires n <= |components|
  {
    if n == 0 then Ok({})
    else
      match EdgesUpTo(components, files, n - 1)
      case Raise(e) => Raise(e)
      case Ok(edges) =>
        var c := components[n - 1];
        match ComponentDependencies(components, files, c)
        case Raise(e) => Raise(e)
        case Ok(names) => Ok(edges + set d | d in names :: (d, c))
  }

  /** The edges exist exactly when no component's file or dependency list raises. */
  lemma {:induction false} EdgesUpToOk(components: seq<string>, files: map<string, YamlFile>, n: nat)
    requires n <= |components|
    ensures EdgesUpTo(components, files, n).Ok? <==> forall i :: 0 <= i < n ==> ComponentDependencies(components, files, components[i]).Ok?
  {
    if n > 0 {
      EdgesUpToOk(components, files, n - 1);
    }
  }

  /** The edges are exactly one edge d -> c for every dependency d that one of the components c declares. */
  lemma {:induction false} EdgesUpToContents(components: seq<string>, files: map<string, YamlFile>, n: nat, d: string, c: string)
    requires n <= |components| && EdgesUpTo(components, files, n).Ok?
    ensures (d, c) in EdgesUpTo(components, files, n).value <==>
              exists i :: 0 <= i < n && components[i] == c && ComponentDependencies(components, files, c).Ok? && d in ComponentDependencies(components, files, c).value
  {
    if n > 0 {
      EdgesUpToContents(components, files, n - 1, d, c);
    }
  }

  /** Every edge joins two discovered components. */
  lemma {:induction false} EdgesJoinComponents(components: seq<string>, files: map<string, YamlFile>, n: nat)
    requires n <= |components| && EdgesUpTo(components, files, n).Ok?
    ensures forall e :: e in EdgesUpTo(components, files, n).value ==> e.0 in components && e.1 in components
  {
    if n > 0 {
      EdgesJoinComponents(components, files, n - 1);
      DependenciesAreComponents(components, files, components[n - 1]);
    }
  }

  /** A component whose component.yaml has no dependencies key contributes no edge. */
  lemma NoDependenciesKey(components: seq<string>, files: map<string, YamlFile>, c: string)
    requires var f := YamlAt(files, c); f.Missing? || (f.Parsed? && f.doc.Dict? && "dependencies" !in f.doc.fields)
    ensures ComponentDependencies(components, files, c) == Ok([])
  {
  }

  /** A component.yaml whose document is no mapping (an empty file loads as None) has no `.get`: AttributeError. */
  lemma NonMappingDocument(components: seq<string>, files: map<string, YamlFile>, c: string)
    requires YamlAt(files, c).Parsed? && !YamlAt(files, c).doc.Dict?
    ensures ComponentDependencies(components, files, c) == Raise(AttributeError("object has no attribute 'get'"))
  {
  }

  /** A `dependencies` value that is a bool, an int or null (an empty `dependencies:`) cannot be iterated: TypeError. */
  lemma UniterableDependencies(components: seq<string>, files: map<string, YamlFile>, c: string, deps: Value)
    requires var f := YamlAt(files, c); f.Parsed? && f.doc.Dict? && "dependencies" in f.doc.fields && f.doc.fields["dependencies"] == deps
    requires deps.Bool? || deps.Int? || deps.Null?
    ensures deps.Null? ==> ComponentDependencies(components, files, c) == Raise(TypeError("'NoneType' object is not iterable"))
    ensures deps.Int? ==> ComponentDependencies(components, files, c) == Raise(TypeError("'int' object is not iterable"))
    ensures deps.Bool? ==> ComponentDependencies(components, files, c) == Raise(TypeError("'bool' object is not iterable"))
  {
  }

  /**
   * A dependency that is no discovered component raises, unless an earlier one already has:
   * TypeError when it is a list or mapping, KeyError otherwise.
   */
  lemma UnknownDependency(components: seq<string>, files: map<string, YamlFile>, c: string, items: seq<Value>, j: nat)
    requires var f := YamlAt(files, c); f.Parsed? && f.doc.Dict? && "dependencies" in f.doc.fields && f.doc.fields["dependencies"] == List(items)
    requires j < |items| && !Names(components, items[j])
    requires forall i :: 0 <= i < j ==> Names(components, items[i])
    ensures items[j].List? ==> ComponentDependencies(components, files, c) == Raise(TypeError("unhashable type: 'list'"))
    ensures items[j].Dict? ==> ComponentDependencies(components, files, c) == Raise(TypeError("unhashable type: 'dict'"))
    ensures !Unhashable(items[j]) ==> ComponentDependencies(components, files, c) == Raise(KeyError(ToStr(items[j])))
  {
    MembersFirstUnknown(components, items, j);
  }

  // ---------------------------------------------------------------------------
  // The graph and get_component_graph.

  const CycleError: Exception := RuntimeError("Cycles found in component dependency graph")

  /** networkx.DiGraph: a node set and an edge set, every edge joining nodes. */
  class DiGraph {
    var nodes: set<string>
    var edges: set<(string, string)>

    ghost predicate Valid()
      reads this
    {
      forall e :: e in edges ==> e.0 in nodes && e.1 in nodes
    }

    constructor()
      ensures nodes == {} && edges == {} && Valid()
    {
      nodes := {};
      edges := {};
    }

    method AddNodesFrom(ns: seq<string>)
      requires Valid()
      modifies this
      ensures nodes == old(nodes) + set n | n in ns
      ensures edges == old(edges) && Valid()
    {
      nodes := nodes + set n | n in ns;
    }

    /** add_edges_from: the edges are added, and so are their endpoints. */
    method AddEdgesFrom(es: set<(string, string)>)
      requires Valid()
      modifies this
      ensures edges == old(edges) + es
      ensures nodes == old(nodes) + (set e | e in es :: e.0) + (set e | e in es :: e.1)
      ensures Valid()
    {
      nodes := nodes + (set e | e in es :: e.0) + (set e | e in es :: e.1);
      edges := edges + es;
    }

    /** Whether the graph holds a directed cycle: sources are removed until none is left or every remaining node has an incoming edge. */
    method FindCycle() returns (found: bool)
      requires Valid()
      ensures found <==> HasCycle(edges)
    {
      var remaining := nodes;
      CyclesWithinNodes(edges, nodes);
      while remaining != {}
        invariant forall w :: IsCycle(edges, w) ==> Within(w, remaining)
        decreases |remaining|
      {
        if n :| n in remaining && NoIncoming(edges, remaining, n) {
          SourceOffCycles(edges, remaining, n);
          remaining := remaining - {n};
        } else {
          StuckHasCycle(edges, remaining);
          return true;
        }
      }
      return false;
    }
  }

  /** The loop of get_component_graph: the edges each component declares, added component by component. */
  method AddDeclaredEdges(graph: DiGraph, components: seq<string>, files: map<string, YamlFile>) returns (error: Option<Exception>)
    requires graph.nodes == (set c | c in components) && graph.edges == {}
    modifies graph
    ensures var edges := EdgesUpTo(components, files, |components|);
            && (edges.Raise? ==> error == Some(edges.error))
            && (edges.Ok? ==> error.None? && graph.edges == edges.value)
    ensures graph.nodes == (set c | c in components) && graph.Valid()
  {
    var i := 0;
    while i < |components|
      invariant 0 <= i <= |components|
      invariant graph.nodes == set c | c in components
      invariant EdgesUpTo(components, files, i) == Ok(graph.edges) && graph.Valid()
    {
      var c := components[i];
      var deps := ComponentDependencies(components, files, c);
      if deps.Raise? {
        EdgesUpToRaises(components, files, i + 1, |components|);
        return Some(deps.error);
      }
      var added := set d | d in deps.value :: (d, c);
      EdgesUpToStep(components, files, i);
      graph.AddEdgesFrom(added);
      i := i + 1;
    }
    return None;
  }

  /** get_component_graph: every component a node, the declared edges added, then the cycle check. */
  method GetComponentGraph(components: seq<string>, files: map<string, YamlFile>) returns (r: Result<DiGraph>)
    ensures var edges := EdgesUpTo(components, files, |components|);
            && (edges.Raise? ==> r == Raise(edges.error))
            && (edges.Ok? && HasCycle(edges.value) ==> r == Raise(CycleError))
            && (edges.Ok? && !HasCycle(edges.value) ==>
                  r.Ok? && r.value.nodes == (set c | c in components) && r.value.edges == edges.value)
  {
    var graph := new DiGraph();
    graph.AddNodesFrom(components);
    var error := AddDeclaredEdges(graph, components, files);
    if error.Some? {
      return Raise(error.value);
    }
    var found := graph.FindCycle();
    if found {
      return Raise(CycleError);
    }
    return Ok(graph);
  }

  /** The edges of one more component, as the loop adds them: its dependencies paired with it, all of them components. */
  lemma EdgesUpToStep(components: seq<string>, files: map<string, YamlFile>, i: nat)
    requires i < |components| && EdgesUpTo(components, files, i).Ok?
    requires ComponentDependencies(components, files, components[i]).Ok?
    ensures var added := set d | d in ComponentDependencies(components, files, components[i]).value :: (d, components[i]);
            && EdgesUpTo(components, files, i + 1) == Ok(EdgesUpTo(components, files, i).value + added)
            && forall e :: e in added ==> e.0 in components && e.1 in components
  {
    DependenciesAreComponents(components, files, components[i]);
  }

  /** The dependencies a component declares are all components: any other name has raised. */
  lemma DependenciesAreComponents(components: seq<string>, files: map<string, YamlFile>, c: string)
    ensures var deps := ComponentDependencies(components, files, c);
            deps.Ok? ==> forall d :: d in deps.value ==> d in components
  {
    var deps := ComponentDependencies(components, files, c);
    if deps.Ok? {
      var doc := GetComponentConfig(YamlAt(files, c)).value;
      var items := Iterate(if "dependencies" in doc.fields then doc.fields["dependencies"] else List([])).value;
      assert forall k :: 0 <= k < |deps.value| ==> Names(components, items[k]);
    }
  }

  /** Once the edges of a prefix raise, so do the edges of every longer prefix, with the same error. */
  lemma {:induction false} EdgesUpToRaises(components: seq<string>, files: map<string, YamlFile>, n: nat, m: nat)
    requires n <= m <= |components| && EdgesUpTo(components, files, n).Raise?
    ensures EdgesUpTo(components, files, m) == EdgesUpTo(components, files, n)
    decreases m - n
  {
    if n < m {
      EdgesUpToRaises(components, files, n, m - 1);
    }
  }
}

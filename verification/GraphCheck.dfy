/** The field check of UnmarshalYAML (internal/prewarm/config_yaml.go) on a graph
    of YAML nodes, which aliases may make cyclic. */
module GraphCheck {
  import opened Base

  /** A node by its kind. A mapping lists its keys with their value nodes; a
      missing node is the nil pointer. Other is every kind that is not allowed. */
  datatype Node =
    | Alias(target: Option<nat>)
    | Sequence(children: seq<Option<nat>>)
    | Mapping(fields: seq<Field>)
    | Other

  datatype Field = Field(key: string, value: Option<nat>)

  type Graph = map<nat, Node>

  predicate Known(key: string) {
    key in {"enabled", "models", "max_probes_per_hour", "proxies", "accounts", "proxy_file", "host_config_file",
            "workers", "max_attempts", "attempt_interval_seconds", "cooldown_seconds", "ttl_seconds",
            "refresh_before_seconds", "probe_timeout_seconds", "max_pending"}
  }

  const MERGE := "<<"

  // ---- What the check is to decide ---------------------------------------

  /** The nodes that a node refers to: the target of an alias, the elements of a
      sequence, and the values of a mapping's merge keys. */
  ghost predicate Edge(n: Node, m: Option<nat>) {
    match n
    case Alias(target) => m == target
    case Sequence(children) => m in children
    case Mapping(fields) => exists f <- fields :: f.key == MERGE && f.value == m
    case Other => false
  }

  /** The pointers lead into the graph. */
  ghost predicate Closed(g: Graph) {
    forall n, m: Option<nat> | n in g && Edge(g[n], m) && m.Some? :: m.value in g
  }

  /** A node that is there, of an allowed kind, and without unknown fields. */
  predicate Sound(g: Graph, n: Option<nat>) {
    && n.Some? && n.value in g
    && !g[n.value].Other?
    && (g[n.value].Mapping? ==> forall f <- g[n.value].fields :: f.key == MERGE || Known(f.key))
  }

  ghost predicate Step(g: Graph, n: Option<nat>, m: Option<nat>) {
    n.Some? && n.value in g && Edge(g[n.value], m)
  }

  ghost predicate IsPath(g: Graph, path: seq<Option<nat>>) {
    path != [] && forall i | 0 <= i < |path| - 1 :: Step(g, path[i], path[i + 1])
  }

  ghost predicate Reaches(g: Graph, n: Option<nat>, m: Option<nat>) {
    exists path :: IsPath(g, path) && path[0] == n && path[|path| - 1] == m
  }

  ghost predicate AllSound(g: Graph, root: Option<nat>) {
    forall m | Reaches(g, root, m) :: Sound(g, m)
  }

  // ---- The traversal -----------------------------------------------------

  /** The node and what it refers to have been dealt with. */
  ghost predicate Settled(g: Graph, seen: set<nat>, n: nat) {
    Sound(g, Some(n)) && forall m | Edge(g[n], m) :: m.Some? && m.value in seen
  }

  lemma SettledMore(g: Graph, seen: set<nat>, more: set<nat>, n: nat)
    requires Settled(g, seen, n) && seen <= more
    ensures Settled(g, more, n)
  {
  }

  lemma ReachesSelf(g: Graph, n: Option<nat>)
    ensures Reaches(g, n, n)
  {
    assert IsPath(g, [n]);
  }

  lemma ReachesBefore(g: Graph, n: Option<nat>, m: Option<nat>, x: Option<nat>)
    requires Step(g, n, m) && Reaches(g, m, x)
    ensures Reaches(g, n, x)
  {
    var path :| IsPath(g, path) && path[0] == m && path[|path| - 1] == x;
    var longer := [n] + path;
    forall i | 0 <= i < |longer| - 1
      ensures Step(g, longer[i], longer[i + 1])
    {
      if i > 0 {
        assert Step(g, path[i - 1], path[i]);
      }
    }
    assert IsPath(g, longer) && longer[|longer| - 1] == x;
  }

  /** What a reference reaches, the node reaches. */
  lemma UnsoundThrough(g: Graph, n: Option<nat>, m: Option<nat>)
    requires Step(g, n, m) && !AllSound(g, m)
    ensures !AllSound(g, n)
  {
    var x :| Reaches(g, m, x) && !Sound(g, x);
    ReachesBefore(g, n, m, x);
  }

  lemma UnsoundSelf(g: Graph, n: Option<nat>)
    requires !Sound(g, n)
    ensures !AllSound(g, n)
  {
    ReachesSelf(g, n);
  }

  /** A path cannot leave a set of settled nodes. */
  lemma {:induction false} SettledPath(g: Graph, seen: set<nat>, path: seq<Option<nat>>)
    requires forall n | n in seen :: Settled(g, seen, n)
    requires IsPath(g, path) && path[0].Some? && path[0].value in seen
    ensures path[|path| - 1].Some? && path[|path| - 1].value in seen
  {
    if |path| > 1 {
      var front := path[..|path| - 1];
      forall i | 0 <= i < |front| - 1
        ensures Step(g, front[i], front[i + 1])
      {
        assert Step(g, path[i], path[i + 1]);
      }
      SettledPath(g, seen, front);
      assert Step(g, path[|path| - 2], path[|path| - 1]);
    }
  }

  lemma SettledIsAllSound(g: Graph, seen: set<nat>, root: nat)
    requires root in seen && forall n | n in seen :: Settled(g, seen, n)
    ensures AllSound(g, Some(root))
  {
    forall m | Reaches(g, Some(root), m)
      ensures Sound(g, m)
    {
      var path :| IsPath(g, path) && path[0] == Some(root) && path[|path| - 1] == m;
      SettledPath(g, seen, path);
      assert Settled(g, seen, m.value);
    }
  }

  /** Nodes seen since `before` are settled, except those in `open`. */
  ghost predicate Progress(g: Graph, before: set<nat>, seen: set<nat>, open: set<nat>) {
    before <= seen <= g.Keys && forall n | n in seen && n !in before && n !in open :: Settled(g, seen, n)
  }

  lemma ProgressOn(g: Graph, before: set<nat>, mid: set<nat>, after: set<nat>, open: set<nat>)
    requires Progress(g, before, mid, open) && Progress(g, mid, after, {})
    ensures Progress(g, before, after, open)
  {
    forall n | n in after && n !in before && n !in open
      ensures Settled(g, after, n)
    {
      if n in mid {
        SettledMore(g, mid, after, n);
      }
    }
  }

  lemma ProgressDone(g: Graph, before: set<nat>, seen: set<nat>, n: nat)
    requires Progress(g, before, seen, {n}) && Settled(g, seen, n)
    ensures Progress(g, before, seen, {})
  {
  }

  predicate AllSeen(seen: set<nat>, nodes: seq<Option<nat>>) {
    forall m <- nodes :: m.Some? && m.value in seen
  }

  predicate FieldsFine(seen: set<nat>, fields: seq<Field>) {
    forall f <- fields :: if f.key == MERGE then f.value.Some? && f.value.value in seen else Known(f.key)
  }

  class Checker {
    const graph: Graph
    var seen: set<nat>

    constructor (graph: Graph)
      ensures this.graph == graph && seen == {}
    {
      this.graph, seen := graph, {};
    }

    /** False when the source returns an error. */
    method Check(n: Option<nat>) returns (ok: bool)
      requires Closed(graph) && (n.Some? ==> n.value in graph) && seen <= graph.Keys
      modifies this`seen
      ensures old(seen) <= seen <= graph.Keys
      ensures ok ==> n.Some? && n.value in seen && Progress(graph, old(seen), seen, {})
      ensures !ok ==> !AllSound(graph, n)
      decreases graph.Keys - seen, 1
    {
      if n.None? {
        UnsoundSelf(graph, n);
        return false;
      }
      if n.value in seen {
        return true;
      }
      ghost var before := seen;
      seen := seen + {n.value};
      match graph[n.value] {
        case Alias(target) =>
          assert Step(graph, n, target);
          ok := Check(target);
          if ok {
            ProgressOn(graph, before, before + {n.value}, seen, {n.value});
            ProgressDone(graph, before, seen, n.value);
          } else {
            UnsoundThrough(graph, n, target);
          }
        case Sequence(children) =>
          ok := CheckAll(n.value, before, children);
          if ok {
            ProgressDone(graph, before, seen, n.value);
          }
        case Mapping(fields) =>
          ok := CheckFields(n.value, before, fields);
          if ok {
            ProgressDone(graph, before, seen, n.value);
          }
        case Other =>
          UnsoundSelf(graph, n);
          ok := false;
      }
    }

    /** The recursive call on one reference of a node whose turn it is. */
    method Follow(n: nat, ghost before: set<nat>, m: Option<nat>) returns (ok: bool)
      requires Closed(graph) && Step(graph, Some(n), m) && Progress(graph, before, seen, {n})
      modifies this`seen
      ensures old(seen) <= seen <= graph.Keys
      ensures ok ==> m.Some? && m.value in seen && Progress(graph, before, seen, {n})
      ensures !ok ==> !AllSound(graph, Some(n))
      decreases graph.Keys - seen, 2
    {
      ok := Check(m);
      if ok {
        ProgressOn(graph, before, old(seen), seen, {n});
      } else {
        UnsoundThrough(graph, Some(n), m);
      }
    }

    /** The loop over the elements of a sequence. */
    method CheckAll(n: nat, ghost before: set<nat>, children: seq<Option<nat>>) returns (ok: bool)
      requires Closed(graph) && n in graph && graph[n] == Sequence(children)
      requires n in seen && Progress(graph, before, seen, {n})
      modifies this`seen
      ensures old(seen) <= seen <= graph.Keys
      ensures ok ==> Progress(graph, before, seen, {n}) && Settled(graph, seen, n)
      ensures !ok ==> !AllSound(graph, Some(n))
      decreases graph.Keys - seen, 3
    {
      for i := 0 to |children|
        invariant old(seen) <= seen && Progress(graph, before, seen, {n})
        invariant AllSeen(seen, children[..i])
      {
        var fine := Follow(n, before, children[i]);
        if !fine {
          return false;
        }
        assert children[..i + 1] == children[..i] + [children[i]];
      }
      assert children[..|children|] == children;
      return true;
    }

    /** The loop over the keys of a mapping. */
    method CheckFields(n: nat, ghost before: set<nat>, fields: seq<Field>) returns (ok: bool)
      requires Closed(graph) && n in graph && graph[n] == Mapping(fields)
      requires n in seen && Progress(graph, before, seen, {n})
      modifies this`seen
      ensures old(seen) <= seen <= graph.Keys
      ensures ok ==> Progress(graph, before, seen, {n}) && Settled(graph, seen, n)
      ensures !ok ==> !AllSound(graph, Some(n))
      decreases graph.Keys - seen, 3
    {
      for i := 0 to |fields|
        invariant old(seen) <= seen && Progress(graph, before, seen, {n})
        invariant FieldsFine(seen, fields[..i])
      {
        var f := fields[i];
        assert fields[..i + 1] == fields[..i] + [f];
        if f.key == MERGE {
          var fine := Follow(n, before, f.value);
          if !fine {
            return false;
          }
        } else if !Known(f.key) {
          UnsoundSelf(graph, Some(n));
          return false;
        }
      }
      assert fields[..|fields|] == fields;
      return true;
    }
  }

  datatype Outcome<T> = Decoded(value: T) | Rejected

  /** UnmarshalYAML: the check from the root, whose kind must be right, and then
      the decoding of the values, whose result is `decoded`. It succeeds exactly
      when the root is a mapping or an alias, everything reachable from it is
      sound, and the values decode. */
  method UnmarshalYAML<T>(graph: Graph, root: nat, decoded: Option<T>) returns (r: Outcome<T>)
    requires Closed(graph) && root in graph
    ensures r.Decoded? <==> (graph[root].Mapping? || graph[root].Alias?) && AllSound(graph, Some(root)) && decoded.Some?
    ensures r.Decoded? ==> decoded == Some(r.value)
  {
    if !graph[root].Mapping? && !graph[root].Alias? {
      return Rejected;
    }
    var checker := new Checker(graph);
    var ok := checker.Check(Some(root));
    if !ok {
      return Rejected;
    }
    SettledIsAllSound(graph, checker.seen, root);
    if decoded.None? {
      return Rejected;
    }
    return Decoded(decoded.value);
  }
}

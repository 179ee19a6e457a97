/**
 * The topology graph and its construction (constellation_engine/core/graph.py).
 * networkx's DiGraph is replaced by a node set and a map from ordered
 * (src, dst) pairs to the edge's attributes; a directed graph keeps at most
 * one edge per pair.
 */
module Graph {
  import opened Wrappers
  import opened CoreTypes
  import opened Validate

  /** The attributes the engine reads from an edge. */
  datatype EdgeAttrs = EdgeAttrs(depType: DependencyType, callType: CallType)

  /** A directed graph: an edge (d, t) says that service d depends on t. */
  datatype DiGraph = DiGraph(nodes: set<ServiceId>, edges: map<(ServiceId, ServiceId), EdgeAttrs>)

  /** Every edge endpoint is a node (networkx adds missing endpoints itself). */
  predicate Closed(g: DiGraph) {
    forall e :: e in g.edges ==> e.0 in g.nodes && e.1 in g.nodes
  }

  /** No edge leads from a node to itself. */
  predicate NoSelfLoops(g: DiGraph) {
    forall e :: e in g.edges ==> e.0 != e.1
  }

  /** The dependers of `v`: the sources of the edges whose destination is `v`. */
  function InEdges(g: DiGraph, v: ServiceId): (dependers: set<ServiceId>)
    ensures forall d :: d in dependers <==> (d, v) in g.edges
  {
    set e | e in g.edges && e.1 == v :: e.0
  }

  /** The node set a list of services yields. */
  function NodeSet(services: seq<Service>): (nodes: set<ServiceId>) {
    set s | s in services :: s.id
  }

  /** The attributes a dependency puts on its edge. */
  function AttrsOf(d: Dependency): (attrs: EdgeAttrs) {
    EdgeAttrs(d.depType, d.callType)
  }

  /**
   * The edge map a list of dependencies yields when added in order: a
   * repeated (src, dst) pair has its attributes overwritten.
   */
  function EdgeMap(deps: seq<Dependency>): (edges: map<(ServiceId, ServiceId), EdgeAttrs>)
    decreases |deps|
  {
    if |deps| == 0 then map[]
    else
      var d := deps[|deps| - 1];
      EdgeMap(deps[..|deps| - 1])[(d.src, d.dst) := AttrsOf(d)]
  }

  /** The edges are exactly the (src, dst) pairs of the dependencies. */
  lemma {:induction false} EdgeMapKeys(deps: seq<Dependency>)
    ensures EdgeMap(deps).Keys == set d | d in deps :: (d.src, d.dst)
    decreases |deps|
  {
    if |deps| > 0 {
      var init, last := deps[..|deps| - 1], deps[|deps| - 1];
      assert deps == init + [last];
      EdgeMapKeys(init);
    }
  }

  /** Each edge carries the attributes of the last dependency with its pair. */
  lemma {:induction false} EdgeMapLastWins(deps: seq<Dependency>, i: nat)
    requires i < |deps|
    requires forall j :: i < j < |deps| ==> (deps[j].src, deps[j].dst) != (deps[i].src, deps[i].dst)
    ensures (deps[i].src, deps[i].dst) in EdgeMap(deps)
    ensures EdgeMap(deps)[(deps[i].src, deps[i].dst)] == AttrsOf(deps[i])
    decreases |deps|
  {
    if i < |deps| - 1 {
      EdgeMapLastWins(deps[..|deps| - 1], i);
    }
  }

  /** The graph `build_graph` returns for a batch that passed validation. */
  function Built(services: seq<Service>, deps: seq<Dependency>): (g: DiGraph) {
    DiGraph(NodeSet(services), EdgeMap(deps))
  }

  /**
   * A batch that passes validation with self-dependencies disallowed yields
   * a graph whose edge endpoints are nodes and which has no self-loops.
   */
  lemma BuiltGraphWellFormed(services: seq<Service>, deps: seq<Dependency>)
    requires ValidModel(services, deps, false)
    ensures Closed(Built(services, deps)) && NoSelfLoops(Built(services, deps))
  {
    EdgeMapKeys(deps);
    var g := Built(services, deps);
    forall e | e in g.edges ensures e.0 in g.nodes && e.1 in g.nodes && e.0 != e.1 {
      var d :| d in deps && e == (d.src, d.dst);
      var s :| s in services && s.id == d.src;
      var t :| t in services && t.id == d.dst;
    }
  }

  /**
   * `build_graph`: validates with self-dependencies disallowed, raising
   * before anything is built; then adds every service as a node and every
   * dependency as an edge.
   */
  method BuildGraph(services: seq<Service>, deps: seq<Dependency>)
    returns (r: Result<DiGraph, seq<ValidationError>>)
    ensures r.Err? <==> !ValidModel(services, deps, false)
    ensures r.Err? ==> r.error == ModelErrors(services, deps, false)
    ensures r.Ok? ==> r.value == Built(services, deps)
    ensures r.Ok? ==> Closed(r.value) && NoSelfLoops(r.value)
  {
    var checked := ValidateOrRaise(services, deps);
    if checked.Err? {
      return Err(checked.error);
    }

    var nodes: set<ServiceId> := {};
    for i := 0 to |services|
      invariant nodes == NodeSet(services[..i])
    {
      assert services[..i + 1] == services[..i] + [services[i]];
      nodes := nodes + {services[i].id};
    }
    assert services[..|services|] == services;

    var edges: map<(ServiceId, ServiceId), EdgeAttrs> := map[];
    for i := 0 to |deps|
      invariant edges == EdgeMap(deps[..i])
    {
      var d := deps[i];
      assert deps[..i + 1][..i] == deps[..i];
      edges := edges[(d.src, d.dst) := EdgeAttrs(d.depType, d.callType)];
    }
    assert deps[..|deps|] == deps;

    BuiltGraphWellFormed(services, deps);
    return Ok(DiGraph(nodes, edges));
  }
}

/**
 * The repository's test scenarios (tests/test_graph_build.py,
 * tests/test_failure_propagation.py, tests/test_criticality.py) as lemmas
 * about the specification and as client methods of the operations.
 */
module Scenarios {
  import opened Wrappers
  import opened CoreTypes
  import opened SimModels
  import opened Validate
  import opened Graph
  import opened Propagate
  import opened Criticality

  /** Three services: api, auth, db. */
  function ChainServices(): (services: seq<Service>) {
    [Service("api"), Service("auth"), Service("db")]
  }

  /** api depends on auth, auth on db, both with the default HARD/SYNC kinds. */
  function ChainDeps(): (deps: seq<Dependency>) {
    [Dependency("api", "auth"), Dependency("auth", "db")]
  }

  /** The same chain with auth -> db marked SOFT and ASYNC. */
  function TypedChainDeps(): (deps: seq<Dependency>) {
    [Dependency("api", "auth", Hard, Sync), Dependency("auth", "db", Soft, Async)]
  }

  /** Three services: a, b, c. */
  function SharedServices(): (services: seq<Service>) {
    [Service("a"), Service("b"), Service("c")]
  }

  /** a and b each depend on c. */
  function SharedDeps(): (deps: seq<Dependency>) {
    [Dependency("a", "c"), Dependency("b", "c")]
  }

  /** The graph the default-kind chain builds. */
  function ChainTopology(): (g: DiGraph) {
    DiGraph({"api", "auth", "db"},
            map[("api", "auth") := EdgeAttrs(Hard, Sync), ("auth", "db") := EdgeAttrs(Hard, Sync)])
  }

  /** The graph the typed chain builds. */
  function TypedChainTopology(): (g: DiGraph) {
    DiGraph({"api", "auth", "db"},
            map[("api", "auth") := EdgeAttrs(Hard, Sync), ("auth", "db") := EdgeAttrs(Soft, Async)])
  }

  /** The graph the shared-dependency batch builds. */
  function SharedTopology(): (g: DiGraph) {
    DiGraph({"a", "b", "c"}, map[("a", "c") := EdgeAttrs(Hard, Sync), ("b", "c") := EdgeAttrs(Hard, Sync)])
  }

  /** Both chains pass validation: api, auth and db are distinct and are the only endpoints. */
  lemma ChainValid(d: seq<Dependency>)
    requires |d| == 2 && d[0].src == "api" && d[0].dst == "auth" && d[1].src == "auth" && d[1].dst == "db"
    ensures ValidModel(ChainServices(), d, false)
  {
    var s := ChainServices();
    assert s[0].id == "api" && s[1].id == "auth" && s[2].id == "db";
    assert UniqueIds(s);
    assert s[0] in s && s[1] in s && s[2] in s;
  }

  /** The typed chain builds a graph of 3 nodes and 2 edges with the attributes preserved. */
  lemma TypedChainGraph()
    ensures ValidModel(ChainServices(), TypedChainDeps(), false)
    ensures Built(ChainServices(), TypedChainDeps()) == TypedChainTopology()
    ensures |Built(ChainServices(), TypedChainDeps()).nodes| == 3
    ensures |Built(ChainServices(), TypedChainDeps()).edges| == 2
  {
    var s, d := ChainServices(), TypedChainDeps();
    ChainValid(d);
    assert NodeSet(s) == {"api", "auth", "db"};
    assert d[..1] == [d[0]];
    assert EdgeMap(d) == map[("api", "auth") := EdgeAttrs(Hard, Sync), ("auth", "db") := EdgeAttrs(Soft, Async)];
  }

  /** The default-kind chain is valid and builds the chain topology. */
  lemma ChainGraph()
    ensures ValidModel(ChainServices(), ChainDeps(), false)
    ensures Built(ChainServices(), ChainDeps()) == ChainTopology()
  {
    var s, d := ChainServices(), ChainDeps();
    ChainValid(d);
    assert NodeSet(s) == {"api", "auth", "db"};
    assert d[..1] == [d[0]];
    assert EdgeMap(d) == map[("api", "auth") := EdgeAttrs(Hard, Sync), ("auth", "db") := EdgeAttrs(Hard, Sync)];
  }

  /** The shared-dependency batch is valid and builds its topology. */
  lemma SharedGraph()
    ensures ValidModel(SharedServices(), SharedDeps(), false)
    ensures Built(SharedServices(), SharedDeps()) == SharedTopology()
  {
    var s, d := SharedServices(), SharedDeps();
    assert s[0].id == "a" && s[1].id == "b" && s[2].id == "c";
    assert UniqueIds(s);
    assert s[0] in s && s[2] in s && s[1] in s;
    assert NodeSet(s) == {"a", "b", "c"};
    assert d[..1] == [d[0]];
    assert EdgeMap(d) == map[("a", "c") := EdgeAttrs(Hard, Sync), ("b", "c") := EdgeAttrs(Hard, Sync)];
  }

  /** db DOWN impacts the whole chain. */
  lemma ChainImpactedAtDb()
    ensures Impacted(ChainTopology(), Down, "db") == {"db", "auth", "api"}
  {
    var g := ChainTopology();
    ReachesSelf(g, Down, "db");
    ReachesStep(g, Down, "auth", "db", "db");
    ReachesStep(g, Down, "api", "auth", "db");
    ClosedSetContainsImpacted(g, Down, "db", {"db", "auth", "api"});
  }

  /** auth DOWN impacts auth and api, but never its own dependency db. */
  lemma ChainImpactedAtAuth()
    ensures Impacted(ChainTopology(), Down, "auth") == {"auth", "api"}
    ensures "db" !in Impacted(ChainTopology(), Down, "auth")
  {
    var g := ChainTopology();
    ReachesSelf(g, Down, "auth");
    ReachesStep(g, Down, "api", "auth", "auth");
    ClosedSetContainsImpacted(g, Down, "auth", {"auth", "api"});
  }

  /**
   * With auth -> db SOFT and ASYNC, neither DEGRADED nor LATENCY_UP at db
   * reaches auth, while DOWN still does.
   */
  lemma TypedChainImpacted()
    ensures Impacted(TypedChainTopology(), Degraded, "db") == {"db"}
    ensures Impacted(TypedChainTopology(), LatencyUp, "db") == {"db"}
    ensures "auth" in Impacted(TypedChainTopology(), Down, "db")
  {
    var g := TypedChainTopology();
    ReachesSelf(g, Degraded, "db");
    ClosedSetContainsImpacted(g, Degraded, "db", {"db"});
    ReachesSelf(g, LatencyUp, "db");
    ClosedSetContainsImpacted(g, LatencyUp, "db", {"db"});
    ReachesSelf(g, Down, "db");
    ReachesStep(g, Down, "auth", "db", "db");
  }

  /** c DOWN impacts {a, b, c}: its blast radius has size 3. */
  lemma SharedImpactedAtC()
    ensures Impacted(SharedTopology(), Down, "c") == {"a", "b", "c"}
    ensures |Impacted(SharedTopology(), Down, "c")| == 3
  {
    var g := SharedTopology();
    ReachesSelf(g, Down, "c");
    ReachesStep(g, Down, "a", "c", "c");
    ReachesStep(g, Down, "b", "c", "c");
    ClosedSetContainsImpacted(g, Down, "c", {"a", "b", "c"});
  }

  /** a and b have no dependers: each impacts only itself. */
  lemma SharedImpactedAtLeaf(x: ServiceId)
    requires x == "a" || x == "b"
    ensures Impacted(SharedTopology(), Down, x) == {x}
    ensures |Impacted(SharedTopology(), Down, x)| == 1
  {
    var g := SharedTopology();
    ReachesSelf(g, Down, x);
    ClosedSetContainsImpacted(g, Down, x, {x});
  }

  /** test_auth_down_impacts_api_not_db, through the operations themselves. */
  method AuthDownImpactsApiNotDb() returns (impacted: map<ServiceId, FailureType>)
    ensures impacted.Keys == {"auth", "api"}
    ensures impacted["auth"] == Down && impacted["api"] == Down
  {
    var r := BuildGraph(ChainServices(), ChainDeps());
    ChainGraph();
    var g := r.value;
    assert g == ChainTopology();
    ChainImpactedAtAuth();
    var result, _ := PropagateFailure(g, "auth", Down);
    impacted := result;
  }

  /** test_criticality_ranks_shared_dependency_highest, through the operations themselves. */
  method SharedDependencyCriticality() returns (scores: map<ServiceId, nat>)
    ensures scores.Keys == {"a", "b", "c"}
    ensures scores["c"] == 3 && scores["a"] == 1 && scores["b"] == 1
  {
    var r := BuildGraph(SharedServices(), SharedDeps());
    SharedGraph();
    var g := r.value;
    assert g == SharedTopology();
    scores := ComputeCriticality(g);
    SharedImpactedAtC();
    SharedImpactedAtLeaf("a");
    SharedImpactedAtLeaf("b");
  }
}

# constellation-engine: failure propagation and criticality, in Dafny

This project models the core of constellation-engine, a static analyser for
cascading-failure risk in a service topology. It covers:

- the typed records of the topology: services, dependencies, and the
  dependency-kind, call-kind and failure-kind enumerations with their wire
  strings;
- structural validation of a service/dependency batch: unique ids, existing
  edge endpoints, and no self-dependencies unless allowed;
- construction of the directed dependency graph from a validated batch;
- failure propagation: a breadth-first search from a start service against
  the direction of the dependency edges. It walks from a service to the
  services that depend on it, admitting an edge by the failure kind and
  the edge's dependency and call kinds;
- criticality: the size of every service's blast radius.

Layout, one module per source file:

| file | module | source |
|---|---|---|
| wrappers.dfy | Wrappers | Option/Result values for `None` and raised exceptions |
| types.dfy | CoreTypes | constellation_engine/core/types.py |
| models.dfy | SimModels | constellation_engine/sim/models.py |
| validate.dfy | Validate | constellation_engine/core/validate.py |
| graph.dfy | Graph | constellation_engine/core/graph.py |
| propagate.dfy | Propagate | constellation_engine/sim/propagate.py |
| criticality.dfy | Criticality | constellation_engine/sim/criticality.py |
| scenarios.dfy | Scenarios | tests/test_graph_build.py, tests/test_failure_propagation.py, tests/test_criticality.py |

How it is modelled:

- The networkx `DiGraph` becomes the value `DiGraph(nodes, edges)`. `nodes` is
  a set of service ids. `edges` maps an ordered `(src, dst)` pair to the
  edge's `EdgeAttrs(depType, callType)`. A directed graph keeps one edge per
  pair, and re-adding a pair overwrites its attributes, so a repeated pair
  ends with the last dependency's kinds (`Graph.EdgeMap`,
  `Graph.EdgeMapLastWins`). The graph is a value, so propagation and ranking
  cannot modify it.
- `in_edges(current)` becomes `Graph.InEdges`, the set of dependers `d`
  with an edge `(d, current)`. The traversal takes dependers from that set
  in an unspecified order (`:|`), so no result depends on enumeration order.
  Results are stated as sets and maps.
- The blast radius is specified by a ghost path predicate.
  `Propagate.Reaches(g, f, x, start)` holds when some non-empty sequence
  of nodes runs from `x` to `start` with every consecutive pair joined by an
  admitted edge (the one-node sequence `[start]` makes the start reach itself). `Propagate.Impacted` is the set
  of nodes that reach the start, the start included.
- `validate_model`, `build_graph`, `propagate_failure` and
  `compute_criticality` are methods with the source's loops. Each is proved
  against specification functions (`Validate.ModelErrors`, `Graph.Built`,
  `Propagate.Impacted`). What the source promises is proved as lemmas about
  those functions. Four loops or loop bodies are split into their own methods to keep
  each proof small: the duplicate scan (`CollectDuplicates`), the two error
  loops of `validate_model` (`AppendEndpointErrors`, `AppendSelfErrors`), and
  the `in_edges` loop of `propagate_failure` (`ExpandNode`, whose single
  iteration is `ConsiderDepender`).
- Errors are the datatype `ValidationError`: `DuplicateIds(set)`,
  `MissingSrc(id)`, `MissingDst(id)`, `SelfDependency(id)`. A raised
  `ValidationError` becomes `Err(errors)`.

The code is followed where other descriptions of it differ:

- The docstring of `propagate_failure` says a DOWN failure propagates
  through "outgoing edges". The code walks `in_edges`, from a service to
  its dependers, and so does the model.
- The source raises no error for a start that is not a node (networkx then
  iterates the string as a collection of nodes). The model makes
  `start in g.nodes` a precondition instead of raising an error the source
  does not raise.
- `_should_propagate` ends with a fall-through `return False`. The failure
  enumeration is closed, so that branch is unreachable. The model uses an
  exhaustive `match` with no such branch (`SimModels.FailureTypeExhaustive`).

## Model

| member | source | states |
|---|---|---|
| CoreTypes.ParseDependencyType | constellation_engine/core/types.py:10-14 | a parsed dependency kind has exactly the given wire value; a string is rejected exactly when no kind has it as its value |
| CoreTypes.DependencyTypeRoundTrip | constellation_engine/core/types.py:10-14 | parsing a dependency kind's wire value gives back that kind |
| CoreTypes.DependencyTypeValuesDistinct | constellation_engine/core/types.py:12-14 | "hard", "soft" and "optional" are pairwise distinct: two kinds share a value only when they are equal |
| CoreTypes.ParseCallType | constellation_engine/core/types.py:16-19 | a parsed call kind has exactly the given wire value; any other string is rejected |
| CoreTypes.CallTypeRoundTrip | constellation_engine/core/types.py:16-19 | parsing a call kind's wire value gives back that kind |
| CoreTypes.CallTypeValuesDistinct | constellation_engine/core/types.py:18-19 | "sync" and "async" are distinct |
| CoreTypes.RecordDefaults | constellation_engine/core/types.py:21-35 | a Service built from an id alone has no name and no metadata; a Dependency built without kinds is HARD and SYNC with no metadata |
| SimModels.ParseFailureType | constellation_engine/sim/models.py:5-8 | a parsed failure kind has exactly the given wire value; strings outside the three values are not failure kinds |
| SimModels.FailureTypeRoundTrip | constellation_engine/sim/models.py:5-8 | parsing a failure kind's wire value gives back that kind |
| SimModels.FailureTypeValuesDistinct | constellation_engine/sim/models.py:6-8 | "down", "degraded" and "latency_up" are pairwise distinct |
| SimModels.FailureTypeExhaustive | constellation_engine/sim/models.py:5-8 | every failure kind is DOWN, DEGRADED or LATENCY_UP, so the admission rule has no fall-through case |
| Validate.Ids | constellation_engine/core/validate.py:37 | the id list has one entry per service, in service order |
| Validate.DuplicatesSnoc | constellation_engine/core/validate.py:40-44 | one more id joins the duplicate set exactly when it was seen before; otherwise the duplicate set is unchanged |
| Validate.DuplicatesExact | constellation_engine/core/validate.py:37-46 | an id is reported as a duplicate exactly when it occurs at two different positions of the service list |
| Validate.NoDuplicatesIffUnique | constellation_engine/core/validate.py:37-46 | the duplicate set is empty exactly when the service ids are pairwise distinct |
| Validate.EndpointErrorsExact | constellation_engine/core/validate.py:50-55 | a missing-source error is reported exactly for a dependency whose src is not a service id, and a missing-destination error exactly for one whose dst is not |
| Validate.SelfErrorsExact | constellation_engine/core/validate.py:56-60 | a self-dependency error is reported exactly for a dependency with src == dst |
| Validate.ModelErrorsEmptyIffValid | constellation_engine/core/validate.py:31-62 | the error list is empty exactly when the ids are unique, every endpoint is a service id, and self-dependencies are absent or allowed |
| Validate.CollectDuplicates | constellation_engine/core/validate.py:38-44 | the seen/dupes pass returns exactly the ids occurring two or more times |
| Validate.AppendEndpointErrors | constellation_engine/core/validate.py:50-55 | the endpoint loop appends, per dependency in order, a src error then a dst error where the endpoint is unknown |
| Validate.AppendSelfErrors | constellation_engine/core/validate.py:56-60 | the self-dependency loop appends one error per dependency with src == dst, in order |
| Validate.ValidateModel | constellation_engine/core/validate.py:19-62 | the errors are the duplicate error (if any), then endpoint errors, then self-dependency errors unless allowed; ok holds exactly when that list is empty |
| Validate.ValidateOrRaise | constellation_engine/core/validate.py:64-86 | fails exactly when the batch breaks a structural rule, carrying the full non-empty error list; otherwise it succeeds with no effect |
| Graph.InEdges | constellation_engine/sim/propagate.py:29 | the dependers of v are exactly the sources of the edges whose destination is v |
| Graph.EdgeMapKeys | constellation_engine/core/graph.py:22-29 | the edge set is exactly the set of (src, dst) pairs of the dependencies |
| Graph.EdgeMapLastWins | constellation_engine/core/graph.py:22-29 | each edge carries the dep_type and call_type of the last dependency with its pair |
| Graph.BuiltGraphWellFormed | constellation_engine/core/graph.py:13-29 | a batch valid with self-dependencies disallowed yields a graph whose edge endpoints are nodes and which has no self-loop |
| Graph.BuildGraph | constellation_engine/core/graph.py:7-31 | fails with the validation errors exactly when the batch is invalid with self-dependencies disallowed; otherwise the nodes are the service ids and the edges the dependencies' pairs with their kinds, closed and loop-free |
| Propagate.ShouldPropagate | constellation_engine/sim/propagate.py:47-58 | the admission rule: DOWN crosses every edge, DEGRADED only HARD ones, LATENCY_UP only SYNC ones; its contract states that a HARD, SYNC edge carries every kind and a non-HARD, ASYNC edge carries DOWN alone (the full table is `AdmissionTable`, the dominance of DOWN is `DownAdmitsMost`) |
| Propagate.AdmissionTable | constellation_engine/sim/propagate.py:47-58 | DOWN admits every edge, DEGRADED exactly the HARD ones, LATENCY_UP exactly the SYNC ones |
| Propagate.DownAdmitsMost | constellation_engine/sim/propagate.py:52-57 | an edge any failure kind admits is admitted by DOWN |
| Propagate.ReachesSelf | constellation_engine/sim/propagate.py:23 | the start reaches itself, so it belongs to its own blast radius |
| Propagate.ReachesStep | constellation_engine/sim/propagate.py:33-42 | a depender with an admitted edge into a node that reaches the start reaches the start too |
| Propagate.ReachedIsNode | constellation_engine/sim/propagate.py:29 | in a graph whose edge endpoints are nodes, everything that reaches a node is a node |
| Propagate.PathInClosedSet | constellation_engine/sim/propagate.py:26-42 | a path of admitted edges that ends in a set closed under admitted dependers starts in that set |
| Propagate.ClosedSetContainsImpacted | constellation_engine/sim/propagate.py:26-42 | a set that holds the start and is closed under admitted dependers contains the whole blast radius |
| Propagate.ImpactedBounds | constellation_engine/sim/criticality.py:15-28 | the blast radius contains the start and only nodes, so its size is between 1 and the node count |
| Propagate.ImpactedMonotone | constellation_engine/sim/propagate.py:52-57 | on the same graph and start, the DOWN blast radius contains the DEGRADED and the LATENCY_UP ones |
| Propagate.SoundAdd | constellation_engine/sim/propagate.py:40-42 | recording a newly reached depender with the start's kind keeps every impacted node reaching the start and every node recorded once |
| Propagate.FrontierExhausted | constellation_engine/sim/propagate.py:26-44 | when the queue is empty, the impacted keys are exactly the blast radius and number at most the node count |
| Propagate.ConsiderDepender | constellation_engine/sim/propagate.py:30-42 | one depender of the dequeued node: the queue and the enqueue history grow by the same list `step`, which is empty or the depender, and is the depender exactly when its edge admits the failure and it was not yet impacted; an admitted depender is impacted afterwards; impacted keys only grow and the termination measure does not increase |
| Propagate.ExpandNode | constellation_engine/sim/propagate.py:29-42 | after the dequeued node's dependers are scanned, all its admitted dependers are impacted, every queued node is impacted, no node is recorded twice, and the queue and the enqueue history both grow by exactly the list `added`, each of whose members is a depender of the dequeued node with an admitted edge that was not impacted before |
| Propagate.PropagateFailure | constellation_engine/sim/propagate.py:9-44 | the result's keys are exactly the start plus the nodes that reach it through admitted depender edges, every value is the input failure kind, and the ghost list `dequeued` of nodes popped from the queue holds each impacted node exactly once, so the loop runs once per impacted node and at most once per graph node |
| Criticality.ComputeCriticality | constellation_engine/sim/criticality.py:10-30 | one score per graph node, equal to the size of that node's blast radius under the given kind (DOWN by default), and between 1 and the node count |
| Criticality.DownScoresDominate | constellation_engine/sim/criticality.py:22-28 | on one graph, a node's DOWN score is at least its score under any other failure kind |
| Scenarios.ChainValid | tests/test_graph_build.py:7-29 | the api/auth/db chain passes validation |
| Scenarios.TypedChainGraph | tests/test_graph_build.py:31-47 | the typed chain builds 3 nodes and 2 edges, api->auth HARD/SYNC and auth->db SOFT/ASYNC |
| Scenarios.ChainGraph | tests/test_failure_propagation.py:15-27 | the default-kind chain is valid and builds edges api->auth and auth->db, both HARD/SYNC |
| Scenarios.SharedGraph | tests/test_criticality.py:7-18 | the a/b/c batch is valid and builds edges a->c and b->c, both HARD/SYNC |
| Scenarios.ChainImpactedAtDb | tests/test_failure_propagation.py:29-39 | db DOWN impacts exactly {db, auth, api} |
| Scenarios.ChainImpactedAtAuth | tests/test_failure_propagation.py:53-55 | auth DOWN impacts exactly {auth, api}, never its dependency db |
| Scenarios.TypedChainImpacted | constellation_engine/sim/propagate.py:52-57 | with auth->db SOFT/ASYNC, DEGRADED and LATENCY_UP at db impact only db, while DOWN at db still impacts auth |
| Scenarios.SharedImpactedAtC | tests/test_criticality.py:20-22 | c DOWN impacts exactly {a, b, c}, a blast radius of 3 |
| Scenarios.SharedImpactedAtLeaf | tests/test_criticality.py:23-24 | a DOWN and b DOWN each impact only that service, a blast radius of 1 |
| Scenarios.AuthDownImpactsApiNotDb | tests/test_failure_propagation.py:41-55 | building the chain and propagating DOWN from auth yields exactly auth and api, both DOWN |
| Scenarios.SharedDependencyCriticality | tests/test_criticality.py:7-24 | building the a/b/c batch and ranking it under DOWN yields c=3, a=1, b=1 |

## Left out

- Manifest loading (constellation_engine/io/loaders.py, constellation_engine/io/schema.py): file access, YAML/JSON parsing and dynamic type checks. The model starts from lists of services and dependencies. The string-to-enum lookup the loader uses is modelled by the Parse functions.
- The command-line interface (constellation_engine/cli/main.py), including the out-degree "top 5" summary. Its order depends on sort stability over networkx iteration order.
- networkx internals: the graph is an explicit node set and edge map.
- Error message text, the `sorted(str(x) ...)` rendering of the duplicate list, and the "\n"-joined ValidationError message: errors are datatype values, and the duplicate ids are a set.
- Node `name`/`metadata` and edge `metadata` attributes are not carried into the graph. They are opaque, and the engine never reads them. Metadata values, which may be arbitrary in the source, are modelled as a string map.
- Python dict insertion order of the results, and breadth-first hop order. Results are stated as sets and maps only.
- Propagation from a start that is not a node: the model requires `start in g.nodes`, as explained above.
- Parallelising the criticality loop: the source is single-threaded.
- Propagate.PropagateFailure: the FIFO order of the queue is modelled, but the breadth-first distance order of visits is not stated. Only the result set, the labels and the once-only dequeues are.

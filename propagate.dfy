/**
 * Failure propagation (constellation_engine/sim/propagate.py): a
 * breadth-first search that walks edges backwards, from a service to the
 * services that depend on it, admitting an edge by the failure kind and
 * the edge's attributes.
 */
module Propagate {
  import opened CoreTypes
  import opened SimModels
  import opened Graph

  /**
   * `_should_propagate`: DOWN crosses every edge, DEGRADED only HARD
   * dependencies, LATENCY_UP only SYNC calls. The enumeration is closed,
   * so the match is exhaustive and the source's fall-through `False` has
   * no counterpart.
   */
  function ShouldPropagate(failure: FailureType, depType: DependencyType, callType: CallType): (admitted: bool)
    // a HARD, SYNC edge carries every failure kind
    ensures depType == Hard && callType == Sync ==> admitted
    // a SOFT or OPTIONAL, ASYNC edge carries DOWN and nothing else
    ensures depType != Hard && callType == Async ==> (admitted <==> failure == Down)
  {
    match failure
    case Down => true
    case Degraded => depType == Hard
    case LatencyUp => callType == Sync
  }

  /** The admission table, one row per failure kind. */
  lemma AdmissionTable(depType: DependencyType, callType: CallType)
    ensures ShouldPropagate(Down, depType, callType)
    ensures ShouldPropagate(Degraded, depType, callType) <==> depType == Hard
    ensures ShouldPropagate(LatencyUp, depType, callType) <==> callType == Sync
  {
  }

  /** DOWN admits every edge that any failure kind admits. */
  lemma DownAdmitsMost(failure: FailureType, depType: DependencyType, callType: CallType)
    ensures ShouldPropagate(failure, depType, callType) ==> ShouldPropagate(Down, depType, callType)
  {
  }

  /** The edge d -> t exists and admits `failure`, so a failure at t reaches d. */
  predicate Admits(g: DiGraph, failure: FailureType, d: ServiceId, t: ServiceId) {
    (d, t) in g.edges && ShouldPropagate(failure, g.edges[(d, t)].depType, g.edges[(d, t)].callType)
  }

  /** `p` is a non-empty sequence of nodes, each consecutive pair p[i] -> p[i + 1] an admitted edge. */
  ghost predicate IsPath(g: DiGraph, failure: FailureType, p: seq<ServiceId>) {
    |p| >= 1 && forall i :: 0 <= i < |p| - 1 ==> Admits(g, failure, p[i], p[i + 1])
  }

  /** `x` depends, through admitted edges, (transitively) on `start`; every node reaches itself. */
  ghost predicate Reaches(g: DiGraph, failure: FailureType, x: ServiceId, start: ServiceId) {
    exists p :: IsPath(g, failure, p) && p[0] == x && p[|p| - 1] == start
  }

  /** The blast radius: the start plus every node that reaches it. */
  ghost function Impacted(g: DiGraph, failure: FailureType, start: ServiceId): (radius: set<ServiceId>) {
    set x | x in g.nodes && Reaches(g, failure, x, start)
  }

  // ---------------------------------------------------------------------
  // Lemmas about reachability
  // ---------------------------------------------------------------------

  lemma ReachesSelf(g: DiGraph, failure: FailureType, start: ServiceId)
    ensures Reaches(g, failure, start, start)
  {
    assert IsPath(g, failure, [start]);
  }

  /** Reachability extends by one admitted depender edge. */
  lemma ReachesStep(g: DiGraph, failure: FailureType, d: ServiceId, c: ServiceId, start: ServiceId)
    requires Reaches(g, failure, c, start)
    requires Admits(g, failure, d, c)
    ensures Reaches(g, failure, d, start)
  {
    var p :| IsPath(g, failure, p) && p[0] == c && p[|p| - 1] == start;
    var q := [d] + p;
    assert forall i :: 1 <= i < |q| ==> q[i] == p[i - 1];
    assert IsPath(g, failure, q);
  }

  /** In a closed graph, a node reaching a node is itself a node. */
  lemma ReachedIsNode(g: DiGraph, failure: FailureType, x: ServiceId, start: ServiceId)
    requires Closed(g) && start in g.nodes
    requires Reaches(g, failure, x, start)
    ensures x in g.nodes
  {
    var p :| IsPath(g, failure, p) && p[0] == x && p[|p| - 1] == start;
    if |p| > 1 {
      assert Admits(g, failure, p[0], p[1]);
    }
  }

  /** Every node of a path that ends inside a set closed under admitted dependers lies in it. */
  lemma {:induction false} PathInClosedSet(g: DiGraph, failure: FailureType, p: seq<ServiceId>, s: set<ServiceId>)
    requires IsPath(g, failure, p)
    requires p[|p| - 1] in s
    requires forall c, d :: c in s && Admits(g, failure, d, c) ==> d in s
    ensures p[0] in s
    decreases |p|
  {
    if |p| > 1 {
      var tail := p[1..];
      assert IsPath(g, failure, tail) by {
        forall i | 0 <= i < |tail| - 1 ensures Admits(g, failure, tail[i], tail[i + 1]) {
          assert Admits(g, failure, p[i + 1], p[i + 2]);
        }
      }
      PathInClosedSet(g, failure, tail, s);
      assert Admits(g, failure, p[0], p[1]);
    }
  }

  /** A set holding the start and closed under admitted dependers holds the whole blast radius. */
  lemma ClosedSetContainsImpacted(g: DiGraph, failure: FailureType, start: ServiceId, s: set<ServiceId>)
    requires start in s
    requires forall c, d :: c in s && Admits(g, failure, d, c) ==> d in s
    ensures Impacted(g, failure, start) <= s
  {
    forall x | x in Impacted(g, failure, start) ensures x in s {
      var p :| IsPath(g, failure, p) && p[0] == x && p[|p| - 1] == start;
      PathInClosedSet(g, failure, p, s);
    }
  }

  /** Impacting one more node leaves one node fewer outside the impacted set. */
  lemma RemainingShrinks(nodes: set<ServiceId>, keys: set<ServiceId>, d: ServiceId)
    requires d in nodes && d !in keys
    ensures |nodes - (keys + {d})| == |nodes - keys| - 1
  {
    assert nodes - (keys + {d}) == (nodes - keys) - {d};
  }

  /** A subset is no larger than its superset. */
  lemma {:induction false} SubsetCardinality(a: set<ServiceId>, b: set<ServiceId>)
    requires a <= b
    ensures |a| <= |b|
    decreases |a|
  {
    if a != {} {
      var x :| x in a;
      SubsetCardinality(a - {x}, b - {x});
    }
  }

  /** The blast radius holds the start and only nodes, so its size is between 1 and the node count. */
  lemma ImpactedBounds(g: DiGraph, failure: FailureType, start: ServiceId)
    requires Closed(g) && start in g.nodes
    ensures start in Impacted(g, failure, start)
    ensures Impacted(g, failure, start) <= g.nodes
    ensures 1 <= |Impacted(g, failure, start)| <= |g.nodes|
  {
    ReachesSelf(g, failure, start);
    forall x | x in Impacted(g, failure, start) ensures x in g.nodes {
      ReachedIsNode(g, failure, x, start);
    }
    SubsetCardinality(Impacted(g, failure, start), g.nodes);
  }

  /** On the same graph and start, the DOWN blast radius contains that of every kind. */
  lemma ImpactedMonotone(g: DiGraph, failure: FailureType, start: ServiceId)
    ensures Impacted(g, failure, start) <= Impacted(g, Down, start)
  {
    forall x | x in Impacted(g, failure, start) ensures x in Impacted(g, Down, start) {
      var p :| IsPath(g, failure, p) && p[0] == x && p[|p| - 1] == start;
      forall i | 0 <= i < |p| - 1 ensures Admits(g, Down, p[i], p[i + 1]) {
        assert Admits(g, failure, p[i], p[i + 1]);
      }
      assert IsPath(g, Down, p);
    }
  }

  // ---------------------------------------------------------------------
  // The traversal
  // ---------------------------------------------------------------------

  /** No element of `s` occurs twice. */
  ghost predicate Distinct(s: seq<ServiceId>) {
    forall i, j :: 0 <= i < j < |s| ==> s[i] != s[j]
  }

  /**
   * What the traversal keeps true of its `impacted` map at every step: it
   * holds the start, only nodes, only the start's kind, and only nodes that
   * reach the start; `order` lists its keys once each.
   */
  ghost predicate Sound(g: DiGraph, failure: FailureType, start: ServiceId,
                        impacted: map<ServiceId, FailureType>, order: seq<ServiceId>) {
    && start in impacted
    && impacted.Keys <= g.nodes
    && (forall x :: x in impacted ==> impacted[x] == failure)
    && (forall x :: x in impacted ==> Reaches(g, failure, x, start))
    && (forall x :: x in impacted <==> x in order)
    && Distinct(order) && |order| == |impacted|
  }

  /** Every admitted depender of a node in `done` is already impacted. */
  ghost predicate Expanded(g: DiGraph, failure: FailureType, done: set<ServiceId>,
                           impacted: map<ServiceId, FailureType>) {
    forall c, d :: c in done && Admits(g, failure, d, c) ==> d in impacted
  }

  /** Adding a newly reached depender keeps the traversal sound. */
  lemma SoundAdd(g: DiGraph, failure: FailureType, start: ServiceId,
                 impacted: map<ServiceId, FailureType>, order: seq<ServiceId>, d: ServiceId, c: ServiceId)
    requires Closed(g)
    requires Sound(g, failure, start, impacted, order)
    requires c in impacted && Admits(g, failure, d, c) && d !in impacted
    ensures Sound(g, failure, start, impacted[d := failure], order + [d])
  {
    ReachesStep(g, failure, d, c, start);
    var order' := order + [d];
    forall i, j | 0 <= i < j < |order'| ensures order'[i] != order'[j] {
      if j == |order| {
        assert order'[i] == order[i];
      }
    }
  }

  /**
   * The state between two dequeues: `impacted` is sound, every queued node
   * is impacted, every impacted node is either expanded (`done`) or still
   * queued, and every expanded node has all its admitted dependers impacted.
   */
  ghost predicate Frontier(g: DiGraph, failure: FailureType, start: ServiceId,
                           impacted: map<ServiceId, FailureType>, queue: seq<ServiceId>,
                           order: seq<ServiceId>, done: set<ServiceId>) {
    && Sound(g, failure, start, impacted, order)
    && (forall x :: x in queue ==> x in impacted)
    && (forall x :: x in impacted ==> x in done || x in queue)
    && Expanded(g, failure, done, impacted)
  }

  /** Once the queue is empty, the impacted keys are exactly the blast radius. */
  lemma FrontierExhausted(g: DiGraph, failure: FailureType, start: ServiceId,
                          impacted: map<ServiceId, FailureType>, order: seq<ServiceId>, done: set<ServiceId>)
    requires Closed(g) && start in g.nodes
    requires Frontier(g, failure, start, impacted, [], order, done)
    ensures impacted.Keys == Impacted(g, failure, start)
    ensures |impacted| <= |g.nodes|
  {
    ClosedSetContainsImpacted(g, failure, start, impacted.Keys);
    forall x | x in Impacted(g, failure, start) ensures x in g.nodes {
      ReachedIsNode(g, failure, x, start);
    }
    SubsetCardinality(impacted.Keys, g.nodes);
  }

  /** Proof helper: appending in two steps is appending the joined tail. */
  lemma ConcatAssoc(a: seq<ServiceId>, b: seq<ServiceId>, c: seq<ServiceId>)
    ensures (a + b) + c == a + (b + c)
  {
  }

  /** Proof helper: moving the head of the queue onto the dequeued list keeps their concatenation. */
  lemma PopFront(dequeued: seq<ServiceId>, queue: seq<ServiceId>)
    requires |queue| > 0
    ensures dequeued + queue == (dequeued + [queue[0]]) + queue[1..]
  {
    assert queue == [queue[0]] + queue[1..];
    ConcatAssoc(dequeued, [queue[0]], queue[1..]);
  }

  /**
   * The state of the BFS while the dependers of `current` are examined:
   * `current` has left the queue but is not yet counted as expanded.
   */
  ghost predicate Expanding(g: DiGraph, failure: FailureType, start: ServiceId, current: ServiceId,
                            impacted: map<ServiceId, FailureType>, queue: seq<ServiceId>,
                            order: seq<ServiceId>, done: set<ServiceId>)
  {
    && Sound(g, failure, start, impacted, order) && current in impacted
    && (forall x :: x in queue ==> x in impacted)
    && (forall x :: x in impacted ==> x in done || x in queue || x == current)
    && Expanded(g, failure, done, impacted)
  }

  /**
   * One iteration of the loop over `graph.in_edges(current)`: when the
   * edge admits the failure and the depender is not yet impacted, it gets the
   * current node's kind and is appended to the queue. `step` is what was
   * appended: nothing, or the depender.
   */
  method ConsiderDepender(g: DiGraph, failure: FailureType, start: ServiceId, current: ServiceId,
                          depender: ServiceId, impacted: map<ServiceId, FailureType>,
                          queue: seq<ServiceId>, ghost order: seq<ServiceId>, ghost done: set<ServiceId>)
    returns (impacted': map<ServiceId, FailureType>, queue': seq<ServiceId>,
             ghost order': seq<ServiceId>, ghost step: seq<ServiceId>)
    requires Closed(g) && (depender, current) in g.edges
    requires Expanding(g, failure, start, current, impacted, queue, order, done)
    ensures Expanding(g, failure, start, current, impacted', queue', order', done)
    ensures queue' == queue + step && order' == order + step
    ensures step == [] || step == [depender]
    ensures step == [depender] <==> Admits(g, failure, depender, current) && depender !in impacted
    ensures impacted.Keys <= impacted'.Keys
    ensures Admits(g, failure, depender, current) ==> depender in impacted'
    ensures 2 * |g.nodes - impacted'.Keys| + |queue'| <= 2 * |g.nodes - impacted.Keys| + |queue|
  {
    impacted', queue', order', step := impacted, queue, order, [];
    var attrs := g.edges[(depender, current)];
    if ShouldPropagate(failure, attrs.depType, attrs.callType) && depender !in impacted {
      SoundAdd(g, failure, start, impacted, order, depender, current);
      RemainingShrinks(g.nodes, impacted.Keys, depender);
      impacted' := impacted[depender := impacted[current]];
      queue' := queue + [depender];
      order' := order + [depender];
      step := [depender];
    }
  }

  /**
   * The body of the `while queue` loop after `current` was dequeued: every
   * depender with an admitted edge into `current` that is not yet impacted
   * gets the current node's kind and is appended to the queue. The ghost
   * `added` lists those dependers, in the order they were appended; the
   * enqueue history `order` grows by exactly the same list.
   */
  method ExpandNode(g: DiGraph, failure: FailureType, start: ServiceId, current: ServiceId,
                    impacted: map<ServiceId, FailureType>, queue: seq<ServiceId>,
                    ghost order: seq<ServiceId>, ghost done: set<ServiceId>)
    returns (impacted': map<ServiceId, FailureType>, queue': seq<ServiceId>,
             ghost order': seq<ServiceId>, ghost added: seq<ServiceId>)
    requires Closed(g)
    requires Expanding(g, failure, start, current, impacted, queue, order, done)
    ensures Frontier(g, failure, start, impacted', queue', order', done + {current})
    ensures queue' == queue + added && order' == order + added
    ensures forall x :: x in added ==> Admits(g, failure, x, current) && x !in impacted
    ensures 2 * |g.nodes - impacted'.Keys| + |queue'| <= 2 * |g.nodes - impacted.Keys| + |queue|
  {
    impacted', queue', order', added := impacted, queue, order, [];
    var dependers := InEdges(g, current);
    while dependers != {}
      invariant Expanding(g, failure, start, current, impacted', queue', order', done)
      invariant forall d :: d in InEdges(g, current) && d !in dependers && Admits(g, failure, d, current)
                      ==> d in impacted'
      invariant queue' == queue + added && order' == order + added
      invariant forall x :: x in added ==> Admits(g, failure, x, current) && x !in impacted
      invariant 2 * |g.nodes - impacted'.Keys| + |queue'| <= 2 * |g.nodes - impacted.Keys| + |queue|
      decreases dependers
    {
      var depender :| depender in dependers;
      dependers := dependers - {depender};
      ghost var step: seq<ServiceId>;
      impacted', queue', order', step :=
        ConsiderDepender(g, failure, start, current, depender, impacted', queue', order', done);
      ConcatAssoc(queue, added, step);
      ConcatAssoc(order, added, step);
      added := added + step;
    }
  }

  /**
   * `propagate_failure`: maps the start and every node that reaches it
   * through admitted edges to the start's failure kind. The ghost
   * `dequeued` lists the nodes in the order the loop took them off the
   * queue: each impacted node is dequeued exactly once, so the loop runs at
   * most |nodes| times. Internally, the ghost `order` is the enqueue history,
   * always the dequeued nodes followed by the queue.
   */
  method PropagateFailure(g: DiGraph, start: ServiceId, failure: FailureType)
    returns (impacted: map<ServiceId, FailureType>, ghost dequeued: seq<ServiceId>)
    requires Closed(g)
    requires start in g.nodes
    ensures impacted.Keys == Impacted(g, failure, start)
    ensures forall x :: x in impacted ==> impacted[x] == failure
    ensures start in impacted
    ensures Distinct(dequeued) && |dequeued| == |impacted| <= |g.nodes|
    ensures forall x :: x in impacted <==> x in dequeued
  {
    impacted := map[start := failure];
    var queue := [start];
    ghost var order := [start];
    ghost var done: set<ServiceId> := {};
    dequeued := [];
    ReachesSelf(g, failure, start);

    while queue != []
      invariant Frontier(g, failure, start, impacted, queue, order, done)
      invariant order == dequeued + queue
      decreases 2 * |g.nodes - impacted.Keys| + |queue|
    {
      var current := queue[0];
      PopFront(dequeued, queue);
      queue := queue[1..];
      dequeued := dequeued + [current];
      ghost var rest, added := queue, [];
      impacted, queue, order, added := ExpandNode(g, failure, start, current, impacted, queue, order, done);
      ConcatAssoc(dequeued, rest, added);
      done := done + {current};
    }

    assert order == dequeued;
    FrontierExhausted(g, failure, start, impacted, order, done);
  }
}

/**
 * Criticality ranking (constellation_engine/sim/criticality.py): the size of
 * every node's blast radius, from an independent propagation per node.
 */
module Criticality {
  import opened CoreTypes
  import opened SimModels
  import opened Graph
  import opened Propagate

  /**
   * `compute_criticality`: one entry per node, the number of services a
   * failure there impacts, itself included. The kind defaults to DOWN.
   */
  method ComputeCriticality(g: DiGraph, failure: FailureType := Down) returns (scores: map<ServiceId, nat>)
    requires Closed(g)
    ensures scores.Keys == g.nodes
    ensures forall n :: n in scores ==> scores[n] == |Impacted(g, failure, n)|
    ensures forall n :: n in scores ==> 1 <= scores[n] <= |g.nodes|
  {
    scores := map[];
    var remaining := g.nodes;
    while remaining != {}
      invariant remaining <= g.nodes
      invariant scores.Keys == g.nodes - remaining
      invariant forall n :: n in scores ==> scores[n] == |Impacted(g, failure, n)|
      decreases remaining
    {
      var node :| node in remaining;
      remaining := remaining - {node};
      var impacted, _ := PropagateFailure(g, node, failure);
      scores := scores[node := |impacted|];
    }
    forall n | n in scores ensures 1 <= scores[n] <= |g.nodes| {
      ImpactedBounds(g, failure, n);
    }
  }

  /**
   * On one graph, a node's DOWN score is at least its score under any other
   * kind, because DOWN admits every edge the other kinds admit.
   */
  lemma DownScoresDominate(g: DiGraph, failure: FailureType,
                           scores: map<ServiceId, nat>, downScores: map<ServiceId, nat>)
    requires Closed(g)
    requires scores.Keys == g.nodes && downScores.Keys == g.nodes
    requires forall n :: n in scores ==> scores[n] == |Impacted(g, failure, n)|
    requires forall n :: n in downScores ==> downScores[n] == |Impacted(g, Down, n)|
    ensures forall n :: n in g.nodes ==> scores[n] <= downScores[n]
  {
    forall n | n in g.nodes ensures scores[n] <= downScores[n] {
      ImpactedMonotone(g, failure, n);
      SubsetCardinality(Impacted(g, failure, n), Impacted(g, Down, n));
    }
  }
}

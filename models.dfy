/** The kinds of failure injected at a start node (constellation_engine/sim/models.py). */
module SimModels {
  import opened Wrappers

  /** The closed set of failure kinds. */
  datatype FailureType = Down | Degraded | LatencyUp {
    /** The enum's wire value. */
    function Value(): (s: string)
      ensures |s| > 0
    {
      match this
      case Down => "down"
      case Degraded => "degraded"
      case LatencyUp => "latency_up"
    }
  }

  /** `FailureType(s)`: the kind whose wire value is `s`, or `None`. */
  function ParseFailureType(s: string): (r: Option<FailureType>)
    ensures r.Some? ==> r.value.Value() == s
    ensures r.None? <==> forall t: FailureType :: t.Value() != s
  {
    if s == "down" then Some(Down)
    else if s == "degraded" then Some(Degraded)
    else if s == "latency_up" then Some(LatencyUp)
    else None
  }

  /** Reading a kind's wire value back gives the kind. */
  lemma FailureTypeRoundTrip(t: FailureType)
    ensures ParseFailureType(t.Value()) == Some(t)
  {
  }

  /** The three wire values are pairwise distinct. */
  lemma FailureTypeValuesDistinct(a: FailureType, b: FailureType)
    ensures a.Value() == b.Value() <==> a == b
  {
  }

  /** The enumeration is closed: every kind is one of the three. */
  lemma FailureTypeExhaustive(t: FailureType)
    ensures t == Down || t == Degraded || t == LatencyUp
  {
  }
}

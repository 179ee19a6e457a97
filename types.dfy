/**
 * The value types of the topology: service identifiers, the two edge-kind
 * enumerations with their wire strings, and the frozen Service and
 * Dependency records (constellation_engine/core/types.py).
 */
module CoreTypes {
  import opened Wrappers

  /** A service identifier: an exact, case-sensitive string. */
  type ServiceId = string

  /**
   * Opaque pass-through metadata. The source allows arbitrary values; the
   * engine never inspects them, so a string map stands in for them.
   */
  type Metadata = map<string, string>

  /** How strongly a depender needs the service it depends on. */
  datatype DependencyType = Hard | Soft | Optional {
    /** The enum's wire value. */
    function Value(): (s: string)
      ensures |s| > 0
    {
      match this
      case Hard => "hard"
      case Soft => "soft"
      case Optional => "optional"
    }
  }

  /** Whether the depender calls synchronously or asynchronously. */
  datatype CallType = Sync | Async {
    /** The enum's wire value. */
    function Value(): (s: string)
      ensures |s| > 0
    {
      match this
      case Sync => "sync"
      case Async => "async"
    }
  }

  /**
   * `DependencyType(s)`: the variant whose wire value is `s`, or `None`
   * where Python raises ValueError.
   */
  function ParseDependencyType(s: string): (r: Option<DependencyType>)
    ensures r.Some? ==> r.value.Value() == s
    ensures r.None? <==> forall t: DependencyType :: t.Value() != s
  {
    if s == "hard" then Some(Hard)
    else if s == "soft" then Some(Soft)
    else if s == "optional" then Some(Optional)
    else None
  }

  /**
   * `CallType(s)`: the variant whose wire value is `s`, or `None` where
   * Python raises ValueError.
   */
  function ParseCallType(s: string): (r: Option<CallType>)
    ensures r.Some? ==> r.value.Value() == s
    ensures r.None? <==> forall t: CallType :: t.Value() != s
  {
    if s == "sync" then Some(Sync)
    else if s == "async" then Some(Async)
    else None
  }

  /** Reading a variant's wire value back gives the variant. */
  lemma DependencyTypeRoundTrip(t: DependencyType)
    ensures ParseDependencyType(t.Value()) == Some(t)
  {
  }

  /** Reading a variant's wire value back gives the variant. */
  lemma CallTypeRoundTrip(t: CallType)
    ensures ParseCallType(t.Value()) == Some(t)
  {
  }

  /** The three dependency kinds have pairwise distinct wire values. */
  lemma DependencyTypeValuesDistinct(a: DependencyType, b: DependencyType)
    ensures a.Value() == b.Value() <==> a == b
  {
  }

  /** The two call kinds have distinct wire values. */
  lemma CallTypeValuesDistinct(a: CallType, b: CallType)
    ensures a.Value() == b.Value() <==> a == b
  {
  }

  /** A frozen service record; `name` and `metadata` are display-only. */
  datatype Service = Service(
    id: ServiceId,
    name: Option<string> := None,
    metadata: Option<Metadata> := None)

  /**
   * A frozen dependency record: `src` depends on `dst`. Without explicit
   * kinds a dependency is HARD and SYNC.
   */
  datatype Dependency = Dependency(
    src: ServiceId,
    dst: ServiceId,
    depType: DependencyType := Hard,
    callType: CallType := Sync,
    metadata: Option<Metadata> := None)

  /** The defaults of the two records. */
  lemma RecordDefaults(id: ServiceId, src: ServiceId, dst: ServiceId)
    ensures Service(id).name.None? && Service(id).metadata.None?
    ensures Dependency(src, dst).depType == Hard
    ensures Dependency(src, dst).callType == Sync
    ensures Dependency(src, dst).metadata.None?
  {
  }
}

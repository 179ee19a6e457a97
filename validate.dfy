/**
 * Structural validation of a service/dependency batch
 * (constellation_engine/core/validate.py): unique ids, existing edge
 * endpoints and, unless allowed, no self-dependencies.
 */
module Validate {
  import opened Wrappers
  import opened CoreTypes

  /** One violation; the source renders each as one message string. */
  datatype ValidationError =
    | DuplicateIds(ids: set<ServiceId>)
    | MissingSrc(src: ServiceId)
    | MissingDst(dst: ServiceId)
    | SelfDependency(id: ServiceId)

  /** The frozen result record of `validate_model`. */
  datatype ValidationResult = ValidationResult(ok: bool, errors: seq<ValidationError>)

  // ---------------------------------------------------------------------
  // Specification of the error list
  // ---------------------------------------------------------------------

  /** The ids of the services, in list order. */
  function Ids(services: seq<Service>): (ids: seq<ServiceId>)
    ensures |ids| == |services|
    ensures forall i :: 0 <= i < |services| ==> ids[i] == services[i].id
  {
    seq(|services|, i requires 0 <= i < |services| => services[i].id)
  }

  /** The ids that occur two or more times. */
  function Duplicates(ids: seq<ServiceId>): (dupes: set<ServiceId>) {
    set x | x in ids && multiset(ids)[x] >= 2
  }

  /** The endpoint errors one dependency contributes: src first, then dst. */
  function DependencyEndpointErrors(d: Dependency, known: set<ServiceId>): (errors: seq<ValidationError>) {
    (if d.src in known then [] else [MissingSrc(d.src)])
    + (if d.dst in known then [] else [MissingDst(d.dst)])
  }

  /** The endpoint errors of a dependency list, in dependency order. */
  function EndpointErrors(deps: seq<Dependency>, known: set<ServiceId>): (errors: seq<ValidationError>)
    decreases |deps|
  {
    if |deps| == 0 then []
    else EndpointErrors(deps[..|deps| - 1], known) + DependencyEndpointErrors(deps[|deps| - 1], known)
  }

  /** The self-dependency errors of a dependency list, in dependency order. */
  function SelfErrors(deps: seq<Dependency>): (errors: seq<ValidationError>)
    decreases |deps|
  {
    if |deps| == 0 then []
    else
      var d := deps[|deps| - 1];
      SelfErrors(deps[..|deps| - 1]) + (if d.src == d.dst then [SelfDependency(d.src)] else [])
  }

  /**
   * The full error list of `validate_model`: the duplicate error first,
   * then endpoint errors, then self-dependency errors.
   */
  function ModelErrors(services: seq<Service>, deps: seq<Dependency>, allowSelfDependencies: bool)
    : (errors: seq<ValidationError>)
  {
    var ids := Ids(services);
    var dupes := Duplicates(ids);
    (if dupes == {} then [] else [DuplicateIds(dupes)])
    + EndpointErrors(deps, set x | x in ids)
    + (if allowSelfDependencies then [] else SelfErrors(deps))
  }

  /** The structural rules themselves, stated without the error list. */
  predicate UniqueIds(services: seq<Service>) {
    forall i, j :: 0 <= i < j < |services| ==> services[i].id != services[j].id
  }

  predicate EndpointsExist(services: seq<Service>, deps: seq<Dependency>) {
    forall d :: d in deps ==>
      (exists s :: s in services && s.id == d.src) && (exists s :: s in services && s.id == d.dst)
  }

  predicate NoSelfDependencies(deps: seq<Dependency>) {
    forall d :: d in deps ==> d.src != d.dst
  }

  predicate ValidModel(services: seq<Service>, deps: seq<Dependency>, allowSelfDependencies: bool) {
    UniqueIds(services) && EndpointsExist(services, deps)
    && (allowSelfDependencies || NoSelfDependencies(deps))
  }

  // ---------------------------------------------------------------------
  // Lemmas about the specification
  // ---------------------------------------------------------------------

  /** Appending one id adds it to the duplicates exactly when it was seen before. */
  lemma DuplicatesSnoc(ids: seq<ServiceId>, x: ServiceId)
    ensures Duplicates(ids + [x]) == if x in ids then Duplicates(ids) + {x} else Duplicates(ids)
  {
    var s := ids + [x];
    assert multiset(s) == multiset(ids) + multiset{x};
    forall y | y in Duplicates(s)
      ensures y in (if x in ids then Duplicates(ids) + {x} else Duplicates(ids))
    {
      if y != x {
        assert y in ids by { assert y in s; }
      }
    }
  }

  /** An id is a duplicate exactly when it occurs at two different positions. */
  lemma {:induction false} DuplicatesExact(ids: seq<ServiceId>, x: ServiceId)
    ensures x in Duplicates(ids) <==> exists i, j :: 0 <= i < j < |ids| && ids[i] == x && ids[j] == x
    decreases |ids|
  {
    if |ids| == 0 {
    } else {
      var init, last := ids[..|ids| - 1], ids[|ids| - 1];
      assert ids == init + [last];
      DuplicatesSnoc(init, last);
      DuplicatesExact(init, x);
      if x in Duplicates(ids) {
        if x in Duplicates(init) {
          var i, j :| 0 <= i < j < |init| && init[i] == x && init[j] == x;
          assert ids[i] == x && ids[j] == x;
        } else {
          assert x == last && x in init;
          var i :| 0 <= i < |init| && init[i] == x;
          assert ids[i] == x && ids[|ids| - 1] == x;
        }
      }
      if exists i, j :: 0 <= i < j < |ids| && ids[i] == x && ids[j] == x {
        var i, j :| 0 <= i < j < |ids| && ids[i] == x && ids[j] == x;
        if j < |init| {
          assert init[i] == x && init[j] == x;
        } else {
          assert init[i] == x;
        }
      }
    }
  }

  /** No duplicates exactly when the services' ids are pairwise distinct. */
  lemma NoDuplicatesIffUnique(services: seq<Service>)
    ensures Duplicates(Ids(services)) == {} <==> UniqueIds(services)
  {
    var ids := Ids(services);
    if Duplicates(ids) != {} {
      var x :| x in Duplicates(ids);
      DuplicatesExact(ids, x);
      var i, j :| 0 <= i < j < |ids| && ids[i] == x && ids[j] == x;
      assert services[i].id == services[j].id;
    }
    if !UniqueIds(services) {
      var i, j :| 0 <= i < j < |services| && services[i].id == services[j].id;
      DuplicatesExact(ids, ids[i]);
    }
  }

  /**
   * An endpoint error is reported for exactly the dependencies whose src
   * (respectively dst) is not a known id.
   */
  lemma {:induction false} EndpointErrorsExact(deps: seq<Dependency>, known: set<ServiceId>, e: ValidationError)
    ensures e in EndpointErrors(deps, known) <==>
      exists d :: d in deps && ((e == MissingSrc(d.src) && d.src !in known)
                             || (e == MissingDst(d.dst) && d.dst !in known))
    decreases |deps|
  {
    if |deps| > 0 {
      var init, last := deps[..|deps| - 1], deps[|deps| - 1];
      assert deps == init + [last];
      EndpointErrorsExact(init, known, e);
    }
  }

  /** A self-dependency error is reported for exactly the dependencies with src == dst. */
  lemma {:induction false} SelfErrorsExact(deps: seq<Dependency>, e: ValidationError)
    ensures e in SelfErrors(deps) <==> exists d :: d in deps && d.src == d.dst && e == SelfDependency(d.src)
    decreases |deps|
  {
    if |deps| > 0 {
      var init, last := deps[..|deps| - 1], deps[|deps| - 1];
      assert deps == init + [last];
      SelfErrorsExact(init, e);
    }
  }

  /** The error list is empty exactly when the batch obeys the structural rules. */
  lemma ModelErrorsEmptyIffValid(services: seq<Service>, deps: seq<Dependency>, allowSelfDependencies: bool)
    ensures ModelErrors(services, deps, allowSelfDependencies) == [] <==>
      ValidModel(services, deps, allowSelfDependencies)
  {
    var ids := Ids(services);
    var known := set x | x in ids;
    NoDuplicatesIffUnique(services);
    assert forall x :: x in known <==> exists s :: s in services && s.id == x by {
      forall x ensures x in known <==> exists s :: s in services && s.id == x {
        if x in known {
          var i :| 0 <= i < |ids| && ids[i] == x;
          assert services[i] in services;
        }
        if exists s :: s in services && s.id == x {
          var s :| s in services && s.id == x;
          var i :| 0 <= i < |services| && services[i] == s;
          assert ids[i] == x;
        }
      }
    }
    if EndpointErrors(deps, known) == [] {
      forall d | d in deps ensures d.src in known && d.dst in known {
        EndpointErrorsExact(deps, known, MissingSrc(d.src));
        EndpointErrorsExact(deps, known, MissingDst(d.dst));
      }
    } else {
      var e := EndpointErrors(deps, known)[0];
      EndpointErrorsExact(deps, known, e);
    }
    if SelfErrors(deps) == [] {
      forall d | d in deps ensures d.src != d.dst {
        SelfErrorsExact(deps, SelfDependency(d.src));
      }
    } else {
      SelfErrorsExact(deps, SelfErrors(deps)[0]);
    }
  }

  // ---------------------------------------------------------------------
  // The operations
  // ---------------------------------------------------------------------

  /** Step 1 of `validate_model`: one pass with a `seen` and a `dupes` set. */
  method CollectDuplicates(ids: seq<ServiceId>) returns (dupes: set<ServiceId>)
    ensures dupes == Duplicates(ids)
  {
    var seen: set<ServiceId> := {};
    dupes := {};
    for k := 0 to |ids|
      invariant seen == set x | x in ids[..k]
      invariant dupes == Duplicates(ids[..k])
    {
      var sid := ids[k];
      assert ids[..k + 1] == ids[..k] + [sid];
      DuplicatesSnoc(ids[..k], sid);
      if sid in seen {
        dupes := dupes + {sid};
      } else {
        seen := seen + {sid};
      }
    }
    assert ids[..|ids|] == ids;
  }

  /** Step 2 of `validate_model`: one error per missing src, then per missing dst, per dependency. */
  method AppendEndpointErrors(errors: seq<ValidationError>, deps: seq<Dependency>, serviceIds: set<ServiceId>)
    returns (out: seq<ValidationError>)
    ensures out == errors + EndpointErrors(deps, serviceIds)
  {
    out := errors;
    for i := 0 to |deps|
      invariant out == errors + EndpointErrors(deps[..i], serviceIds)
    {
      var d := deps[i];
      assert deps[..i + 1][..i] == deps[..i];
      if d.src !in serviceIds {
        out := out + [MissingSrc(d.src)];
      }
      if d.dst !in serviceIds {
        out := out + [MissingDst(d.dst)];
      }
    }
    assert deps[..|deps|] == deps;
  }

  /** Step 3 of `validate_model`: one error per dependency with src == dst. */
  method AppendSelfErrors(errors: seq<ValidationError>, deps: seq<Dependency>)
    returns (out: seq<ValidationError>)
    ensures out == errors + SelfErrors(deps)
  {
    out := errors;
    for i := 0 to |deps|
      invariant out == errors + SelfErrors(deps[..i])
    {
      var d := deps[i];
      assert deps[..i + 1][..i] == deps[..i];
      if d.src == d.dst {
        out := out + [SelfDependency(d.src)];
      }
    }
    assert deps[..|deps|] == deps;
  }

  /**
   * `validate_model`: collects duplicate ids in one pass, then endpoint
   * errors per dependency, then (unless allowed) self-dependency errors.
   */
  method ValidateModel(services: seq<Service>, deps: seq<Dependency>, allowSelfDependencies: bool := false)
    returns (result: ValidationResult)
    ensures result.errors == ModelErrors(services, deps, allowSelfDependencies)
    ensures result.ok <==> result.errors == []
  {
    var errors: seq<ValidationError> := [];
    var ids := Ids(services);

    // 1) unique service ids
    var dupes := CollectDuplicates(ids);
    if dupes != {} {
      errors := errors + [DuplicateIds(dupes)];
    }
    var serviceIds := set x | x in ids;

    // 2) dependency endpoints exist
    errors := AppendEndpointErrors(errors, deps, serviceIds);

    // 3) self-dependencies, unless allowed
    if !allowSelfDependencies {
      errors := AppendSelfErrors(errors, deps);
    }

    result := ValidationResult(|errors| == 0, errors);
  }

  /**
   * `validate_or_raise`: no effect on a valid batch; otherwise the
   * ValidationError carrying every error of `validate_model`.
   */
  method ValidateOrRaise(services: seq<Service>, deps: seq<Dependency>, allowSelfDependencies: bool := false)
    returns (r: Result<(), seq<ValidationError>>)
    ensures r.Err? <==> !ValidModel(services, deps, allowSelfDependencies)
    ensures r.Err? ==> r.error == ModelErrors(services, deps, allowSelfDependencies) && r.error != []
  {
    var result := ValidateModel(services, deps, allowSelfDependencies);
    ModelErrorsEmptyIffValid(services, deps, allowSelfDependencies);
    if !result.ok {
      return Err(result.errors);
    }
    return Ok(());
  }
}

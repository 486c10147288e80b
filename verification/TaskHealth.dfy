/** The current health of a task version, read from its numbered attestations. */
module TaskHealth {
  import opened Foundation
  import opened Numbering
  import opened Ordering

  datatype Source = ContentValidation | Probe | UnknownSource

  datatype Attestation = Attestation(
    taskId: Id, version: int, revision: int, healthy: bool, source: Source, attestedAt: Time)
  {
    predicate Valid() {
      taskId != 0 && version >= 1 && revision >= 1 && !source.UnknownSource? && attestedAt.IsServerTime()
    }
  }

  /** An attestation is valid exactly when it names its task, numbers its version and itself from one, and comes from a
      known source at a server time. */
  lemma AttestationValidExactly(a: Attestation)
    ensures a.Valid() <==>
      && a.taskId > 0 && a.version > 0 && a.revision > 0 && a.source in {ContentValidation, Probe}
      && a.attestedAt.utc && a.attestedAt.instant != 0
  {
  }

  datatype HealthState = HealthState(attested: bool, healthy: bool, revision: int)

  datatype HealthError =
    | InvalidLookup | InvalidAttestation | ForeignAttestation | DuplicateRevision | MissingRevision

  function Revisions(attestations: seq<Attestation>): seq<int> {
    seq(|attestations|, i requires 0 <= i < |attestations| => attestations[i].revision)
  }

  /** All attestations are valid and for this version, and they are numbered 1 to n in some order. */
  ghost predicate Consistent(taskId: Id, version: int, attestations: seq<Attestation>) {
    && (forall i :: 0 <= i < |attestations| ==>
          attestations[i].Valid() && attestations[i].taskId == taskId && attestations[i].version == version)
    && Numbered(Revisions(attestations))
  }

  /** The health recorded by the attestation with the highest number, which is their count. */
  ghost predicate IsCurrent(attestations: seq<Attestation>, h: HealthState) {
    && h.attested && h.revision == |attestations|
    && exists x :: x in attestations && x.revision == |attestations| && x.healthy == h.healthy
  }

  /** What an error of the lookup says about the list. */
  ghost predicate Explains(taskId: Id, version: int, attestations: seq<Attestation>, error: HealthError) {
    match error
    case InvalidLookup => taskId == 0 || version < 1
    case InvalidAttestation => exists a :: a in attestations && !a.Valid()
    case ForeignAttestation => exists a :: a in attestations && (a.taskId != taskId || a.version != version)
    case DuplicateRevision => !Distinct(Revisions(attestations))
    case MissingRevision => exists a, n :: a in attestations && Lacks(attestations, a, n)
  }

  /** No attestation has this number, although one has a higher one. */
  predicate Lacks(attestations: seq<Attestation>, a: Attestation, n: int) {
    1 <= n < a.revision && n !in Revisions(attestations)
  }

  method HasAll(byRevision: map<int, Attestation>, latest: int) returns (complete: bool)
    requires latest >= 0
    ensures complete <==> forall n :: 1 <= n <= latest ==> n in byRevision
  {
    for revision := 1 to latest + 1
      invariant forall n :: 1 <= n < revision ==> n in byRevision
    {
      if revision !in byRevision {
        return false;
      }
    }
    complete := true;
  }

  method CurrentTaskVersionHealth(taskId: Id, version: int, attestations: seq<Attestation>)
    returns (r: Result<HealthState, HealthError>)
    ensures taskId == 0 || version < 1 ==> r == Err(InvalidLookup)
    ensures taskId != 0 && version >= 1 && attestations == [] ==> r == Ok(HealthState(false, false, 0))
    ensures taskId != 0 && version >= 1 && attestations != [] ==> (r.Ok? <==> Consistent(taskId, version, attestations))
    ensures r.Ok? && attestations != [] ==> IsCurrent(attestations, r.value)
    ensures r.Err? ==> Explains(taskId, version, attestations, r.error)
  {
    if taskId == 0 || version < 1 {
      return Err(InvalidLookup);
    }
    if |attestations| == 0 {
      return Ok(HealthState(false, false, 0));
    }
    var byRevision: map<int, Attestation> := map[];
    var latest := Attestation(0, 0, 0, false, UnknownSource, ZERO_TIME);
    ghost var revisions := Revisions(attestations);
    for i := 0 to |attestations|
      invariant forall k :: 0 <= k < i ==>
                  attestations[k].Valid() && attestations[k].taskId == taskId && attestations[k].version == version
      invariant forall n :: n in byRevision <==> n in revisions[..i]
      invariant Distinct(revisions[..i])
      invariant forall n :: n in byRevision ==> 1 <= n <= latest.revision
      invariant i > 0 ==> latest.revision in byRevision
      invariant if i == 0 then latest.revision == 0 else exists k :: 0 <= k < i && attestations[k] == latest
    {
      var attestation := attestations[i];
      assert attestation in attestations;
      if !attestation.Valid() {
        return Err(InvalidAttestation);
      }
      if attestation.taskId != taskId || attestation.version != version {
        return Err(ForeignAttestation);
      }
      if attestation.revision in byRevision {
        assert revisions[i] in revisions[..i];
        assert !Distinct(revisions);
        return Err(DuplicateRevision);
      }
      assert revisions[..i + 1] == revisions[..i] + [attestation.revision];
      byRevision := byRevision[attestation.revision := attestation];
      if attestation.revision > latest.revision {
        latest := attestation;
      }
    }
    assert revisions[..|attestations|] == revisions;
    var complete := HasAll(byRevision, latest.revision);
    if !complete {
      assert latest.revision in revisions && latest in attestations;
      var n :| 1 <= n <= latest.revision && n !in byRevision;
      assert Lacks(attestations, latest, n);
      return Err(MissingRevision);
    }
    CompleteUpTo(revisions, latest.revision);
    r := Ok(HealthState(true, latest.healthy, latest.revision));
  }

  lemma SameRevisionSameEntry(a: seq<Attestation>)
    ensures Distinct(Revisions(a))
      <==> Distinct(a) && forall x, y :: x in a && y in a && x.revision == y.revision ==> x == y
  {
    if Distinct(Revisions(a)) {
      forall x, y | x in a && y in a && x.revision == y.revision
        ensures x == y
      {
        var i :| 0 <= i < |a| && a[i] == x;
        var j :| 0 <= j < |a| && a[j] == y;
        assert Revisions(a)[i] == Revisions(a)[j];
      }
      forall i, j | 0 <= i < j < |a|
        ensures a[i] != a[j]
      {
        assert Revisions(a)[i] != Revisions(a)[j];
      }
    }
  }

  /** The order of the list is irrelevant: permuted attestations are consistent alike and have the same
      current health. */
  lemma OrderIsIrrelevant(taskId: Id, version: int, a: seq<Attestation>, b: seq<Attestation>, h: HealthState,
                          k: HealthState)
    requires multiset(a) == multiset(b) && Consistent(taskId, version, a)
    ensures Consistent(taskId, version, b)
    ensures IsCurrent(a, h) && IsCurrent(b, k) ==> h == k
  {
    DistinctPermutation(a, b);
    SameRevisionSameEntry(a);
    SameRevisionSameEntry(b);
    forall i | 0 <= i < |b| ensures b[i] in a { assert b[i] in b; }
    forall n
      ensures n in Revisions(b) <==> n in Revisions(a)
    {
      if n in Revisions(b) { RevisionOccurs(b, a, n); }
      if n in Revisions(a) { RevisionOccurs(a, b, n); }
    }
  }

  lemma RevisionOccurs(a: seq<Attestation>, b: seq<Attestation>, n: int)
    requires n in Revisions(a) && forall x :: x in a ==> x in b
    ensures n in Revisions(b)
  {
    var i :| 0 <= i < |a| && Revisions(a)[i] == n;
    assert a[i] in a;
    var j :| 0 <= j < |b| && b[j] == a[i];
    assert Revisions(b)[j] == n;
  }
}

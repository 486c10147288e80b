/** The immutable graph of derived revisions: construction, validation and queries. */
module RevisionGraphs {
  import opened Foundation
  import opened Ordering
  import opened RevisionPaths
  import opened RevisionSearch

  datatype ArtifactRef = ArtifactRef(kind: Bytes, entityId: Id) {
    predicate Valid() { ValidKind(kind) && entityId != 0 }
  }

  predicate ValidKind(kind: Bytes) {
    kind in [Ascii("game_result"), Ascii("series_score"), Ascii("series_result"), Ascii("standings"),
             Ascii("golden_group"), Ascii("top_four"), Ascii("bracket"), Ascii("champion")]
  }

  datatype Revision = Revision(
    id: Id, tournamentId: Id, artifact: ArtifactRef, number: int,
    previous: Option<Id>, createdAt: Time, payloadDigest: Bytes)
  {
    predicate Valid() {
      && id != 0 && tournamentId != 0 && artifact.Valid()
      && number >= 1 && createdAt.IsServerTime()
      && (number == 1 ==> previous.None?)
      && (number > 1 ==> previous.Some? && previous.value != 0)
      && previous != Some(id)
    }
  }

  /** SHA-256 is not modelled: any total function on byte strings may stand for it. */
  type Digest = Bytes -> Bytes

  datatype Projection = Projection(revision: Revision, payload: Bytes) {
    predicate Valid(sha: Digest) {
      revision.Valid() && payload != [] && sha(payload) == revision.payloadDigest
    }
  }

  /** The kinds of artifacts that results are derived for. */
  const KINDS: seq<string> :=
    ["game_result", "series_score", "series_result", "standings", "golden_group", "top_four", "bracket", "champion"]

  lemma KindIsKnown(kind: Bytes)
    ensures ValidKind(kind) <==> exists k :: 0 <= k < |KINDS| && kind == Ascii(KINDS[k])
  {
    assert forall k :: 0 <= k < |KINDS| ==> ValidKind(Ascii(KINDS[k]));
    assert ValidKind(kind) ==>
      || kind == Ascii(KINDS[0]) || kind == Ascii(KINDS[1]) || kind == Ascii(KINDS[2]) || kind == Ascii(KINDS[3])
      || kind == Ascii(KINDS[4]) || kind == Ascii(KINDS[5]) || kind == Ascii(KINDS[6]) || kind == Ascii(KINDS[7]);
  }

  /** A projection is valid exactly when its identities are present, its kind is one of the eight, its number counts
      from one, exactly the first has no predecessor and no other names itself, its time is a server time, and its
      payload is there and has the recorded digest. */
  lemma ProjectionValidExactly(p: Projection, sha: Digest)
    ensures p.Valid(sha) <==>
      var r := p.revision;
      && r.id != 0 && r.tournamentId != 0 && r.artifact.entityId != 0
      && (exists k :: 0 <= k < |KINDS| && r.artifact.kind == Ascii(KINDS[k]))
      && r.number > 0 && (r.previous.None? <==> r.number == 1) && r.previous !in {Some(0), Some(r.id)}
      && r.createdAt.instant != 0 && r.createdAt.utc
      && |p.payload| > 0 && r.payloadDigest == sha(p.payload)
  {
    KindIsKnown(p.revision.artifact.kind);
  }

  datatype GraphError =
    | EmptyGraph | InvalidProjection | DuplicateRevision
    | UnknownDependency | CrossTournament | PredatesSource | DuplicateDependency
    | LineageStart | BrokenChain | MissingPredecessorEdge
    | DependencyCycle
  {
    /** Which of the four construction phases reports this error. */
    function Phase(): nat {
      if EmptyGraph? || InvalidProjection? || DuplicateRevision? then 0
      else if LineageStart? || BrokenChain? || MissingPredecessorEdge? then 2
      else if DependencyCycle? then 3
      else 1
    }
  }

  // ---------------------------------------------------------------- what a graph has to satisfy

  ghost predicate SameId(p: Projection, q: Projection) {
    p.revision.id == q.revision.id
  }

  ghost predicate ProjectionsOk(ps: seq<Projection>, sha: Digest) {
    && ps != []
    && Distinct(ps)
    && (forall p {:trigger p.Valid(sha)} :: p in ps ==> p.Valid(sha))
    && (forall p, q {:trigger SameId(p, q)} :: p in ps && q in ps && SameId(p, q) ==> p == q)
  }

  ghost predicate EdgeOk(ps: seq<Projection>, d: Dependency) {
    && d.source != d.derived
    && exists s, t ::
         && s in ps && t in ps && s.revision.id == d.source && t.revision.id == d.derived
         && s.revision.tournamentId == t.revision.tournamentId
         && !t.revision.createdAt.Before(s.revision.createdAt)
  }

  ghost predicate DependenciesOk(ps: seq<Projection>, ds: seq<Dependency>) {
    Distinct(ds) && forall d {:trigger EdgeOk(ps, d)} :: d in ds ==> EdgeOk(ps, d)
  }

  /** q is the direct predecessor of p, and the dependency on it is recorded. */
  ghost predicate Precedes(q: Projection, p: Projection, ds: seq<Dependency>) {
    && q.revision.artifact == p.revision.artifact
    && q.revision.number + 1 == p.revision.number
    && p.revision.previous == Some(q.revision.id)
    && Dependency(q.revision.id, p.revision.id) in ds
  }

  ghost predicate LinkOk(ps: seq<Projection>, ds: seq<Dependency>, p: Projection) {
    p.revision.number == 1 || exists q :: q in ps && Precedes(q, p, ds)
  }

  ghost predicate SamePlace(p: Projection, q: Projection) {
    p.revision.artifact == q.revision.artifact && p.revision.number == q.revision.number
  }

  ghost predicate ChainsOk(ps: seq<Projection>, ds: seq<Dependency>) {
    && (forall p, q {:trigger SamePlace(p, q)} :: p in ps && q in ps && SamePlace(p, q) ==> p == q)
    && (forall p {:trigger LinkOk(ps, ds, p)} :: p in ps ==> LinkOk(ps, ds, p))
  }

  ghost function Edges(ds: seq<Dependency>): set<Dependency> { set d | d in ds }

  /** The declarative acceptance condition. It never mentions the order of its two lists. */
  ghost predicate Acceptable(ps: seq<Projection>, ds: seq<Dependency>, sha: Digest) {
    ProjectionsOk(ps, sha) && DependenciesOk(ps, ds) && ChainsOk(ps, ds) && Acyclic(Edges(ds))
  }

  ghost function FirstFailure(ps: seq<Projection>, ds: seq<Dependency>, sha: Digest): nat {
    if !ProjectionsOk(ps, sha) then 0
    else if !DependenciesOk(ps, ds) then 1
    else if !ChainsOk(ps, ds) then 2
    else 3
  }

  /** What an error of the first failing phase says about the evidence. */
  lemma FailureTells(ps: seq<Projection>, ds: seq<Dependency>, sha: Digest, error: GraphError)
    requires error.Phase() == FirstFailure(ps, ds, sha)
    ensures error in {EmptyGraph, InvalidProjection, DuplicateRevision} <==> !ProjectionsOk(ps, sha)
    ensures error in {UnknownDependency, CrossTournament, PredatesSource, DuplicateDependency} <==>
      ProjectionsOk(ps, sha) && !DependenciesOk(ps, ds)
    ensures error in {LineageStart, BrokenChain, MissingPredecessorEdge} <==>
      ProjectionsOk(ps, sha) && DependenciesOk(ps, ds) && !ChainsOk(ps, ds)
    ensures error == DependencyCycle <==> ProjectionsOk(ps, sha) && DependenciesOk(ps, ds) && ChainsOk(ps, ds)
  {
  }

  function IdOf(p: Projection): Id { p.revision.id }

  /** A dependency names two different revisions of the evidence. */
  ghost predicate Joins(ps: seq<Projection>, d: Dependency, s: Projection, t: Projection) {
    s in ps && t in ps && d.source == IdOf(s) != IdOf(t) == d.derived
  }

  ghost predicate IsLeast(ps: seq<Projection>, p: Projection) {
    p in ps && forall q ::
      q in ps && q.revision.artifact == p.revision.artifact ==> q.revision.number >= p.revision.number
  }

  /** p comes next after q in the numbering of their artifact. */
  ghost predicate Follows(ps: seq<Projection>, q: Projection, p: Projection) {
    && q in ps && p in ps && q != p
    && q.revision.artifact == p.revision.artifact && q.revision.number <= p.revision.number
    && forall r :: r in ps && r.revision.artifact == p.revision.artifact ==>
         r.revision.number <= q.revision.number || r.revision.number >= p.revision.number
  }

  /** What in the evidence an error speaks of, wherever it stands in the two lists. */
  ghost predicate Explains(ps: seq<Projection>, ds: seq<Dependency>, sha: Digest, error: GraphError) {
    match error
    case EmptyGraph => ps == []
    case InvalidProjection => exists p :: p in ps && !p.Valid(sha)
    case DuplicateRevision => !Distinct(Mapped(ps, IdOf))
    case UnknownDependency =>
      exists d :: d in ds && forall s, t {:trigger Joins(ps, d, s, t)} :: !Joins(ps, d, s, t)
    case CrossTournament =>
      exists d, s, t :: d in ds && Joins(ps, d, s, t) && s.revision.tournamentId != t.revision.tournamentId
    case PredatesSource =>
      exists d, s, t :: d in ds && Joins(ps, d, s, t) && t.revision.createdAt.instant < s.revision.createdAt.instant
    case DuplicateDependency => !Distinct(ds)
    case LineageStart => exists p :: IsLeast(ps, p) && (p.revision.number != 1 || p.revision.previous.Some?)
    case BrokenChain =>
      exists q, p ::
        Follows(ps, q, p) && (p.revision.number != q.revision.number + 1 || p.revision.previous != Some(IdOf(q)))
    case MissingPredecessorEdge =>
      exists q, p :: Follows(ps, q, p) && p.revision.number == q.revision.number + 1
                     && p.revision.previous == Some(IdOf(q)) && Dependency(IdOf(q), IdOf(p)) !in ds
    case DependencyCycle => !Acyclic(Edges(ds))
  }

  /** The explanation does not depend on the order of the lists. */
  lemma {:induction false} ExplainsInAnyOrder(ps: seq<Projection>, ps': seq<Projection>, ds: seq<Dependency>,
                                              ds': seq<Dependency>, sha: Digest, error: GraphError)
    requires multiset(ps) == multiset(ps') && multiset(ds) == multiset(ds') && Explains(ps, ds, sha, error)
    ensures Explains(ps', ds', sha, error)
  {
    DistinctPermutation(ps, ps');
    DistinctPermutation(ds, ds');
    match error
    case DuplicateRevision =>
      MappedPermutation(ps, ps', IdOf);
      DistinctPermutation(Mapped(ps, IdOf), Mapped(ps', IdOf));
    case UnknownDependency =>
      var d :| d in ds && forall s, t {:trigger Joins(ps, d, s, t)} :: !Joins(ps, d, s, t);
      forall s, t ensures !Joins(ps', d, s, t) { assert !Joins(ps, d, s, t); }
      assert d in ds';
    case CrossTournament =>
      var d, s, t :| d in ds && Joins(ps, d, s, t) && s.revision.tournamentId != t.revision.tournamentId;
      assert d in ds' && Joins(ps', d, s, t);
    case PredatesSource =>
      var d, s, t :| d in ds && Joins(ps, d, s, t) && t.revision.createdAt.instant < s.revision.createdAt.instant;
      assert d in ds' && Joins(ps', d, s, t);
    case LineageStart =>
      var p :| IsLeast(ps, p) && (p.revision.number != 1 || p.revision.previous.Some?);
      assert IsLeast(ps', p);
    case BrokenChain =>
      var q, p :| Follows(ps, q, p)
                  && (p.revision.number != q.revision.number + 1 || p.revision.previous != Some(IdOf(q)));
      assert Follows(ps', q, p);
    case MissingPredecessorEdge =>
      var q, p :| Follows(ps, q, p) && p.revision.number == q.revision.number + 1
                  && p.revision.previous == Some(IdOf(q)) && Dependency(IdOf(q), IdOf(p)) !in ds;
      assert Follows(ps', q, p);
    case DependencyCycle => assert Edges(ds) == Edges(ds');
    case _ =>
  }

  // ---------------------------------------------------------------- the sort orders

  predicate ProjectionLess(a: Projection, b: Projection) {
    var left, right := a.revision, b.revision;
    if left.artifact.kind != right.artifact.kind then LexLess(left.artifact.kind, right.artifact.kind)
    else if left.artifact.entityId != right.artifact.entityId then left.artifact.entityId < right.artifact.entityId
    else left.number < right.number
  }

  predicate DependencyLess(a: Dependency, b: Dependency) {
    if a.source != b.source then a.source < b.source else a.derived < b.derived
  }

  lemma ProjectionOrder()
    ensures IsOrder(ProjectionLess)
  {
    forall a: Projection, b: Projection
      ensures ProjectionLess(a, b) ==> !ProjectionLess(b, a)
    {
      LexTrichotomy(a.revision.artifact.kind, b.revision.artifact.kind);
    }
    forall a: Projection, b: Projection, c: Projection | !ProjectionLess(b, a) && !ProjectionLess(c, b)
      ensures !ProjectionLess(c, a)
    {
      var x, y, z := a.revision.artifact.kind, b.revision.artifact.kind, c.revision.artifact.kind;
      LexTrichotomy(x, y);
      LexTrichotomy(y, z);
      LexTrichotomy(x, z);
      if x != y && y != z { LexTransitive(x, y, z); }
    }
  }

  lemma DependencyOrder()
    ensures IsOrder(DependencyLess)
    ensures forall ds :: TieFree(ds, DependencyLess)
  {
  }

  /** Projections ascend by kind, in the order of a dictionary, then by entity, then by number; dependencies ascend by
      source, then by derived revision. */
  ghost predicate Canonical(ps: seq<Projection>, ds: seq<Dependency>) {
    && (forall i, j :: 0 <= i < j < |ps| ==> Ascend(ps[i].revision, ps[j].revision))
    && (forall i, j :: 0 <= i < j < |ds| ==>
          ds[i].source < ds[j].source || (ds[i].source == ds[j].source && ds[i].derived < ds[j].derived))
  }

  ghost predicate Ascend(r: Revision, q: Revision) {
    || ComesBefore(r.artifact.kind, q.artifact.kind)
    || (r.artifact.kind == q.artifact.kind && r.artifact.entityId < q.artifact.entityId)
    || (r.artifact == q.artifact && r.number < q.number)
  }

  /** Sound evidence in sorted order ascends strictly. */
  lemma {:induction false} SortedIsCanonical(ps: seq<Projection>, ds: seq<Dependency>)
    requires Sorted(ps, ProjectionLess) && Sorted(ds, DependencyLess)
    requires Distinct(ps) && Distinct(ds) && ChainsOk(ps, ds)
    ensures Canonical(ps, ds)
  {
    forall i, j | 0 <= i < j < |ps|
      ensures Ascend(ps[i].revision, ps[j].revision)
    {
      SortedAt(ps, ProjectionLess, i, j);
      assert ps[i] != ps[j] && !SamePlace(ps[i], ps[j]);
      LexTrichotomy(ps[i].revision.artifact.kind, ps[j].revision.artifact.kind);
      LexLessIsDictionary(ps[i].revision.artifact.kind, ps[j].revision.artifact.kind);
    }
    forall i, j | 0 <= i < j < |ds|
      ensures ds[i].source < ds[j].source || (ds[i].source == ds[j].source && ds[i].derived < ds[j].derived)
    {
      SortedAt(ds, DependencyLess, i, j);
      assert ds[i] != ds[j];
    }
  }

  // ---------------------------------------------------------------- what indexing computes

  ghost predicate IndexedBy(ps: seq<Projection>, byId: map<Id, Projection>) {
    && (forall p :: p in ps ==> p.revision.id in byId && byId[p.revision.id] == p)
    && (forall id :: id in byId ==> byId[id] in ps && byId[id].revision.id == id)
  }

  ghost predicate Newest(ps: seq<Projection>, p: Projection) {
    p in ps && forall q ::
      q in ps && q.revision.artifact == p.revision.artifact ==> q.revision.number <= p.revision.number
  }

  ghost predicate CurrentBy(ps: seq<Projection>, byId: map<Id, Projection>, current: map<ArtifactRef, Id>) {
    && (forall p {:trigger p.revision.artifact in current} :: p in ps ==> p.revision.artifact in current)
    && (forall a {:trigger current[a]} :: a in current ==>
          current[a] in byId && byId[current[a]].revision.artifact == a && Newest(ps, byId[current[a]]))
  }

  /** The adjacency lists in the order in which the dependencies are read. */
  function FoldSources(ds: seq<Dependency>): Sources {
    if ds == [] then map[] else AddSource(FoldSources(ds[..|ds| - 1]), ds[|ds| - 1])
  }

  function AddSource(sources: Sources, d: Dependency): Sources {
    sources[d.derived := SourcesOf(sources, d.derived) + [d.source]]
  }

  lemma {:induction false} FoldSourcesRepresents(ds: seq<Dependency>)
    ensures Represents(FoldSources(ds), Edges(ds))
  {
    if ds != [] {
      var d, init := ds[|ds| - 1], ds[..|ds| - 1];
      FoldSourcesRepresents(init);
      assert ds == init + [d];
      assert Edges(ds) == Edges(init) + {d};
    }
  }

  /** Reading one more projection keeps the newest revision of each artifact. */
  function NextCurrent(current: map<ArtifactRef, Id>, byId: map<Id, Projection>, p: Projection): map<ArtifactRef, Id>
    requires forall a :: a in current ==> current[a] in byId
  {
    var artifact := p.revision.artifact;
    if artifact !in current || byId[current[artifact]].revision.number < p.revision.number
    then current[artifact := p.revision.id]
    else current
  }

  /** Indexing has accepted the first n projections. */
  ghost predicate IndexedPrefix(ps: seq<Projection>, sha: Digest, n: nat, byId: map<Id, Projection>,
                                current: map<ArtifactRef, Id>)
    requires n <= |ps|
  {
    && (forall k {:trigger ps[k].Valid(sha)} :: 0 <= k < n ==> ps[k].Valid(sha))
    && (forall j, k {:trigger SameId(ps[j], ps[k])} :: 0 <= j < k < n ==> !SameId(ps[j], ps[k]))
    && IndexedBy(ps[..n], byId)
    && CurrentBy(ps[..n], byId, current)
  }

  /** An identity that is indexed already occurs twice. */
  lemma {:induction false} RepeatedId(ps: seq<Projection>, n: nat, byId: map<Id, Projection>)
    requires n < |ps| && IndexedBy(ps[..n], byId) && IdOf(ps[n]) in byId
    ensures !Distinct(Mapped(ps, IdOf))
  {
    var q := byId[IdOf(ps[n])];
    assert q in ps[..n];
    var j :| 0 <= j < n && ps[..n][j] == q;
    assert Mapped(ps, IdOf)[j] == Mapped(ps, IdOf)[n];
  }

  lemma IndexAppend(ps: seq<Projection>, p: Projection, byId: map<Id, Projection>, current: map<ArtifactRef, Id>)
    requires IndexedBy(ps, byId) && CurrentBy(ps, byId, current) && p.revision.id !in byId
    ensures var byId' := byId[p.revision.id := p];
            IndexedBy(ps + [p], byId') && CurrentBy(ps + [p], byId', NextCurrent(current, byId', p))
  {
    var byId', ps' := byId[p.revision.id := p], ps + [p];
    var current' := NextCurrent(current, byId', p);
    assert forall q :: q in ps' <==> q in ps || q == p;
    forall a | a in current'
      ensures Newest(ps', byId'[current'[a]])
    {
      if a in current { assert Newest(ps, byId[current[a]]); }
    }
  }

  lemma IndexNext(ps: seq<Projection>, sha: Digest, n: nat, byId: map<Id, Projection>, current: map<ArtifactRef, Id>)
    requires n < |ps| && IndexedPrefix(ps, sha, n, byId, current)
    requires ps[n].Valid(sha) && ps[n].revision.id !in byId
    ensures var byId' := byId[ps[n].revision.id := ps[n]];
            IndexedPrefix(ps, sha, n + 1, byId', NextCurrent(current, byId', ps[n]))
  {
    assert ps[..n + 1] == ps[..n] + [ps[n]];
    forall j | 0 <= j < n
      ensures !SameId(ps[j], ps[n])
    {
      assert ps[j] in ps[..n];
    }
    IndexAppend(ps[..n], ps[n], byId, current);
  }

  lemma IndexRejects(ps: seq<Projection>, sha: Digest, n: nat, byId: map<Id, Projection>)
    requires n < |ps| && IndexedBy(ps[..n], byId)
    requires !ps[n].Valid(sha) || ps[n].revision.id in byId
    ensures !ProjectionsOk(ps, sha)
  {
    assert ps[n] in ps;
    if ps[n].revision.id in byId {
      var j :| 0 <= j < n && ps[j] == byId[ps[n].revision.id];
      assert ps[j] in ps && SameId(ps[j], ps[n]);
    }
  }

  lemma IndexAccepts(ps: seq<Projection>, sha: Digest, byId: map<Id, Projection>, current: map<ArtifactRef, Id>)
    requires ps != [] && IndexedPrefix(ps, sha, |ps|, byId, current)
    ensures ProjectionsOk(ps, sha) && IndexedBy(ps, byId) && CurrentBy(ps, byId, current)
  {
    assert ps[..|ps|] == ps;
    forall j, k | 0 <= j < k < |ps|
      ensures !SameId(ps[j], ps[k]) && ps[j] != ps[k]
    {
    }
  }

  // ---------------------------------------------------------------- order independence

  lemma PermutationInvariant(ps: seq<Projection>, ps': seq<Projection>, ds: seq<Dependency>, ds': seq<Dependency>,
                             sha: Digest)
    requires multiset(ps) == multiset(ps') && multiset(ds) == multiset(ds')
    ensures Acceptable(ps, ds, sha) <==> Acceptable(ps', ds', sha)
    ensures FirstFailure(ps, ds, sha) == FirstFailure(ps', ds', sha)
    ensures ps == [] <==> ps' == []
  {
    DistinctPermutation(ps, ps');
    DistinctPermutation(ds, ds');
    forall d | EdgeOk(ps, d) ensures EdgeOk(ps', d) {}
    forall d | EdgeOk(ps', d) ensures EdgeOk(ps, d) {}
    forall p | LinkOk(ps, ds, p) ensures LinkOk(ps', ds', p) {
      if p.revision.number != 1 { var q :| q in ps && Precedes(q, p, ds); assert q in ps' && Precedes(q, p, ds'); }
    }
    forall p | LinkOk(ps', ds', p) ensures LinkOk(ps, ds, p) {
      if p.revision.number != 1 { var q :| q in ps' && Precedes(q, p, ds'); assert q in ps && Precedes(q, p, ds); }
    }
    assert Edges(ds) == Edges(ds');
  }

  /** Ties of the unstable sort are impossible in an accepted graph. */
  lemma AcceptedIsTieFree(ps: seq<Projection>, ds: seq<Dependency>)
    requires ChainsOk(ps, ds)
    ensures TieFree(ps, ProjectionLess)
  {
    forall i, j | 0 <= i < |ps| && 0 <= j < |ps| && !ProjectionLess(ps[i], ps[j]) && !ProjectionLess(ps[j], ps[i])
      ensures ps[i] == ps[j]
    {
      LexTrichotomy(ps[i].revision.artifact.kind, ps[j].revision.artifact.kind);
      assert SamePlace(ps[i], ps[j]);
    }
  }

  lemma IndexUnique(ps: seq<Projection>, ds: seq<Dependency>, byId: map<Id, Projection>, byId': map<Id, Projection>,
                    current: map<ArtifactRef, Id>, current': map<ArtifactRef, Id>)
    requires ChainsOk(ps, ds)
    requires IndexedBy(ps, byId) && IndexedBy(ps, byId')
    requires CurrentBy(ps, byId, current) && CurrentBy(ps, byId', current')
    ensures byId == byId' && current == current'
  {
    forall id
      ensures id in byId <==> id in byId'
      ensures id in byId ==> byId[id] == byId'[id]
    {
      if id in byId { assert byId[id] in ps; }
      if id in byId' { assert byId'[id] in ps; }
    }
    assert byId == byId';
    forall a
      ensures a in current <==> a in current'
      ensures a in current ==> current[a] == current'[a]
    {
      if a in current { assert byId[current[a]] in ps; }
      if a in current' { assert byId'[current'[a]] in ps; }
      if a in current && a in current' {
        assert SamePlace(byId[current[a]], byId[current'[a]]);
      }
    }
  }

  /** Two graphs built from permutations of the same evidence agree in every field, so every query of one
      answers like the other. */
  lemma OrderIndependence(g: RevisionGraph, h: RevisionGraph)
    requires g.Valid() && h.Valid()
    requires multiset(g.projections) == multiset(h.projections)
    requires multiset(g.dependencies) == multiset(h.dependencies)
    ensures g.projections == h.projections && g.dependencies == h.dependencies
    ensures g.byId == h.byId && g.current == h.current && g.sources == h.sources
  {
    ProjectionOrder();
    DependencyOrder();
    AcceptedIsTieFree(g.projections, g.dependencies);
    SortedUnique(g.projections, h.projections, ProjectionLess);
    SortedUnique(g.dependencies, h.dependencies, DependencyLess);
    IndexUnique(g.projections, g.dependencies, g.byId, h.byId, g.current, h.current);
  }

  // ---------------------------------------------------------------- what every accepted graph guarantees

  /** Transitive dependency is a strict partial order. */
  lemma DependencyIsStrictOrder(ps: seq<Projection>, ds: seq<Dependency>, sha: Digest, a: Id, b: Id, c: Id)
    requires Acceptable(ps, ds, sha)
    ensures !Reaches(Edges(ds), a, a)
    ensures Reaches(Edges(ds), a, b) ==> !Reaches(Edges(ds), b, a)
    ensures Reaches(Edges(ds), a, b) && Reaches(Edges(ds), b, c) ==> Reaches(Edges(ds), a, c)
  {
    if Reaches(Edges(ds), a, b) && Reaches(Edges(ds), b, a) { ReachesTransitive(Edges(ds), a, b, a); }
    if Reaches(Edges(ds), a, b) && Reaches(Edges(ds), b, c) { ReachesTransitive(Edges(ds), a, b, c); }
  }

  /** One revision can depend on another only inside one tournament and never on a later creation. */
  lemma DependencyKeepsTournamentAndTime(ps: seq<Projection>, ds: seq<Dependency>, sha: Digest,
                                         byId: map<Id, Projection>, derived: Id, source: Id)
    requires Acceptable(ps, ds, sha) && IndexedBy(ps, byId) && Reaches(Edges(ds), derived, source)
    ensures derived in byId && source in byId
    ensures byId[derived].revision.tournamentId == byId[source].revision.tournamentId
    ensures !byId[derived].revision.createdAt.Before(byId[source].revision.createdAt)
  {
    var related := (a: Id, b: Id) =>
      && a in byId && b in byId
      && byId[a].revision.tournamentId == byId[b].revision.tournamentId
      && !byId[a].revision.createdAt.Before(byId[b].revision.createdAt);
    forall e | e in Edges(ds)
      ensures related(e.derived, e.source)
    {
      assert EdgeOk(ps, e);
      EdgeCheckIsExact(ps, byId, e);
    }
    var p :| IsPath(Edges(ds), p) && p[0] == derived && p[|p| - 1] == source;
    AlongPath(Edges(ds), p, related);
  }

  /** Below every revision of an artifact there is exactly one revision for each smaller number down to one,
      in the same tournament, and the later one depends on it. */
  lemma {:induction false} RevisionsAreContiguous(ps: seq<Projection>, ds: seq<Dependency>, sha: Digest, p: Projection,
                                                  k: int)
    returns (q: Projection)
    requires Acceptable(ps, ds, sha) && p in ps && 1 <= k < p.revision.number
    ensures q in ps && q.revision.artifact == p.revision.artifact && q.revision.number == k
    ensures forall r :: r in ps && SamePlace(q, r) ==> r == q
    ensures q.revision.tournamentId == p.revision.tournamentId
    ensures Reaches(Edges(ds), p.revision.id, q.revision.id)
    decreases p.revision.number
  {
    assert LinkOk(ps, ds, p);
    var m :| m in ps && Precedes(m, p, ds);
    EdgeReaches(Edges(ds), p.revision.id, m.revision.id);
    SameTournamentAlongEdge(ps, ds, sha, m, p);
    if m.revision.number == k {
      q := m;
    } else {
      q := RevisionsAreContiguous(ps, ds, sha, m, k);
      ReachesTransitive(Edges(ds), p.revision.id, m.revision.id, q.revision.id);
    }
  }

  lemma SameTournamentAlongEdge(ps: seq<Projection>, ds: seq<Dependency>, sha: Digest, m: Projection, p: Projection)
    requires Acceptable(ps, ds, sha) && m in ps && p in ps
    requires Dependency(m.revision.id, p.revision.id) in ds
    ensures m.revision.tournamentId == p.revision.tournamentId
  {
    var d := Dependency(m.revision.id, p.revision.id);
    assert EdgeOk(ps, d);
    var s, t :| s in ps && t in ps && s.revision.id == d.source && t.revision.id == d.derived
                && s.revision.tournamentId == t.revision.tournamentId;
    assert SameId(s, m) && SameId(t, p);
  }

  /** The current revision of an artifact has the highest number and depends on all its other revisions. */
  lemma CurrentDependsOnAllEarlier(ps: seq<Projection>, ds: seq<Dependency>, sha: Digest, newest: Projection,
                                   other: Projection)
    requires Acceptable(ps, ds, sha) && Newest(ps, newest)
    requires other in ps && other.revision.artifact == newest.revision.artifact && other != newest
    ensures 1 <= other.revision.number < newest.revision.number
    ensures Reaches(Edges(ds), newest.revision.id, other.revision.id)
  {
    assert other.Valid(sha) && !SamePlace(other, newest);
    var q := RevisionsAreContiguous(ps, ds, sha, newest, other.revision.number);
    assert SamePlace(q, other);
  }

  // ---------------------------------------------------------------- the dependency loop

  ghost predicate LinkedPrefix(ps: seq<Projection>, ds: seq<Dependency>, n: nat, seen: set<Dependency>,
                               sources: Sources)
    requires n <= |ds|
  {
    && Distinct(ds[..n])
    && (forall k {:trigger EdgeOk(ps, ds[k])} :: 0 <= k < n ==> EdgeOk(ps, ds[k]))
    && (forall d :: d in seen <==> d in ds[..n])
    && sources == FoldSources(ds[..n])
  }

  lemma LinkNext(ps: seq<Projection>, ds: seq<Dependency>, n: nat, seen: set<Dependency>, sources: Sources)
    requires n < |ds| && LinkedPrefix(ps, ds, n, seen, sources) && EdgeOk(ps, ds[n]) && ds[n] !in seen
    ensures LinkedPrefix(ps, ds, n + 1, seen + {ds[n]}, AddSource(sources, ds[n]))
  {
    assert ds[..n + 1] == ds[..n] + [ds[n]];
    assert ds[..n + 1][..n] == ds[..n];
  }

  lemma LinkRejects(ps: seq<Projection>, ds: seq<Dependency>, n: nat)
    requires n < |ds| && (!EdgeOk(ps, ds[n]) || ds[n] in ds[..n])
    ensures !DependenciesOk(ps, ds)
  {
    assert ds[n] in ds;
  }

  lemma {:induction false} LinkAccepts(ps: seq<Projection>, ds: seq<Dependency>, seen: set<Dependency>,
                                       sources: Sources)
    requires LinkedPrefix(ps, ds, |ds|, seen, sources)
    ensures DependenciesOk(ps, ds) && sources == FoldSources(ds) && Represents(sources, Edges(ds))
  {
    assert ds[..|ds|] == ds;
    FoldSourcesRepresents(ds);
  }

  // ---------------------------------------------------------------- the predecessor-chain loop

  /** The chain check has accepted the first n sorted projections. */
  ghost predicate ChainPrefix(ps: seq<Projection>, ds: seq<Dependency>, n: nat)
    requires n <= |ps|
  {
    && (forall j, k {:trigger SamePlace(ps[j], ps[k])} :: 0 <= j < k < n ==> !SamePlace(ps[j], ps[k]))
    && (forall k :: 0 <= k < n ==> LinkOk(ps, ds, ps[k]))
  }

  /** The map of latest revisions, with the positions they were read from. */
  ghost predicate Latest(ps: seq<Projection>, n: nat, previous: map<ArtifactRef, Revision>, at: map<ArtifactRef, nat>)
    requires n <= |ps|
  {
    && at.Keys == previous.Keys
    && (forall k {:trigger ps[k].revision.artifact in at} :: 0 <= k < n ==> ps[k].revision.artifact in at)
    && (forall a {:trigger at[a]} :: a in at ==>
          NewestBefore(ps, n, at[a]) && ps[at[a]].revision == previous[a] && previous[a].artifact == a)
  }

  ghost predicate NewestBefore(ps: seq<Projection>, n: nat, k: nat)
    requires n <= |ps|
  {
    k < n && forall j :: 0 <= j < n && ps[j].revision.artifact == ps[k].revision.artifact ==>
                           ps[j].revision.number <= ps[k].revision.number
  }

  lemma EarlierInOrder(ps: seq<Projection>, i: nat, q: Projection)
    requires Sorted(ps, ProjectionLess) && i < |ps| && q in ps
    requires q.revision.artifact == ps[i].revision.artifact && q.revision.number < ps[i].revision.number
    ensures exists j :: 0 <= j < i && ps[j] == q
  {
    var j :| 0 <= j < |ps| && ps[j] == q;
    if i < j { SortedAt(ps, ProjectionLess, i, j); }
  }

  lemma FirstOfArtifactMustBeOne(ps: seq<Projection>, ds: seq<Dependency>, sha: Digest, i: nat)
    requires Sorted(ps, ProjectionLess) && ProjectionsOk(ps, sha) && i < |ps|
    requires forall k :: 0 <= k < i ==> ps[k].revision.artifact != ps[i].revision.artifact
    requires ps[i].revision.number != 1 || ps[i].revision.previous.Some?
    ensures !ChainsOk(ps, ds)
  {
    var p := ps[i];
    assert p in ps && p.Valid(sha);
    if ChainsOk(ps, ds) {
      assert LinkOk(ps, ds, p);
      var q :| q in ps && Precedes(q, p, ds);
      EarlierInOrder(ps, i, q);
    }
  }

  lemma MustFollowNewest(ps: seq<Projection>, ds: seq<Dependency>, sha: Digest, i: nat, k: nat)
    requires Sorted(ps, ProjectionLess) && ProjectionsOk(ps, sha) && k < i < |ps|
    requires NewestBefore(ps, i, k) && ps[k].revision.artifact == ps[i].revision.artifact
    requires !Precedes(ps[k], ps[i], ds)
    ensures !ChainsOk(ps, ds)
  {
    var p, m := ps[i], ps[k];
    assert p in ps && m in ps && m.Valid(sha);
    if ChainsOk(ps, ds) {
      SortedAt(ps, ProjectionLess, k, i);
      assert !SamePlace(p, m);
      assert LinkOk(ps, ds, p);
      var q :| q in ps && Precedes(q, p, ds);
      EarlierInOrder(ps, i, q);
      assert SamePlace(q, m);
    }
  }

  /** In sorted order the first revision of an artifact has its least number. */
  lemma {:induction false} FirstIsLeast(ps: seq<Projection>, i: nat)
    requires Sorted(ps, ProjectionLess) && i < |ps|
    requires forall k :: 0 <= k < i ==> ps[k].revision.artifact != ps[i].revision.artifact
    ensures IsLeast(ps, ps[i])
  {
    forall q | q in ps && q.revision.artifact == ps[i].revision.artifact
      ensures q.revision.number >= ps[i].revision.number
    {
      var j :| 0 <= j < |ps| && ps[j] == q;
      if i < j { SortedAt(ps, ProjectionLess, i, j); }
    }
  }

  /** In sorted order a revision comes next after the newest one before it. */
  lemma {:induction false} NewestIsFollowed(ps: seq<Projection>, i: nat, k: nat)
    requires Sorted(ps, ProjectionLess) && k < i < |ps|
    requires NewestBefore(ps, i, k) && ps[k].revision.artifact == ps[i].revision.artifact && Distinct(ps)
    ensures Follows(ps, ps[k], ps[i])
  {
    SortedAt(ps, ProjectionLess, k, i);
    forall r | r in ps && r.revision.artifact == ps[i].revision.artifact
      ensures r.revision.number <= ps[k].revision.number || r.revision.number >= ps[i].revision.number
    {
      var j :| 0 <= j < |ps| && ps[j] == r;
      if i < j { SortedAt(ps, ProjectionLess, i, j); }
    }
  }

  /** What it means to stop at revision i: at the first of its artifact, or behind the newest one before it. */
  lemma {:induction false} StopsAtStart(ps: seq<Projection>, ds: seq<Dependency>, sha: Digest, i: nat)
    requires Sorted(ps, ProjectionLess) && ProjectionsOk(ps, sha) && i < |ps|
    requires forall k :: 0 <= k < i ==> ps[k].revision.artifact != ps[i].revision.artifact
    requires ps[i].revision.number != 1 || ps[i].revision.previous.Some?
    ensures !ChainsOk(ps, ds) && Explains(ps, ds, sha, LineageStart)
  {
    FirstOfArtifactMustBeOne(ps, ds, sha, i);
    FirstIsLeast(ps, i);
  }

  lemma {:induction false} StopsBehind(ps: seq<Projection>, ds: seq<Dependency>, sha: Digest, i: nat, k: nat,
                                       error: GraphError)
    requires Sorted(ps, ProjectionLess) && ProjectionsOk(ps, sha) && k < i < |ps|
    requires NewestBefore(ps, i, k) && ps[k].revision.artifact == ps[i].revision.artifact
    requires var q, p := ps[k].revision, ps[i].revision;
      if p.number != q.number + 1 || p.previous != Some(q.id) then error == BrokenChain
      else error == MissingPredecessorEdge && Dependency(q.id, p.id) !in ds
    ensures !ChainsOk(ps, ds) && Explains(ps, ds, sha, error)
  {
    MustFollowNewest(ps, ds, sha, i, k);
    NewestIsFollowed(ps, i, k);
  }

  lemma NextInPrefix(ps: seq<Projection>, ds: seq<Dependency>, sha: Digest, i: nat, k: nat)
    requires ProjectionsOk(ps, sha) && i < |ps| && k <= i && ChainPrefix(ps, ds, i)
    requires if k == i
      then ps[i].revision.number == 1 && forall j :: 0 <= j < i ==> ps[j].revision.artifact != ps[i].revision.artifact
      else NewestBefore(ps, i, k) && Precedes(ps[k], ps[i], ds)
    ensures ChainPrefix(ps, ds, i + 1)
    ensures NewestBefore(ps, i + 1, i)
  {
    forall j | 0 <= j < i
      ensures !SamePlace(ps[j], ps[i])
    {
    }
    assert LinkOk(ps, ds, ps[i]) by {
      if k < i { assert ps[k] in ps; }
    }
  }

  lemma NoEarlierOfArtifact(ps: seq<Projection>, i: nat, previous: map<ArtifactRef, Revision>,
                            at: map<ArtifactRef, nat>)
    requires i < |ps| && Latest(ps, i, previous, at) && ps[i].revision.artifact !in previous
    ensures forall k :: 0 <= k < i ==> ps[k].revision.artifact != ps[i].revision.artifact
  {
    forall k | 0 <= k < i
      ensures ps[k].revision.artifact != ps[i].revision.artifact
    {
      assert ps[k].revision.artifact in at;
    }
  }

  lemma LatestNext(ps: seq<Projection>, i: nat, previous: map<ArtifactRef, Revision>, at: map<ArtifactRef, nat>)
    requires i < |ps| && Latest(ps, i, previous, at) && NewestBefore(ps, i + 1, i)
    ensures var r := ps[i].revision; Latest(ps, i + 1, previous[r.artifact := r], at[r.artifact := i])
  {
    var artifact := ps[i].revision.artifact;
    forall a | a in at && a != artifact
      ensures NewestBefore(ps, i + 1, at[a])
    {
      assert NewestBefore(ps, i, at[a]);
    }
    forall k | 0 <= k < i
      ensures ps[k].revision.artifact in at
    {
    }
  }

  lemma PrefixIsChain(ps: seq<Projection>, ds: seq<Dependency>)
    requires ChainPrefix(ps, ds, |ps|)
    ensures ChainsOk(ps, ds)
  {
    forall p, q | p in ps && q in ps && SamePlace(p, q)
      ensures p == q
    {
      var j :| 0 <= j < |ps| && ps[j] == p;
      var k :| 0 <= k < |ps| && ps[k] == q;
      assert SamePlace(ps[j], ps[k]) && SamePlace(ps[k], ps[j]);
    }
  }

  lemma EdgeCheckIsExact(ps: seq<Projection>, byId: map<Id, Projection>, d: Dependency)
    requires IndexedBy(ps, byId)
    ensures EdgeOk(ps, d) <==>
      && d.source in byId && d.derived in byId && d.source != d.derived
      && byId[d.source].revision.tournamentId == byId[d.derived].revision.tournamentId
      && !byId[d.derived].revision.createdAt.Before(byId[d.source].revision.createdAt)
  {
    if d.source in byId && d.derived in byId {
      assert byId[d.source] in ps && byId[d.derived] in ps;
    }
  }

  lemma EdgesAreIndexed(ps: seq<Projection>, ds: seq<Dependency>, byId: map<Id, Projection>)
    requires IndexedBy(ps, byId) && DependenciesOk(ps, ds)
    ensures EdgesWithin(Edges(ds), byId.Keys)
  {
    forall e | e in Edges(ds)
      ensures e.source in byId && e.derived in byId
    {
      assert EdgeOk(ps, e);
    }
  }

  lemma EndsAreRevisions(ps: seq<Projection>, ds: seq<Dependency>, sha: Digest, a: Id, b: Id)
    requires Acceptable(ps, ds, sha) && Reaches(Edges(ds), a, b)
    ensures a != 0 && b != 0 && a != b
  {
    var p :| IsPath(Edges(ds), p) && p[0] == a && p[|p| - 1] == b;
    assert Dependency(p[1], p[0]) in Edges(ds);
    assert Dependency(p[|p| - 2 + 1], p[|p| - 2]) in Edges(ds);
    var first, last := Dependency(p[1], p[0]), Dependency(p[|p| - 1], p[|p| - 2]);
    assert EdgeOk(ps, first) && EdgeOk(ps, last);
    var t :| t in ps && t.revision.id == first.derived;
    var s :| s in ps && s.revision.id == last.source;
    assert t.Valid(sha) && s.Valid(sha);
    EdgeReaches(Edges(ds), p[0], p[1]);
  }

  class RevisionGraph {
    const sha: Digest
    var projections: seq<Projection>
    var dependencies: seq<Dependency>
    var byId: map<Id, Projection>
    var current: map<ArtifactRef, Id>
    var sources: Sources

    ghost predicate Indexes()
      reads this
    {
      && IndexedBy(projections, byId)
      && CurrentBy(projections, byId, current)
      && sources == FoldSources(dependencies)
    }

    /** An accepted graph: canonical order, complete indexes, and the acceptance condition. */
    ghost predicate Valid()
      reads this
    {
      && Acceptable(projections, dependencies, sha)
      && Sorted(projections, ProjectionLess) && Sorted(dependencies, DependencyLess)
      && Indexes()
    }

    constructor (projections: seq<Projection>, dependencies: seq<Dependency>, sha: Digest)
      ensures this.projections == projections && this.dependencies == dependencies && this.sha == sha
      ensures byId == map[] && current == map[] && sources == map[]
    {
      this.sha := sha;
      this.projections := projections;
      this.dependencies := dependencies;
      byId, current, sources := map[], map[], map[];
    }

    static method New(projections: seq<Projection>, dependencies: seq<Dependency>, sha: Digest)
      returns (r: Result<RevisionGraph, GraphError>)
      ensures r.Ok? <==> Acceptable(projections, dependencies, sha)
      ensures r.Ok? ==> fresh(r.value) && r.value.Valid() && r.value.sha == sha
      ensures r.Ok? ==> multiset(r.value.projections) == multiset(projections)
      ensures r.Ok? ==> multiset(r.value.dependencies) == multiset(dependencies)
      ensures r.Ok? ==> Canonical(r.value.projections, r.value.dependencies)
      ensures r.Err? ==> r.error.Phase() == FirstFailure(projections, dependencies, sha)
      ensures r.Err? ==> Explains(projections, dependencies, sha, r.error)
      ensures r == Err(EmptyGraph) <==> projections == []
    {
      var graph := new RevisionGraph(projections, dependencies, sha);
      graph.SortEvidence();
      PermutationInvariant(projections, graph.projections, dependencies, graph.dependencies, sha);
      var failure := graph.Check();
      if failure.Some? {
        ExplainsInAnyOrder(graph.projections, projections, graph.dependencies, dependencies, sha, failure.value);
        return Err(failure.value);
      }
      SortedIsCanonical(graph.projections, graph.dependencies);
      return Ok(graph);
    }

    /** The four phases after sorting. */
    method Check() returns (failure: Option<GraphError>)
      requires Sorted(projections, ProjectionLess) && Sorted(dependencies, DependencyLess)
      requires byId == map[] && current == map[] && sources == map[]
      modifies `byId, `current, `sources
      ensures failure.None? <==> Acceptable(projections, dependencies, sha)
      ensures failure.None? ==> Indexes()
      ensures failure.Some? ==> failure.value.Phase() == FirstFailure(projections, dependencies, sha)
      ensures failure.Some? ==> Explains(projections, dependencies, sha, failure.value)
      ensures failure == Some(EmptyGraph) <==> projections == []
    {
      failure := IndexProjections();
      if failure.Some? {
        return;
      }
      failure := IndexDependencies();
      if failure.Some? {
        return;
      }
      failure := CheckChains();
    }

    /** The two phases on indexed evidence. */
    method CheckChains() returns (failure: Option<GraphError>)
      requires Sorted(projections, ProjectionLess)
      requires ProjectionsOk(projections, sha) && DependenciesOk(projections, dependencies)
      requires sources == FoldSources(dependencies)
      requires Represents(sources, Edges(dependencies)) && EdgesWithin(Edges(dependencies), byId.Keys)
      ensures failure.None? <==> ChainsOk(projections, dependencies) && Acyclic(Edges(dependencies))
      ensures failure.Some? ==> failure.value.Phase() == if ChainsOk(projections, dependencies) then 3 else 2
      ensures failure.Some? ==> Explains(projections, dependencies, sha, failure.value)
    {
      failure := ValidateRevisionChains();
      if failure.Some? {
        return;
      }
      var cyclic := HasCycle(sources, byId.Keys, Edges(dependencies));
      failure := if cyclic then Some(DependencyCycle) else None;
    }

    method SortEvidence()
      modifies `projections, `dependencies
      ensures Sorted(projections, ProjectionLess) && multiset(projections) == multiset(old(projections))
      ensures Sorted(dependencies, DependencyLess) && multiset(dependencies) == multiset(old(dependencies))
    {
      ProjectionOrder();
      DependencyOrder();
      projections := SortSlice(projections, ProjectionLess);
      dependencies := SortSlice(dependencies, DependencyLess);
    }

    method IndexProjections() returns (failure: Option<GraphError>)
      requires byId == map[] && current == map[]
      modifies `byId, `current
      ensures failure.None? <==> ProjectionsOk(projections, sha)
      ensures failure.None? ==> IndexedBy(projections, byId) && CurrentBy(projections, byId, current)
      ensures failure.Some? ==> failure.value.Phase() == 0
      ensures failure == Some(EmptyGraph) <==> projections == []
      ensures failure.Some? ==> Explains(projections, dependencies, sha, failure.value)
    {
      if |projections| == 0 {
        return Some(EmptyGraph);
      }
      for i := 0 to |projections|
        invariant IndexedPrefix(projections, sha, i, byId, current)
      {
        var projection := projections[i];
        var revision := projection.revision;
        if !projection.Valid(sha) {
          IndexRejects(projections, sha, i, byId);
          assert projection in projections;
          return Some(InvalidProjection);
        }
        if revision.id in byId {
          IndexRejects(projections, sha, i, byId);
          RepeatedId(projections, i, byId);
          return Some(DuplicateRevision);
        }
        IndexNext(projections, sha, i, byId, current);
        byId := byId[revision.id := projection];
        current := NextCurrent(current, byId, projection);
      }
      IndexAccepts(projections, sha, byId, current);
      failure := None;
    }

    /** The four checks of one dependency. */
    method CheckDependency(dependency: Dependency, seen: set<Dependency>) returns (failure: Option<GraphError>)
      requires IndexedBy(projections, byId) && ProjectionsOk(projections, sha)
      ensures failure.None? <==> EdgeOk(projections, dependency) && dependency !in seen
      ensures failure.Some? ==> failure.value.Phase() == 1
      ensures failure == Some(DuplicateDependency) ==> dependency in seen
      ensures failure.Some? && failure != Some(DuplicateDependency) && dependency in dependencies ==>
        Explains(projections, dependencies, sha, failure.value)
    {
      EdgeCheckIsExact(projections, byId, dependency);
      if dependency.source !in byId || dependency.derived !in byId || dependency.source == dependency.derived {
        assert forall s, t {:trigger Joins(projections, dependency, s, t)} :: !Joins(projections, dependency, s, t);
        return Some(UnknownDependency);
      }
      var source, derived := byId[dependency.source], byId[dependency.derived];
      assert Joins(projections, dependency, source, derived);
      if source.revision.tournamentId != derived.revision.tournamentId {
        return Some(CrossTournament);
      }
      if derived.revision.createdAt.Before(source.revision.createdAt) {
        return Some(PredatesSource);
      }
      if dependency in seen {
        return Some(DuplicateDependency);
      }
      failure := None;
    }

    method IndexDependencies() returns (failure: Option<GraphError>)
      requires IndexedBy(projections, byId) && sources == map[]
      requires ProjectionsOk(projections, sha)
      modifies `sources
      ensures failure.None? <==> DependenciesOk(projections, dependencies)
      ensures failure.None? ==> sources == FoldSources(dependencies)
      ensures failure.None? ==> Represents(sources, Edges(dependencies)) && EdgesWithin(Edges(dependencies), byId.Keys)
      ensures failure.Some? ==> failure.value.Phase() == 1
      ensures failure.Some? ==> Explains(projections, dependencies, sha, failure.value)
    {
      var seen: set<Dependency> := {};
      for i := 0 to |dependencies|
        invariant LinkedPrefix(projections, dependencies, i, seen, sources)
      {
        var dependency := dependencies[i];
        failure := CheckDependency(dependency, seen);
        if failure.Some? {
          LinkRejects(projections, dependencies, i);
          assert dependency in seen ==> dependency in dependencies[..i] && !Distinct(dependencies);
          return;
        }
        LinkNext(projections, dependencies, i, seen, sources);
        seen := seen + {dependency};
        sources := AddSource(sources, dependency);
      }
      LinkAccepts(projections, dependencies, seen, sources);
      EdgesAreIndexed(projections, dependencies, byId);
      failure := None;
    }

    method ValidateRevisionChains() returns (failure: Option<GraphError>)
      requires Sorted(projections, ProjectionLess)
      requires ProjectionsOk(projections, sha) && DependenciesOk(projections, dependencies)
      requires sources == FoldSources(dependencies)
      ensures failure.None? <==> ChainsOk(projections, dependencies)
      ensures failure.Some? ==> failure.value.Phase() == 2
      ensures failure.Some? ==> Explains(projections, dependencies, sha, failure.value)
    {
      FoldSourcesRepresents(dependencies);
      var previousByArtifact: map<ArtifactRef, Revision> := map[];
      ghost var at: map<ArtifactRef, nat> := map[];
      for i := 0 to |projections|
        invariant ChainPrefix(projections, dependencies, i)
        invariant Latest(projections, i, previousByArtifact, at)
      {
        var revision := projections[i].revision;
        if revision.artifact !in previousByArtifact {
          NoEarlierOfArtifact(projections, i, previousByArtifact, at);
          if revision.number != 1 || revision.previous.Some? {
            StopsAtStart(projections, dependencies, sha, i);
            return Some(LineageStart);
          }
          NextInPrefix(projections, dependencies, sha, i, i);
          LatestNext(projections, i, previousByArtifact, at);
          previousByArtifact, at := previousByArtifact[revision.artifact := revision], at[revision.artifact := i];
          continue;
        }
        var previous := previousByArtifact[revision.artifact];
        ghost var k := at[revision.artifact];
        if revision.number != previous.number + 1 || revision.previous != Some(previous.id) {
          StopsBehind(projections, dependencies, sha, i, k, BrokenChain);
          return Some(BrokenChain);
        }
        var linked := HasDirectDependency(previous.id, revision.id);
        assert linked <==> Dependency(previous.id, revision.id) in dependencies;
        if !linked {
          StopsBehind(projections, dependencies, sha, i, k, MissingPredecessorEdge);
          return Some(MissingPredecessorEdge);
        }
        NextInPrefix(projections, dependencies, sha, i, k);
        LatestNext(projections, i, previousByArtifact, at);
        previousByArtifact, at := previousByArtifact[revision.artifact := revision], at[revision.artifact := i];
      }
      PrefixIsChain(projections, dependencies);
      failure := None;
    }

    method HasDirectDependency(source: Id, derived: Id) returns (found: bool)
      ensures found <==> source in SourcesOf(sources, derived)
    {
      var list := SourcesOf(sources, derived);
      for k := 0 to |list|
        invariant source !in list[..k]
      {
        if list[k] == source {
          return true;
        }
      }
      found := false;
    }

    method CurrentRevision(artifact: ArtifactRef) returns (r: Option<Projection>)
      requires Valid()
      ensures r.Some? <==> exists p :: p in projections && p.revision.artifact == artifact
      ensures r.Some? ==> r.value.revision.artifact == artifact && Newest(projections, r.value)
    {
      if artifact !in current {
        return None;
      }
      return Some(byId[current[artifact]]);
    }

    /** On an accepted graph the answer is exactly reachability: its identities are non-nil and it has no
        cycle, so the guards for nil and equal identities never hide a path. */
    method DependsOn(derived: Id, source: Id) returns (r: bool)
      requires Valid()
      ensures r <==> Reaches(Edges(dependencies), derived, source)
    {
      if derived == 0 || source == 0 || derived == source {
        if Reaches(Edges(dependencies), derived, source) {
          EndsAreRevisions(projections, dependencies, sha, derived, source);
        }
        return false;
      }
      EdgesAreIndexed(projections, dependencies, byId);
      FoldSourcesRepresents(dependencies);
      r := Search(sources, derived, source, Edges(dependencies), byId.Keys);
    }
  }
}

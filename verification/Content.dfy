/** Tournament content: normalisation of pools and stage defaults, and their revision history. */
module Content {
  import Assignments
  import opened Foundation
  import opened Ordering
  import opened Runs
  import opened Series
  import opened Drafts

  datatype CategoryPool = CategoryPool(id: Id, revision: int, format: SeriesFormat, categories: seq<Category>)

  datatype TaskKind = Normal | Golden | UnknownKind

  datatype TaskPool = TaskPool(id: Id, revision: int, kind: TaskKind, versions: seq<VersionRef>)

  /** The stages in the alphabetical order of their names. */
  datatype Stage = FinalStage | GoldenStage | SemifinalStage | SwissStage | UnknownStage(code: nat) {
    function Rank(): nat {
      match this
      case FinalStage => 0
      case GoldenStage => 1
      case SemifinalStage => 2
      case SwissStage => 3
      case UnknownStage(code) => 4 + code
    }
  }

  datatype CategoryMode = RandomMode | AdminMode | DraftMode | UnknownMode

  datatype StageDefault = StageDefault(
    stage: Stage, format: SeriesFormat, mode: CategoryMode, poolId: Id, taskKind: TaskKind)

  datatype Input = Input(
    tournament: Id, reserves: int, pools: seq<CategoryPool>, normal: TaskPool, golden: TaskPool,
    defaults: seq<StageDefault>)

  datatype Configuration = Configuration(input: Input, revision: int, plan: Id, preflight: Id)

  // ---------------------------------------------------------------- the sort orders

  predicate CategoryLess(a: Category, b: Category) { a.Rank() < b.Rank() }

  predicate VersionLess(a: VersionRef, b: VersionRef) {
    a.taskId < b.taskId || (a.taskId == b.taskId && a.version < b.version)
  }

  predicate StageLess(a: StageDefault, b: StageDefault) { a.stage.Rank() < b.stage.Rank() }

  function FormatRank(f: SeriesFormat): nat {
    match f
    case BO1 => 0
    case BO3 => 1
    case UnknownFormat(code) => 2 + code
  }

  predicate FormatLess(a: CategoryPool, b: CategoryPool) { FormatRank(a.format) < FormatRank(b.format) }

  lemma Orders()
    ensures IsOrder(CategoryLess) && IsOrder(VersionLess) && IsOrder(StageLess) && IsOrder(FormatLess)
  {
  }

  lemma NoTies()
    ensures forall s :: TieFree(s, CategoryLess)
    ensures forall s :: TieFree(s, VersionLess)
  {
  }

  function SortedCategories(cs: seq<Category>): seq<Category> {
    SortBy(cs, CategoryLess)
  }

  function SortedVersions(vs: seq<VersionRef>): seq<VersionRef> {
    SortBy(vs, VersionLess)
  }

  function SortedDefaults(ds: seq<StageDefault>): seq<StageDefault> {
    SortBy(ds, StageLess)
  }

  function SortedPools(ps: seq<CategoryPool>): seq<CategoryPool> {
    SortBy(ps, FormatLess)
  }

  // ---------------------------------------------------------------- what is accepted

  ghost predicate CategoriesOk(format: SeriesFormat, cs: seq<Category>) {
    && format.Valid() && |cs| == format.WinsRequired() * 2 + 1
    && Distinct(cs) && forall c {:trigger c.Valid()} :: c in cs ==> c.Valid()
  }

  ghost predicate PoolOk(p: CategoryPool) {
    p.id != 0 && p.revision >= 1 && p.format.Valid() && CategoriesOk(p.format, p.categories)
  }

  ghost predicate PoolsOk(ps: seq<CategoryPool>) {
    |ps| == 2 && PoolOk(ps[0]) && PoolOk(ps[1]) && ps[0].id != ps[1].id && ps[0].format != ps[1].format
  }

  ghost predicate TaskPoolOk(p: TaskPool, kind: TaskKind) {
    && p.id != 0 && p.revision >= 1 && p.kind == kind && p.versions != []
    && (forall v :: v in p.versions ==> v.taskId != 0 && v.version >= 1)
    && OncePerTask(p.versions)
  }

  ghost predicate OncePerTask(vs: seq<VersionRef>) {
    && Distinct(vs)
    && forall v, w {:trigger SameTask(v, w)} :: v in vs && w in vs && SameTask(v, w) ==> v == w
  }

  predicate SameTask(v: VersionRef, w: VersionRef) { v.taskId == w.taskId }

  ghost predicate Overlap(a: TaskPool, b: TaskPool) {
    exists v, w {:trigger SameTask(v, w)} :: v in a.versions && w in b.versions && SameTask(v, w)
  }

  /** One of the pools has this identity and format. */
  predicate Offers(ps: seq<CategoryPool>, id: Id, format: SeriesFormat) {
    exists i :: 0 <= i < |ps| && ps[i].id == id && ps[i].format == format
  }

  predicate DefaultOk(d: StageDefault, ps: seq<CategoryPool>) {
    && !d.stage.UnknownStage? && d.format.Valid() && !d.mode.UnknownMode?
    && Offers(ps, d.poolId, d.format)
    && d.taskKind == (if d.stage.GoldenStage? then Golden else Normal)
    && d.format == (if d.stage.FinalStage? then BO3 else BO1)
  }

  ghost predicate DefaultsOk(ds: seq<StageDefault>, ps: seq<CategoryPool>) {
    && |ds| == 4
    && (forall d :: d in ds ==> DefaultOk(d, ps))
    && (forall i, j :: 0 <= i < j < |ds| ==> ds[i].stage != ds[j].stage)
  }

  ghost predicate InputOk(in0: Input) {
    && in0.tournament != 0 && 0 <= in0.reserves <= Assignments.MAX_RESERVES
    && PoolsOk(in0.pools)
    && TaskPoolOk(in0.normal, Normal) && TaskPoolOk(in0.golden, Golden) && !Overlap(in0.normal, in0.golden)
    && DefaultsOk(in0.defaults, in0.pools)
  }

  function CanonicalPool(p: CategoryPool): CategoryPool { p.(categories := SortedCategories(p.categories)) }

  function CanonicalPools(ps: seq<CategoryPool>): seq<CategoryPool> {
    seq(|ps|, i requires 0 <= i < |ps| => CanonicalPool(ps[i]))
  }

  function CanonicalTasks(p: TaskPool): TaskPool { p.(versions := SortedVersions(p.versions)) }

  /** Every list in its canonical order. */
  function Normalized(in0: Input): Input {
    Input(in0.tournament, in0.reserves, SortedPools(CanonicalPools(in0.pools)), CanonicalTasks(in0.normal),
          CanonicalTasks(in0.golden), SortedDefaults(in0.defaults))
  }

  // ---------------------------------------------------------------- the normalisers

  method NormalizeCategories(format: SeriesFormat, cs: seq<Category>) returns (r: Option<seq<Category>>)
    ensures r.Some? <==> CategoriesOk(format, cs)
    ensures r.Some? ==> r.value == SortedCategories(cs)
  {
    var expected := format.WinsRequired() * 2 + 1;
    if expected == 1 || |cs| != expected {
      return None;
    }
    Orders();
    NoTies();
    var result := SortSlice(cs, CategoryLess);
    DistinctPermutation(result, cs);
    SortBySorts(cs, CategoryLess);
    SortedUnique(result, SortedCategories(cs), CategoryLess);
    for i := 0 to |result|
      invariant forall k :: 0 <= k < i ==> result[k].Valid()
      invariant forall k :: 1 <= k < i ==> result[k - 1] != result[k]
    {
      if !result[i].Valid() {
        assert result[i] in cs;
        return None;
      }
      if i > 0 && result[i - 1] == result[i] {
        return None;
      }
    }
    CategoriesOnce(result);
    r := Some(result);
  }

  lemma CategoriesOnce(s: seq<Category>)
    requires Sorted(s, CategoryLess) && forall k :: 1 <= k < |s| ==> s[k - 1] != s[k]
    ensures Distinct(s)
  {
    NeighboursTell(s, CategoryLess, (x: Category, y: Category) => x != y);
  }

  method NormalizeTaskPool(p: TaskPool, kind: TaskKind) returns (r: Option<TaskPool>)
    ensures r.Some? <==> TaskPoolOk(p, kind)
    ensures r.Some? ==> r.value == CanonicalTasks(p)
  {
    if p.id == 0 || p.revision < 1 || p.kind != kind || |p.versions| == 0 {
      return None;
    }
    Orders();
    NoTies();
    var versions := SortSlice(p.versions, VersionLess);
    VersionsIgnoreOrder(p.versions, versions);
    SortBySorts(p.versions, VersionLess);
    SortedUnique(versions, SortedVersions(p.versions), VersionLess);
    var usable := EachTaskOnce(versions);
    if !usable {
      return None;
    }
    r := Some(p.(versions := versions));
  }

  lemma VersionsIgnoreOrder(vs: seq<VersionRef>, ws: seq<VersionRef>)
    requires multiset(vs) == multiset(ws)
    ensures OncePerTask(vs) <==> OncePerTask(ws)
    ensures |vs| == |ws| && forall v :: v in vs <==> v in ws
  {
    DistinctPermutation(vs, ws);
  }

  method EachTaskOnce(versions: seq<VersionRef>) returns (ok: bool)
    requires Sorted(versions, VersionLess)
    ensures ok <==> OncePerTask(versions) && forall v :: v in versions ==> v.taskId != 0 && v.version >= 1
  {
    for i := 0 to |versions|
      invariant forall k :: 0 <= k < i ==> versions[k].taskId != 0 && versions[k].version >= 1
      invariant forall k :: 1 <= k < i ==> versions[k - 1].taskId != versions[k].taskId
    {
      if versions[i].taskId == 0 || versions[i].version < 1 {
        assert versions[i] in versions;
        return false;
      }
      if i > 0 && versions[i - 1].taskId == versions[i].taskId {
        assert SameTask(versions[i - 1], versions[i]);
        return false;
      }
    }
    NeighboursTell(versions, VersionLess, (x: VersionRef, y: VersionRef) => x.taskId != y.taskId);
    ok := true;
  }

  method TaskPoolsOverlap(a: TaskPool, b: TaskPool) returns (overlap: bool)
    ensures overlap <==> Overlap(a, b)
  {
    var tasks: set<Id> := {};
    for i := 0 to |a.versions|
      invariant forall t :: t in tasks <==> exists k :: 0 <= k < i && a.versions[k].taskId == t
    {
      tasks := tasks + {a.versions[i].taskId};
    }
    for j := 0 to |b.versions|
      invariant forall k :: 0 <= k < j ==> b.versions[k].taskId !in tasks
    {
      if b.versions[j].taskId in tasks {
        var k :| 0 <= k < |a.versions| && a.versions[k].taskId == b.versions[j].taskId;
        assert SameTask(a.versions[k], b.versions[j]);
        return true;
      }
    }
    overlap := false;
  }

  method NormalizeCategoryPools(ps: seq<CategoryPool>) returns (r: Option<seq<CategoryPool>>)
    ensures r.Some? <==> PoolsOk(ps)
    ensures r.Some? ==> r.value == SortedPools(CanonicalPools(ps))
  {
    var clean := CleanPools(ps);
    if clean.None? {
      return None;
    }
    Orders();
    var sorted := SortSlice(clean.value, FormatLess);
    DistinctFormatsAreTieFree(clean.value, sorted);
    SortBySorts(clean.value, FormatLess);
    SortedUnique(sorted, SortedPools(clean.value), FormatLess);
    r := Some(sorted);
  }

  /** Checks the pools one by one and orders the categories of each. */
  method CleanPools(ps: seq<CategoryPool>) returns (r: Option<seq<CategoryPool>>)
    ensures r.Some? <==> PoolsOk(ps)
    ensures r.Some? ==> r.value == CanonicalPools(ps)
  {
    if |ps| != 2 {
      return None;
    }
    var result: seq<CategoryPool> := [];
    var seenIds: set<Id> := {};
    var seenFormats: set<SeriesFormat> := {};
    for i := 0 to |ps|
      invariant |result| == i
      invariant i >= 1 ==> PoolOk(ps[0]) && result[0] == CanonicalPool(ps[0])
      invariant i == 2 ==> PoolOk(ps[1]) && result[1] == CanonicalPool(ps[1])
      invariant i == 0 ==> seenIds == {} && seenFormats == {}
      invariant i == 1 ==> seenIds == {ps[0].id} && seenFormats == {ps[0].format}
      invariant i == 2 ==> ps[0].id != ps[1].id && ps[0].format != ps[1].format
    {
      var clean := CleanPool(ps[i], seenIds, seenFormats);
      if clean.None? {
        return None;
      }
      seenIds, seenFormats := seenIds + {ps[i].id}, seenFormats + {ps[i].format};
      result := result + [clean.value];
    }
    assert result == CanonicalPools(ps);
    r := Some(result);
  }

  method CleanPool(pool: CategoryPool, seenIds: set<Id>, seenFormats: set<SeriesFormat>)
    returns (r: Option<CategoryPool>)
    ensures r.Some? <==> PoolOk(pool) && pool.id !in seenIds && pool.format !in seenFormats
    ensures r.Some? ==> r.value == CanonicalPool(pool)
  {
    if pool.id == 0 || pool.revision < 1 || !pool.format.Valid() {
      return None;
    }
    if pool.id in seenIds || pool.format in seenFormats {
      return None;
    }
    var categories := NormalizeCategories(pool.format, pool.categories);
    if categories.None? {
      return None;
    }
    r := Some(CategoryPool(pool.id, pool.revision, pool.format, categories.value));
  }

  lemma DistinctFormatsAreTieFree(ps: seq<CategoryPool>, sorted: seq<CategoryPool>)
    requires |ps| == 2 && ps[0].format != ps[1].format && multiset(sorted) == multiset(ps)
    ensures TieFree(sorted, FormatLess)
  {
    DistinctPermutation(sorted, ps);
    forall i, j | 0 <= i < |sorted| && 0 <= j < |sorted| && !FormatLess(sorted[i], sorted[j])
      && !FormatLess(sorted[j], sorted[i])
      ensures sorted[i] == sorted[j]
    {
      assert sorted[i] in ps && sorted[j] in ps;
    }
  }

  method NormalizeStageDefaults(ds: seq<StageDefault>, ps: seq<CategoryPool>) returns (r: Option<seq<StageDefault>>)
    ensures r.Some? <==> DefaultsOk(ds, ps)
    ensures r.Some? ==> r.value == SortedDefaults(ds)
  {
    if |ds| != 4 {
      return None;
    }
    Orders();
    var result := SortSlice(ds, StageLess);
    DistinctPermutation(result, ds);
    for i := 0 to |result|
      invariant forall k :: 0 <= k < i ==> DefaultOk(result[k], ps)
      invariant forall k :: 1 <= k < i ==> result[k - 1].stage != result[k].stage
    {
      if i > 0 && result[i - 1].stage == result[i].stage {
        if DefaultsOk(ds, ps) { StagesOfPermutation(ds, result); }
        return None;
      }
      if !DefaultOk(result[i], ps) {
        assert result[i] in ds;
        return None;
      }
    }
    NeighboursTell(result, StageLess, (x: StageDefault, y: StageDefault) => x.stage != y.stage);
    StagesTieFree(result);
    StagesOfPermutation(result, ds);
    SortBySorts(ds, StageLess);
    SortedUnique(result, SortedDefaults(ds), StageLess);
    r := Some(result);
  }

  lemma StagesTieFree(s: seq<StageDefault>)
    requires forall i, j :: 0 <= i < j < |s| ==> s[i].stage != s[j].stage
    ensures TieFree(s, StageLess)
  {
  }

  /** Stages that occur once in a list occur once in every permutation of it. */
  lemma StagesOfPermutation(a: seq<StageDefault>, b: seq<StageDefault>)
    requires multiset(a) == multiset(b)
    requires forall i, j :: 0 <= i < j < |a| ==> a[i].stage != a[j].stage
    ensures forall i, j :: 0 <= i < j < |b| ==> b[i].stage != b[j].stage
  {
    assert Distinct(a);
    DistinctPermutation(a, b);
    forall i, j | 0 <= i < j < |b|
      ensures b[i].stage != b[j].stage
    {
      assert b[i] in a && b[j] in a;
      var k :| 0 <= k < |a| && a[k] == b[i];
      var m :| 0 <= m < |a| && a[m] == b[j];
      assert k != m;
    }
  }

  method NormalizeInput(in0: Input) returns (r: Option<Input>)
    ensures r.Some? <==> InputOk(in0)
    ensures r.Some? ==> r.value == Normalized(in0)
  {
    if in0.tournament == 0 || in0.reserves < 0 || in0.reserves > Assignments.MAX_RESERVES {
      return None;
    }
    var pools := NormalizeCategoryPools(in0.pools);
    if pools.None? {
      return None;
    }
    var normal := NormalizeTaskPool(in0.normal, Normal);
    if normal.None? {
      return None;
    }
    var golden := NormalizeTaskPool(in0.golden, Golden);
    if golden.None? {
      return None;
    }
    var overlap := TaskPoolsOverlap(normal.value, golden.value);
    OverlapIgnoresOrder(in0.normal, in0.golden);
    if overlap {
      return None;
    }
    var defaults := NormalizeStageDefaults(in0.defaults, pools.value);
    DefaultsSeeSamePools(in0.defaults, in0.pools);
    if defaults.None? {
      return None;
    }
    r := Some(Input(in0.tournament, in0.reserves, pools.value, normal.value, golden.value, defaults.value));
  }

  lemma SameVersions(p: TaskPool)
    ensures forall v :: v in CanonicalTasks(p).versions <==> v in p.versions
  {
    Orders();
    SortBySorts(p.versions, VersionLess);
    DistinctPermutation(SortedVersions(p.versions), p.versions);
  }

  lemma OverlapIgnoresOrder(a: TaskPool, b: TaskPool)
    ensures Overlap(CanonicalTasks(a), CanonicalTasks(b)) <==> Overlap(a, b)
  {
    SameVersions(a);
    SameVersions(b);
  }

  /** Canonical pools keep identity and format, which is all a stage default looks at. */
  lemma CanonicalPoolsOfferTheSame(ps: seq<CategoryPool>, id: Id, format: SeriesFormat)
    ensures Offers(SortedPools(CanonicalPools(ps)), id, format) <==> Offers(ps, id, format)
  {
    Orders();
    var cs := CanonicalPools(ps);
    var qs := SortedPools(cs);
    assert forall p :: p in qs <==> p in cs by { SortBySorts(cs, FormatLess); DistinctPermutation(qs, cs); }
    if i :| 0 <= i < |ps| && ps[i].id == id && ps[i].format == format {
      assert cs[i] in qs;
    }
    if i :| 0 <= i < |qs| && qs[i].id == id && qs[i].format == format {
      assert qs[i] in cs;
    }
  }

  lemma DefaultsSeeSamePools(ds: seq<StageDefault>, ps: seq<CategoryPool>)
    ensures DefaultsOk(ds, SortedPools(CanonicalPools(ps))) <==> DefaultsOk(ds, ps)
  {
    forall d
      ensures DefaultOk(d, SortedPools(CanonicalPools(ps))) <==> DefaultOk(d, ps)
    {
      CanonicalPoolsOfferTheSame(ps, d.poolId, d.format);
    }
  }

  // ---------------------------------------------------------------- normalisation is canonical

  /** The same content, listed in another order at any level. */
  ghost predicate SameContent(a: Input, b: Input) {
    && a.tournament == b.tournament && a.reserves == b.reserves
    && multiset(CanonicalPools(a.pools)) == multiset(CanonicalPools(b.pools))
    && SameTasks(a.normal, b.normal) && SameTasks(a.golden, b.golden)
    && multiset(a.defaults) == multiset(b.defaults)
  }

  ghost predicate SameTasks(p: TaskPool, q: TaskPool) {
    p.id == q.id && p.revision == q.revision && p.kind == q.kind && multiset(p.versions) == multiset(q.versions)
  }

  lemma {:induction false} SortsAlike<T(!new)>(a: seq<T>, b: seq<T>, less: (T, T) -> bool)
    requires IsOrder(less) && multiset(a) == multiset(b) && TieFree(SortBy(a, less), less)
    ensures SortBy(a, less) == SortBy(b, less)
  {
    SortBySorts(a, less);
    SortBySorts(b, less);
    SortedUnique(SortBy(a, less), SortBy(b, less), less);
  }

  lemma CategoriesOkIgnoresOrder(format: SeriesFormat, a: seq<Category>, b: seq<Category>)
    requires multiset(a) == multiset(b)
    ensures CategoriesOk(format, a) <==> CategoriesOk(format, b)
  {
    DistinctPermutation(a, b);
  }

  lemma CanonicalPoolOk(p: CategoryPool)
    ensures PoolOk(CanonicalPool(p)) <==> PoolOk(p)
    ensures CanonicalPool(CanonicalPool(p)) == CanonicalPool(p)
  {
    Orders();
    NoTies();
    SortBySorts(p.categories, CategoryLess);
    CategoriesOkIgnoresOrder(p.format, SortedCategories(p.categories), p.categories);
    SortsAlike(SortedCategories(p.categories), p.categories, CategoryLess);
  }

  lemma CanonicalPairOk(ps: seq<CategoryPool>)
    requires |ps| == 2
    ensures PoolsOk(CanonicalPools(ps)) <==> PoolsOk(ps)
  {
    CanonicalPoolOk(ps[0]);
    CanonicalPoolOk(ps[1]);
  }

  /** Two equal multisets of two different elements are the same pair or the swapped one. */
  lemma SamePair<T>(x: seq<T>, y: seq<T>)
    requires multiset(x) == multiset(y) && |x| == 2
    ensures |y| == 2 && ((y[0] == x[0] && y[1] == x[1]) || (y[0] == x[1] && y[1] == x[0]))
  {
    assert |multiset(x)| == |x| && |multiset(y)| == |y|;
    assert x == [x[0], x[1]] && y == [y[0], y[1]];
    assert multiset{x[0], x[1]} == multiset{y[0], y[1]};
    assert y[0] in multiset{x[0], x[1]} && y[1] in multiset{x[0], x[1]};
    if y[0] == x[0] {
      assert multiset{x[1]} == multiset{x[0], x[1]} - multiset{x[0]} == multiset{y[1]};
      assert x[1] in multiset{y[1]};
    } else {
      assert multiset{x[0]} == multiset{x[0], x[1]} - multiset{x[1]} == multiset{y[1]};
      assert x[0] in multiset{y[1]};
    }
  }

  /** Acceptance of a pair of pools and their canonical form depend only on which canonical pools occur. */
  lemma PoolsIgnoreOrder(a: seq<CategoryPool>, b: seq<CategoryPool>)
    requires multiset(CanonicalPools(a)) == multiset(CanonicalPools(b)) && PoolsOk(a)
    ensures PoolsOk(b) && SortedPools(CanonicalPools(a)) == SortedPools(CanonicalPools(b))
  {
    var x, y := CanonicalPools(a), CanonicalPools(b);
    SamePair(x, y);
    CanonicalPairOk(a);
    CanonicalPairOk(b);
    PairSortsAlike(x, y);
  }

  lemma PairSortsAlike(x: seq<CategoryPool>, y: seq<CategoryPool>)
    requires multiset(x) == multiset(y) && |x| == 2 && x[0].format != x[1].format
    ensures SortedPools(x) == SortedPools(y)
  {
    Orders();
    SortBySorts(x, FormatLess);
    DistinctFormatsAreTieFree(x, SortBy(x, FormatLess));
    SortsAlike(x, y, FormatLess);
  }

  lemma TasksIgnoreOrder(p: TaskPool, q: TaskPool, kind: TaskKind)
    requires SameTasks(p, q)
    ensures TaskPoolOk(p, kind) <==> TaskPoolOk(q, kind)
    ensures CanonicalTasks(p) == CanonicalTasks(q)
    ensures forall v :: v in p.versions <==> v in q.versions
  {
    VersionsIgnoreOrder(p.versions, q.versions);
    Orders();
    NoTies();
    SortsAlike(p.versions, q.versions, VersionLess);
  }

  lemma DefaultsIgnoreOrder(ds: seq<StageDefault>, es: seq<StageDefault>, ps: seq<CategoryPool>)
    requires multiset(ds) == multiset(es) && DefaultsOk(ds, ps)
    ensures DefaultsOk(es, ps) && SortedDefaults(ds) == SortedDefaults(es)
  {
    StagesOfPermutation(ds, es);
    DistinctPermutation(ds, es);
    Orders();
    SortBySorts(ds, StageLess);
    StagesOfPermutation(ds, SortBy(ds, StageLess));
    var sorted := SortBy(ds, StageLess);
    StagesTieFree(sorted);
    SortsAlike(ds, es, StageLess);
  }

  /** Inputs that list the same content in different orders are accepted alike and normalise to one value. */
  lemma NormalizationIgnoresOrder(a: Input, b: Input)
    requires SameContent(a, b) && InputOk(a)
    ensures InputOk(b) && Normalized(a) == Normalized(b)
  {
    PoolsIgnoreOrder(a.pools, b.pools);
    TasksIgnoreOrder(a.normal, b.normal, Normal);
    TasksIgnoreOrder(a.golden, b.golden, Golden);
    DefaultsSeeSamePools(a.defaults, a.pools);
    DefaultsSeeSamePools(a.defaults, b.pools);
    DefaultsIgnoreOrder(a.defaults, b.defaults, b.pools);
  }

  /** Normalising twice is normalising once. */
  lemma NormalizationIdempotent(a: Input)
    requires InputOk(a)
    ensures InputOk(Normalized(a)) && Normalized(Normalized(a)) == Normalized(a)
  {
    var n := Normalized(a);
    Orders();
    SortBySorts(CanonicalPools(a.pools), FormatLess);
    SortBySorts(a.normal.versions, VersionLess);
    SortBySorts(a.golden.versions, VersionLess);
    SortBySorts(a.defaults, StageLess);
    CanonicalTwice(a.pools);
    NormalizationIgnoresOrder(a, n);
  }

  lemma CanonicalTwice(ps: seq<CategoryPool>)
    ensures CanonicalPools(SortedPools(CanonicalPools(ps))) == SortedPools(CanonicalPools(ps))
  {
    var cs := CanonicalPools(ps);
    var qs := SortedPools(cs);
    Orders();
    SortBySorts(cs, FormatLess);
    DistinctPermutation(qs, cs);
    forall i | 0 <= i < |qs|
      ensures CanonicalPool(qs[i]) == qs[i]
    {
      assert qs[i] in cs;
      var k :| 0 <= k < |cs| && cs[k] == qs[i];
      CanonicalPoolOk(ps[k]);
    }
  }

  ghost predicate ShapedPools(ps: seq<CategoryPool>) {
    && |ps| == 2 && ps[0].format == BO1 && ps[1].format == BO3
    && LegalPool(BO1, ps[0].categories) && LegalPool(BO3, ps[1].categories)
  }

  predicate InStageOrder(ds: seq<StageDefault>)
    requires |ds| == 4
  {
    && ds[0].stage == FinalStage && ds[1].stage == GoldenStage
    && ds[2].stage == SemifinalStage && ds[3].stage == SwissStage
  }

  ghost predicate ShapedDefaults(ds: seq<StageDefault>, ps: seq<CategoryPool>)
    requires |ps| == 2
  {
    && |ds| == 4
    && InStageOrder(ds)
    && ds[0].poolId == ps[1].id && ds[0].format == BO3
    && (forall i :: 1 <= i < 4 ==> ds[i].poolId == ps[0].id && ds[i].format == BO1)
  }

  /** What an accepted input looks like once normalised: one BO1 pool and one BO3 pool, each a legal draft pool
      of its format, and the four stages once each, all but the final on the BO1 pool. */
  lemma NormalizedShape(a: Input)
    requires InputOk(a)
    ensures ShapedPools(Normalized(a).pools) && ShapedDefaults(Normalized(a).defaults, Normalized(a).pools)
  {
    var n := Normalized(a);
    NormalizationIdempotent(a);
    Orders();
    SortBySorts(CanonicalPools(a.pools), FormatLess);
    SortBySorts(a.defaults, StageLess);
    PoolsShape(n.pools);
    StagesInOrder(n.defaults, n.pools);
    StagesUseTheirPool(n.defaults, n.pools);
  }

  lemma PoolsShape(ps: seq<CategoryPool>)
    requires PoolsOk(ps) && Sorted(ps, FormatLess)
    ensures ShapedPools(ps)
  {
    SortedAt(ps, FormatLess, 0, 1);
    PoolIsLegal(ps[0]);
    PoolIsLegal(ps[1]);
  }

  lemma StagesUseTheirPool(ds: seq<StageDefault>, ps: seq<CategoryPool>)
    requires DefaultsOk(ds, ps) && |ps| == 2 && ps[0].format == BO1 && ps[1].format == BO3
    requires InStageOrder(ds)
    ensures ShapedDefaults(ds, ps)
  {
    forall i | 0 <= i < 4
      ensures ds[i].poolId == (if i == 0 then ps[1].id else ps[0].id) && ds[i].format == (if i == 0 then BO3 else BO1)
    {
      assert ds[i] in ds && DefaultOk(ds[i], ps);
    }
  }

  /** Every category list that normalisation accepts is a pool a draft of that format may be opened with. */
  lemma PoolIsLegal(p: CategoryPool)
    requires PoolOk(p)
    ensures LegalPool(p.format, p.categories)
  {
    forall i | 0 <= i < |p.categories| ensures p.categories[i].Valid() { assert p.categories[i] in p.categories; }
  }

  lemma StagesInOrder(ds: seq<StageDefault>, ps: seq<CategoryPool>)
    requires DefaultsOk(ds, ps) && Sorted(ds, StageLess)
    ensures InStageOrder(ds)
  {
    SortedAt(ds, StageLess, 0, 1);
    SortedAt(ds, StageLess, 1, 2);
    SortedAt(ds, StageLess, 2, 3);
    assert ds[0] in ds && ds[1] in ds && ds[2] in ds && ds[3] in ds;
    assert DefaultOk(ds[0], ps) && DefaultOk(ds[1], ps) && DefaultOk(ds[2], ps) && DefaultOk(ds[3], ps);
    assert ds[0].stage != ds[1].stage && ds[1].stage != ds[2].stage && ds[2].stage != ds[3].stage;
  }

  // ---------------------------------------------------------------- revisions

  ghost predicate ConfigurationOk(c: Configuration) {
    && c.input.tournament != 0 && c.revision >= 1
    && ((c.plan == 0) <==> (c.preflight == 0)) && (c.plan != 0 ==> c.plan != c.preflight)
    && InputOk(c.input) && Normalized(c.input) == c.input
  }

  /** A changed pool needs another identity and the next revision number. */
  predicate PoolAdvances(id: Id, revision: int, nextId: Id, nextRevision: int, same: bool) {
    same || (nextId != id && nextRevision == revision + 1)
  }

  predicate Advances(a: Input, b: Input)
    requires |a.pools| == |b.pools| == 2
  {
    && (forall i :: 0 <= i < 2 ==>
          PoolAdvances(a.pools[i].id, a.pools[i].revision, b.pools[i].id, b.pools[i].revision,
                       a.pools[i] == b.pools[i]))
    && PoolAdvances(a.normal.id, a.normal.revision, b.normal.id, b.normal.revision, a.normal == b.normal)
    && PoolAdvances(a.golden.id, a.golden.revision, b.golden.id, b.golden.revision, a.golden == b.golden)
  }

  ghost function Revised(c: Configuration, in0: Input): Option<Configuration> {
    if !ConfigurationOk(c) || !InputOk(in0) || in0.tournament != c.input.tournament then None
    else
      NormalizedShape(c.input);
      NormalizedShape(in0);
      var n := Normalized(in0);
      if n == c.input then Some(c)
      else if !Advances(c.input, n) then None
      else Some(Configuration(n, c.revision + 1, 0, 0))
  }

  method Validate(c: Configuration) returns (ok: bool)
    ensures ok <==> ConfigurationOk(c)
  {
    if c.input.tournament == 0 || c.revision < 1 {
      return false;
    }
    if (c.plan == 0) != (c.preflight == 0) || (c.plan != 0 && c.plan == c.preflight) {
      return false;
    }
    var normalized := NormalizeInput(c.input);
    ok := normalized == Some(c.input);
  }

  method Create(in0: Input) returns (r: Option<Configuration>)
    ensures r.Some? <==> InputOk(in0)
    ensures r.Some? ==> r.value == Configuration(Normalized(in0), 1, 0, 0) && ConfigurationOk(r.value)
  {
    var normalized := NormalizeInput(in0);
    if normalized.None? {
      return None;
    }
    NormalizationIdempotent(in0);
    r := Some(Configuration(normalized.value, 1, 0, 0));
  }

  /** The flag tells whether a new revision was made. */
  method Revise(c: Configuration, in0: Input) returns (r: Option<(Configuration, bool)>)
    ensures r.Some? <==> Revised(c, in0).Some?
    ensures r.Some? ==> r.value.0 == Revised(c, in0).value
    ensures r.Some? ==> (r.value.1 <==> Normalized(in0) != c.input)
  {
    var valid := Validate(c);
    if !valid {
      return None;
    }
    var normalized := NormalizeInput(in0);
    if normalized.None? || normalized.value.tournament != c.input.tournament {
      return None;
    }
    var n := normalized.value;
    if c.input == n {
      return Some((c, false));
    }
    NormalizedShape(c.input);
    NormalizedShape(in0);
    var advances := ValidateRevisionAdvance(c.input, n);
    if !advances {
      return None;
    }
    r := Some((Configuration(n, c.revision + 1, 0, 0), true));
  }

  method ValidateRevisionAdvance(current: Input, next: Input) returns (ok: bool)
    requires |current.pools| == |next.pools| == 2
    ensures ok <==> Advances(current, next)
  {
    for i := 0 to |current.pools|
      invariant forall k :: 0 <= k < i ==>
                  PoolAdvances(current.pools[k].id, current.pools[k].revision, next.pools[k].id, next.pools[k].revision,
                               current.pools[k] == next.pools[k])
    {
      var p, q := current.pools[i], next.pools[i];
      if !PoolAdvances(p.id, p.revision, q.id, q.revision, p == q) {
        return false;
      }
    }
    for i := 0 to 2
      invariant i > 0 ==>
                  PoolAdvances(current.normal.id, current.normal.revision, next.normal.id, next.normal.revision,
                               current.normal == next.normal)
      invariant i > 1 ==>
                  PoolAdvances(current.golden.id, current.golden.revision, next.golden.id, next.golden.revision,
                               current.golden == next.golden)
    {
      var p, q := if i == 0 then current.normal else current.golden, if i == 0 then next.normal else next.golden;
      if !PoolAdvances(p.id, p.revision, q.id, q.revision, p == q) {
        return false;
      }
    }
    ok := true;
  }

  /** Attaches the plan and the preflight derived from this revision. */
  ghost function WithDerived(c: Configuration, plan: Id, preflight: Id): Option<Configuration> {
    if !ConfigurationOk(c) || plan == 0 || preflight == 0 || plan == preflight then None
    else Some(c.(plan := plan, preflight := preflight))
  }

  ghost predicate Steps(c: Configuration, d: Configuration) {
    || (exists in0 :: Revised(c, in0) == Some(d))
    || (exists plan, preflight :: WithDerived(c, plan, preflight) == Some(d))
  }

  lemma RevisionKeepsConfiguration(c: Configuration, in0: Input)
    requires Revised(c, in0).Some?
    ensures var d := Revised(c, in0).value;
      && ConfigurationOk(d) && d.input.tournament == c.input.tournament
      && d.revision == c.revision + (if Normalized(in0) == c.input then 0 else 1)
      && (Normalized(in0) == c.input ==> d == c)
      && (Normalized(in0) != c.input ==> d.plan == 0 && d.preflight == 0)
  {
    NormalizationIdempotent(in0);
  }

  /** The history of one pool: it stays, or its revision number has grown. */
  predicate PoolLater(revision: int, nextRevision: int, same: bool) {
    same || revision < nextRevision
  }

  ghost predicate Later(c: Configuration, d: Configuration) {
    && |c.input.pools| == |d.input.pools| == 2
    && PoolLater(c.input.pools[0].revision, d.input.pools[0].revision, c.input.pools[0] == d.input.pools[0])
    && PoolLater(c.input.pools[1].revision, d.input.pools[1].revision, c.input.pools[1] == d.input.pools[1])
    && PoolLater(c.input.normal.revision, d.input.normal.revision, c.input.normal == d.input.normal)
    && PoolLater(c.input.golden.revision, d.input.golden.revision, c.input.golden == d.input.golden)
    && PoolLater(c.revision, d.revision, c.input == d.input && c.revision == d.revision)
  }

  lemma StepIsLater(c: Configuration, d: Configuration)
    requires ConfigurationOk(c) && Steps(c, d)
    ensures ConfigurationOk(d) && Later(c, d)
  {
    NormalizedShape(c.input);
    if in0 :| Revised(c, in0) == Some(d) {
      RevisionKeepsConfiguration(c, in0);
      NormalizedShape(in0);
    }
  }

  lemma {:induction false} StepsAreLater()
    ensures Preserved(Steps, ConfigurationOk)
    ensures forall c, d {:trigger Steps(c, d)} :: ConfigurationOk(c) && Steps(c, d) ==> Later(c, d)
    ensures forall c :: ConfigurationOk(c) ==> Later(c, c)
  {
    forall c, d | ConfigurationOk(c) && Steps(c, d)
      ensures ConfigurationOk(d) && Later(c, d)
    {
      StepIsLater(c, d);
    }
    forall c | ConfigurationOk(c)
      ensures Later(c, c)
    {
      NormalizedShape(c.input);
    }
  }

  lemma LaterTransitive(c: Configuration, d: Configuration, e: Configuration)
    requires Later(c, d) && Later(d, e)
    ensures Later(c, e)
  {
  }

  lemma {:induction false} RunIsLater(first: Configuration, trace: seq<Configuration>, i: nat, j: nat)
    requires ConfigurationOk(first) && IsRun(trace, first, Steps) && i <= j < |trace|
    ensures ConfigurationOk(trace[j]) && Later(trace[i], trace[j])
  {
    StepsAreLater();
    Invariant(trace, first, Steps, ConfigurationOk, j);
    forall c, d, e | Later(c, d) && Later(d, e)
      ensures Later(c, e)
    {
      LaterTransitive(c, d, e);
    }
    Monotone(trace, first, Steps, ConfigurationOk, Later, i, j);
  }

  /** Equal revision numbers mean equal content: of the whole input, of each category pool, of each task pool. */
  ghost predicate NumbersIdentifyContent(c: Configuration, d: Configuration) {
    && |c.input.pools| == |d.input.pools| == 2
    && (c.revision == d.revision ==> c.input == d.input)
    && (c.input.pools[0].revision == d.input.pools[0].revision ==> c.input.pools[0] == d.input.pools[0])
    && (c.input.pools[1].revision == d.input.pools[1].revision ==> c.input.pools[1] == d.input.pools[1])
    && (c.input.normal.revision == d.input.normal.revision ==> c.input.normal == d.input.normal)
    && (c.input.golden.revision == d.input.golden.revision ==> c.input.golden == d.input.golden)
  }

  lemma LaterIdentifies(c: Configuration, d: Configuration)
    requires Later(c, d)
    ensures NumbersIdentifyContent(c, d)
  {
  }

  /** Over every run of revisions from a valid configuration every state is valid, and revision numbers identify
      content between any two points. */
  lemma {:induction false} RevisionNumbersIdentifyContent(first: Configuration, trace: seq<Configuration>, i: nat,
                                                          j: nat)
    requires ConfigurationOk(first) && IsRun(trace, first, Steps) && i <= j < |trace|
    ensures ConfigurationOk(trace[j]) && NumbersIdentifyContent(trace[i], trace[j])
  {
    RunIsLater(first, trace, i, j);
    LaterIdentifies(trace[i], trace[j]);
  }

  // ---------------------------------------------------------------- pool identities along a run

  datatype Slot = Bo1Pool | Bo3Pool | NormalTasks | GoldenTasks

  datatype Pool = OfCategories(categories: CategoryPool) | OfTasks(tasks: TaskPool) {
    function Identity(): Id { if OfCategories? then categories.id else tasks.id }

    function Number(): int { if OfCategories? then categories.revision else tasks.revision }
  }

  function PoolAt(a: Input, slot: Slot): Pool
    requires |a.pools| == 2
  {
    match slot
    case Bo1Pool => OfCategories(a.pools[0])
    case Bo3Pool => OfCategories(a.pools[1])
    case NormalTasks => OfTasks(a.normal)
    case GoldenTasks => OfTasks(a.golden)
  }

  /** All configurations have their two category pools. */
  ghost predicate Paired(cs: seq<Configuration>) {
    forall i {:trigger cs[i]} :: 0 <= i < |cs| ==> |cs[i].input.pools| == 2
  }

  /** The pools that one slot has had along cs. */
  function Pools(cs: seq<Configuration>, slot: Slot): seq<Pool>
    requires Paired(cs)
  {
    seq(|cs|, i requires 0 <= i < |cs| => PoolAt(cs[i].input, slot))
  }

  /** Pools with the same identity are the same pool. */
  ghost predicate IdentitiesTell(pools: seq<Pool>) {
    forall i, j :: 0 <= i < j < |pools| && pools[i].Identity() == pools[j].Identity() ==> pools[i] == pools[j]
  }

  /** Pool k + 1 is the one before it, or has an identity that no earlier one had. */
  ghost predicate Renewed(pools: seq<Pool>, k: nat)
    requires k + 1 < |pools|
  {
    pools[k + 1] == pools[k] || forall j :: 0 <= j <= k ==> pools[j].Identity() != pools[k + 1].Identity()
  }

  /** Each pool is the one before it, or has a higher number. */
  ghost predicate Numbers(pools: seq<Pool>) {
    forall i, j :: 0 <= i < j < |pools| ==> pools[i] == pools[j] || pools[i].Number() < pools[j].Number()
  }

  lemma {:induction false} RenewedTells(pools: seq<Pool>, i: nat, j: nat)
    requires forall k: nat {:trigger Renewed(pools, k)} :: k + 1 < |pools| ==> Renewed(pools, k)
    requires i <= j < |pools| && pools[i].Identity() == pools[j].Identity()
    ensures pools[i] == pools[j]
    decreases j
  {
    if i < j {
      assert Renewed(pools, j - 1);
      RenewedTells(pools, i, j - 1);
    }
  }

  lemma {:induction false} TellsExactly(pools: seq<Pool>)
    requires Numbers(pools)
    ensures IdentitiesTell(pools)
      <==> forall k: nat {:trigger Renewed(pools, k)} :: k + 1 < |pools| ==> Renewed(pools, k)
  {
    if forall k: nat {:trigger Renewed(pools, k)} :: k + 1 < |pools| ==> Renewed(pools, k) {
      forall i, j | 0 <= i < j < |pools| && pools[i].Identity() == pools[j].Identity()
        ensures pools[i] == pools[j]
      {
        RenewedTells(pools, i, j);
      }
    }
  }

  lemma {:induction false} RunIsPaired(first: Configuration, trace: seq<Configuration>, slot: Slot)
    requires ConfigurationOk(first) && IsRun(trace, first, Steps)
    ensures Paired(trace) && Numbers(Pools(trace, slot))
  {
    forall i | 0 <= i < |trace|
      ensures |trace[i].input.pools| == 2
    {
      RunIsLater(first, trace, i, i);
    }
    forall i, j | 0 <= i < j < |trace|
      ensures var pools := Pools(trace, slot); pools[i] == pools[j] || pools[i].Number() < pools[j].Number()
    {
      RunIsLater(first, trace, i, j);
    }
  }

  /** Over every run of revisions: the identities of a slot's pools tell the pools apart exactly when every change
      brings one that no earlier pool of the slot had. The code compares with the direct predecessor only. */
  lemma {:induction false} PoolIdentitiesTellExactly(first: Configuration, trace: seq<Configuration>, slot: Slot)
    requires ConfigurationOk(first) && IsRun(trace, first, Steps)
    ensures Paired(trace)
    ensures IdentitiesTell(Pools(trace, slot))
            <==> forall k: nat {:trigger Renewed(Pools(trace, slot), k)} ::
              k + 1 < |trace| ==> Renewed(Pools(trace, slot), k)
  {
    RunIsPaired(first, trace, slot);
    TellsExactly(Pools(trace, slot));
  }

  lemma RevisionExtends(first: Configuration, trace: seq<Configuration>, in0: Input, d: Configuration)
    requires IsRun(trace, first, Steps) && Revised(trace[|trace| - 1], in0) == Some(d)
    ensures IsRun(trace + [d], first, Steps)
  {
    RunExtended(trace, first, Steps, d);
  }

  /** What a caller can check before a revision that will be accepted: identities that told the pools of a slot apart
      still do afterwards exactly when the pool stays or its new identity is one that the slot has never had. */
  lemma {:induction false} RevisionTellsExactly(first: Configuration, trace: seq<Configuration>, in0: Input,
                                                d: Configuration, slot: Slot)
    requires ConfigurationOk(first) && IsRun(trace, first, Steps) && Revised(trace[|trace| - 1], in0) == Some(d)
    ensures Paired(trace) && Paired(trace + [d]) && |Normalized(in0).pools| == 2
    ensures IdentitiesTell(Pools(trace, slot)) ==>
      (IdentitiesTell(Pools(trace + [d], slot)) <==> NewOrKept(Pools(trace, slot), PoolAt(Normalized(in0), slot)))
  {
    RunIsPaired(first, trace, slot);
    RevisionExtends(first, trace, in0, d);
    RunIsPaired(first, trace + [d], slot);
    RevisedTo(trace[|trace| - 1], in0, d);
    PoolsWithOneMore(trace, d, slot);
    TellsWithOneMore(Pools(trace, slot), PoolAt(d.input, slot));
  }

  /** The pool is the last one, or its identity is none of theirs. */
  predicate NewOrKept(pools: seq<Pool>, next: Pool)
    requires pools != []
  {
    next == pools[|pools| - 1] || forall p :: p in pools ==> p.Identity() != next.Identity()
  }

  lemma PoolsWithOneMore(cs: seq<Configuration>, d: Configuration, slot: Slot)
    requires Paired(cs) && Paired(cs + [d])
    ensures |d.input.pools| == 2 && Pools(cs + [d], slot) == Pools(cs, slot) + [PoolAt(d.input, slot)]
  {
    assert (cs + [d])[|cs|] == d;
  }

  lemma RevisedTo(c: Configuration, in0: Input, d: Configuration)
    requires Revised(c, in0) == Some(d)
    ensures d.input == Normalized(in0) && |Normalized(in0).pools| == 2
  {
    NormalizedShape(in0);
  }

  lemma {:induction false} TellsWithOneMore(pools: seq<Pool>, next: Pool)
    requires pools != [] && Numbers(pools + [next])
    ensures IdentitiesTell(pools) ==> (IdentitiesTell(pools + [next]) <==> NewOrKept(pools, next))
  {
    forall i, j | 0 <= i < j < |pools|
      ensures pools[i] == pools[j] || pools[i].Number() < pools[j].Number()
    {
      assert (pools + [next])[i] == pools[i] && (pools + [next])[j] == pools[j];
    }
    TellsExactly(pools);
    TellsExactly(pools + [next]);
    RenewedMore(pools, next);
  }

  lemma {:induction false} RenewedMore(pools: seq<Pool>, next: Pool)
    requires pools != []
    ensures forall k: nat :: k + 1 < |pools| ==> (Renewed(pools, k) <==> Renewed(pools + [next], k))
    ensures Renewed(pools + [next], |pools| - 1) <==> NewOrKept(pools, next)
  {
    var more, n := pools + [next], |pools| - 1;
    forall k: nat | k + 1 < |pools|
      ensures Renewed(pools, k) <==> Renewed(more, k)
    {
      assert forall j :: 0 <= j <= k + 1 ==> more[j] == pools[j];
    }
    assert forall j :: 0 <= j <= n ==> more[j] == pools[j] && pools[j] in pools;
    assert more[n + 1] == next;
  }

  /** The input of c with another pool of normal tasks, as many revisions later. */
  function WithNormal(c: Configuration, id: Id, later: nat, vs: seq<VersionRef>): Input {
    c.input.(normal := TaskPool(id, c.input.normal.revision + later, Normal, vs))
  }

  /** The code lets the identity of the pool before the last come back: two revisions lead from any configuration to
      one in which another pool has the identity that the first one had. */
  lemma PoolIdentityMayReturn(c: Configuration, other: Id, vs: seq<VersionRef>)
    returns (d: Configuration, e: Configuration)
    requires ConfigurationOk(c) && other != 0 && other != c.input.normal.id
    requires InputOk(WithNormal(c, c.input.normal.id, 2, vs))
    ensures Revised(c, WithNormal(c, other, 1, c.input.normal.versions)) == Some(d)
    ensures Revised(d, WithNormal(c, c.input.normal.id, 2, vs)) == Some(e)
    ensures e.input.normal.id == c.input.normal.id && e.input.normal != c.input.normal
    ensures e.input.normal.versions == SortedVersions(vs)
  {
    var a := WithNormal(c, other, 1, c.input.normal.versions);
    var b := WithNormal(c, c.input.normal.id, 2, vs);
    NormalizedShape(c.input);
    NormalizedShape(a);
    NormalizedShape(b);
    NormalizationIdempotent(a);
    d := Revised(c, a).value;
    e := Revised(d, b).value;
  }
}

/** The canonical form of tournament content, told without its sort functions: what it keeps and how it is ordered. */
module ContentOrder {
  import opened Foundation
  import opened Ordering
  import opened Series
  import opened Content

  /** The name under which a category is stored. */
  function Name(c: Category): Bytes {
    match c
    case Crypto => Ascii("crypto")
    case Forensics => Ascii("forensics")
    case Hardware => Ascii("hardware")
    case Misc => Ascii("misc")
    case Mobile => Ascii("mobile")
    case Osint => Ascii("osint")
    case Ppc => Ascii("ppc")
    case Pwn => Ascii("pwn")
    case Reverse => Ascii("reverse")
    case Stego => Ascii("steganography")
    case Web => Ascii("web")
    case UnknownCategory(_) => []
  }

  const ALPHABETICAL: seq<Category> :=
    [Crypto, Forensics, Hardware, Misc, Mobile, Osint, Ppc, Pwn, Reverse, Stego, Web]

  lemma NextName(i: nat)
    requires i + 1 < |ALPHABETICAL|
    ensures LexLess(Name(ALPHABETICAL[i]), Name(ALPHABETICAL[i + 1]))
  {
    var a, b := Name(ALPHABETICAL[i]), Name(ALPHABETICAL[i + 1]);
    if a[0] == b[0] { assert a[1..][0] < b[1..][0]; }
  }

  lemma {:induction false} LaterName(i: nat, j: nat)
    requires i < j < |ALPHABETICAL|
    ensures LexLess(Name(ALPHABETICAL[i]), Name(ALPHABETICAL[j]))
    decreases j
  {
    NextName(j - 1);
    if i + 1 < j {
      LaterName(i, j - 1);
      LexTransitive(Name(ALPHABETICAL[i]), Name(ALPHABETICAL[j - 1]), Name(ALPHABETICAL[j]));
    }
  }

  lemma RankIsPlace(c: Category)
    requires c.Valid()
    ensures c.Rank() < |ALPHABETICAL| && ALPHABETICAL[c.Rank()] == c
  {
  }

  /** Categories are sorted by name. */
  lemma SortedByName(a: Category, b: Category)
    requires a.Valid() && b.Valid()
    ensures CategoryLess(a, b) <==> ComesBefore(Name(a), Name(b))
  {
    RankIsPlace(a);
    RankIsPlace(b);
    LexLessIsDictionary(Name(a), Name(b));
    LexTrichotomy(Name(a), Name(b));
    if a.Rank() < b.Rank() { LaterName(a.Rank(), b.Rank()); }
    if b.Rank() < a.Rank() { LaterName(b.Rank(), a.Rank()); }
  }

  /** The same pool, its categories ascending by name. */
  ghost predicate OrdersPool(p: CategoryPool, q: CategoryPool) {
    && q == p.(categories := q.categories) && multiset(q.categories) == multiset(p.categories)
    && forall i, j :: 0 <= i < j < |q.categories| ==> ComesBefore(Name(q.categories[i]), Name(q.categories[j]))
  }

  /** The same pool, its versions ascending by task. */
  ghost predicate OrdersTasks(p: TaskPool, q: TaskPool) {
    && q == p.(versions := q.versions) && multiset(q.versions) == multiset(p.versions)
    && forall i, j :: 0 <= i < j < |q.versions| ==> q.versions[i].taskId < q.versions[j].taskId
  }

  lemma {:induction false} PoolIsOrdered(p: CategoryPool)
    requires PoolOk(p)
    ensures OrdersPool(p, CanonicalPool(p))
  {
    var cs := CanonicalPool(p).categories;
    Orders();
    SortBySorts(p.categories, CategoryLess);
    DistinctPermutation(cs, p.categories);
    forall i, j | 0 <= i < j < |cs|
      ensures ComesBefore(Name(cs[i]), Name(cs[j]))
    {
      assert cs[i] in p.categories && cs[j] in p.categories;
      SortedAt(cs, CategoryLess, i, j);
      RankIsPlace(cs[i]);
      RankIsPlace(cs[j]);
      SortedByName(cs[i], cs[j]);
    }
  }

  lemma {:induction false} TasksAreOrdered(p: TaskPool, kind: TaskKind)
    requires TaskPoolOk(p, kind)
    ensures OrdersTasks(p, CanonicalTasks(p))
  {
    var vs := CanonicalTasks(p).versions;
    Orders();
    SortBySorts(p.versions, VersionLess);
    VersionsIgnoreOrder(p.versions, vs);
    forall i, j | 0 <= i < j < |vs|
      ensures vs[i].taskId < vs[j].taskId
    {
      SortedAt(vs, VersionLess, i, j);
      assert vs[i] in vs && vs[j] in vs && vs[i] != vs[j];
      assert !SameTask(vs[i], vs[j]);
    }
  }

  ghost predicate Has(ps: seq<CategoryPool>, p: CategoryPool) { exists q :: q in ps && OrdersPool(p, q) }

  lemma {:induction false} PoolIsKept(ps: seq<CategoryPool>, p: CategoryPool)
    requires p in ps && PoolOk(p)
    ensures Has(SortedPools(CanonicalPools(ps)), p)
  {
    var cs := CanonicalPools(ps);
    Orders();
    SortBySorts(cs, FormatLess);
    DistinctPermutation(SortedPools(cs), cs);
    PoolIsOrdered(p);
    var i :| 0 <= i < |ps| && ps[i] == p;
    assert cs[i] in SortedPools(cs);
  }

  lemma {:induction false} DefaultsAreKept(ds: seq<StageDefault>)
    ensures multiset(SortedDefaults(ds)) == multiset(ds)
  {
    Orders();
    SortBySorts(ds, StageLess);
  }

  lemma EveryPoolOk(ps: seq<CategoryPool>, p: CategoryPool)
    requires PoolsOk(ps) && p in ps
    ensures PoolOk(p)
  {
  }

  /** Normalising keeps the tournament, the number of reserves, and every pool and stage default with its content. It
      orders the BO1 pool before the BO3 pool, categories by name, and versions by task. */
  lemma {:induction false} NormalizedContent(a: Input)
    requires InputOk(a)
    ensures var n := Normalized(a);
      && n.tournament == a.tournament && n.reserves == a.reserves
      && |n.pools| == 2 && n.pools[0].format == BO1 && n.pools[1].format == BO3
      && (forall p :: p in a.pools ==> Has(n.pools, p))
      && OrdersTasks(a.normal, n.normal) && OrdersTasks(a.golden, n.golden)
      && multiset(n.defaults) == multiset(a.defaults)
  {
    NormalizedShape(a);
    DefaultsAreKept(a.defaults);
    TasksAreOrdered(a.normal, TaskKind.Normal);
    TasksAreOrdered(a.golden, TaskKind.Golden);
    forall p | p in a.pools
      ensures Has(Normalized(a).pools, p)
    {
      EveryPoolOk(a.pools, p);
      PoolIsKept(a.pools, p);
    }
  }
}

/** Directed paths over revision dependencies, independent of how a graph stores its edges. */
module RevisionPaths {
  import opened Foundation

  /** The derived revision was computed from the source revision. */
  datatype Dependency = Dependency(source: Id, derived: Id)

  /** p walks from a derived revision to ever earlier sources, over at least one edge. */
  ghost predicate IsPath(edges: set<Dependency>, p: seq<Id>) {
    |p| >= 2 && forall i :: 0 <= i < |p| - 1 ==> Dependency(p[i + 1], p[i]) in edges
  }

  /** A non-empty path leads from a to b. */
  ghost predicate Reaches(edges: set<Dependency>, a: Id, b: Id) {
    exists p :: IsPath(edges, p) && p[0] == a && p[|p| - 1] == b
  }

  ghost predicate Acyclic(edges: set<Dependency>) {
    forall a :: !Reaches(edges, a, a)
  }

  lemma EdgeReaches(edges: set<Dependency>, a: Id, b: Id)
    requires Dependency(b, a) in edges
    ensures Reaches(edges, a, b)
  {
    assert IsPath(edges, [a, b]);
  }

  lemma ReachesTransitive(edges: set<Dependency>, a: Id, b: Id, c: Id)
    requires Reaches(edges, a, b) && Reaches(edges, b, c)
    ensures Reaches(edges, a, c)
  {
    var p :| IsPath(edges, p) && p[0] == a && p[|p| - 1] == b;
    var q :| IsPath(edges, q) && q[0] == b && q[|q| - 1] == c;
    var r := p + q[1..];
    forall i | 0 <= i < |r| - 1
      ensures Dependency(r[i + 1], r[i]) in edges
    {
      if i >= |p| - 1 {
        assert r[i] == q[i - (|p| - 1)] && r[i + 1] == q[i - (|p| - 1) + 1];
      }
    }
    assert IsPath(edges, r);
  }

  /** A relation that holds along every edge and composes holds along every path. */
  lemma {:induction false} AlongPath(edges: set<Dependency>, p: seq<Id>, related: (Id, Id) -> bool)
    requires IsPath(edges, p)
    requires forall e :: e in edges ==> related(e.derived, e.source)
    requires forall a, b, c :: related(a, b) && related(b, c) ==> related(a, c)
    ensures related(p[0], p[|p| - 1])
    decreases |p|
  {
    assert Dependency(p[1], p[0]) in edges;
    if |p| > 2 {
      forall i | 0 <= i < |p[1..]| - 1
        ensures Dependency(p[1..][i + 1], p[1..][i]) in edges
      {
        assert Dependency(p[i + 2], p[i + 1]) in edges;
      }
      AlongPath(edges, p[1..], related);
    }
  }

  /** No path leaves a set that contains the sources of its members. */
  lemma ClosedSetKeepsPaths(edges: set<Dependency>, closed: set<Id>, a: Id, b: Id)
    requires forall e :: e in edges && e.derived in closed ==> e.source in closed
    requires a in closed && Reaches(edges, a, b)
    ensures exists e :: e in edges && e.derived in closed && e.source == b
  {
    var p :| IsPath(edges, p) && p[0] == a && p[|p| - 1] == b;
    var k := 0;
    while k < |p| - 2
      invariant 0 <= k <= |p| - 2
      invariant p[k] in closed
    {
      assert Dependency(p[k + 1], p[k]) in edges;
      k := k + 1;
    }
    assert Dependency(p[k + 1], p[k]) in edges;
  }

  /** In a finish order the sources of every entry come strictly earlier. */
  ghost predicate FinishOrder(edges: set<Dependency>, finished: seq<Id>) {
    && Distinct(finished)
    && forall i, source :: 0 <= i < |finished| && Dependency(source, finished[i]) in edges ==> source in finished[..i]
  }

  lemma {:induction false} PathDescends(edges: set<Dependency>, finished: seq<Id>, p: seq<Id>, i: nat)
    requires FinishOrder(edges, finished) && IsPath(edges, p)
    requires i < |finished| && finished[i] == p[0]
    ensures p[|p| - 1] in finished[..i]
    decreases |p|
  {
    assert Dependency(p[1], finished[i]) in edges;
    var j :| 0 <= j < i && finished[j] == p[1];
    if |p| > 2 {
      var q := p[1..];
      forall k | 0 <= k < |q| - 1
        ensures Dependency(q[k + 1], q[k]) in edges
      {
        assert Dependency(p[k + 2], p[k + 1]) in edges;
      }
      PathDescends(edges, finished, q, j);
    }
  }

  lemma FinishOrderAcyclic(edges: set<Dependency>, finished: seq<Id>)
    requires FinishOrder(edges, finished)
    requires forall e :: e in edges ==> e.derived in finished
    ensures Acyclic(edges)
  {
    forall a | Reaches(edges, a, a)
      ensures false
    {
      var p :| IsPath(edges, p) && p[0] == a && p[|p| - 1] == a;
      assert Dependency(p[1], p[0]) in edges;
      var i :| 0 <= i < |finished| && finished[i] == a;
      PathDescends(edges, finished, p, i);
    }
  }
}

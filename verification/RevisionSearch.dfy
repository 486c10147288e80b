/** The two graph searches of the revision graph: three-colour cycle detection and the worklist behind
    transitive dependency queries. Both read the adjacency map that indexing has filled. */
module RevisionSearch {
  import opened Foundation
  import opened RevisionPaths

  type Sources = map<Id, seq<Id>>

  /** Reading a missing key of a Go map yields the nil slice. */
  function SourcesOf(sources: Sources, id: Id): seq<Id> {
    if id in sources then sources[id] else []
  }

  ghost predicate Represents(sources: Sources, edges: set<Dependency>) {
    forall derived, source :: source in SourcesOf(sources, derived) <==> Dependency(source, derived) in edges
  }

  ghost predicate EdgesWithin(edges: set<Dependency>, nodes: set<Id>) {
    forall e :: e in edges ==> e.source in nodes && e.derived in nodes
  }

  datatype Mark = Visiting | Visited

  /** The colouring in mid-search: finished lists the visited nodes in the order they were left. */
  ghost predicate Colouring(edges: set<Dependency>, nodes: set<Id>, state: map<Id, Mark>, finished: seq<Id>) {
    && state.Keys <= nodes
    && FinishOrder(edges, finished)
    && forall x :: x in finished <==> x in state && state[x] == Visited
  }

  ghost predicate OnStack(state: map<Id, Mark>, x: Id) {
    x in state && state[x] == Visiting
  }

  /** One call of the recursive visitor. Nodes not yet coloured become fewer with every nested call. */
  method Visit(sources: Sources, id: Id, state: map<Id, Mark>,
               ghost edges: set<Dependency>, ghost nodes: set<Id>, ghost finished: seq<Id>)
    returns (found: bool, state': map<Id, Mark>, ghost finished': seq<Id>)
    requires Represents(sources, edges) && EdgesWithin(edges, nodes) && id in nodes
    requires Colouring(edges, nodes, state, finished)
    requires forall x :: OnStack(state, x) ==> Reaches(edges, x, id)
    ensures found ==> !Acyclic(edges)
    ensures !found ==> Colouring(edges, nodes, state', finished') && id in finished'
    ensures !found ==> state.Keys <= state'.Keys && forall x :: x in finished ==> x in finished'
    ensures !found ==> forall x :: OnStack(state', x) <==> OnStack(state, x)
    decreases nodes - state.Keys
  {
    state', finished' := state, finished;
    if id in state && state[id] == Visiting {
      assert OnStack(state, id);
      return true, state', finished';
    }
    if id in state && state[id] == Visited {
      return false, state', finished';
    }
    state' := state'[id := Visiting];
    assert id in nodes - state.Keys && id !in nodes - state'.Keys;
    var list := SourcesOf(sources, id);
    for k := 0 to |list|
      invariant Colouring(edges, nodes, state', finished')
      invariant state.Keys + {id} <= state'.Keys && forall x :: x in finished ==> x in finished'
      invariant forall x :: OnStack(state', x) <==> OnStack(state, x) || x == id
      invariant forall m :: 0 <= m < k ==> list[m] in finished'
    {
      assert list[k] in SourcesOf(sources, id);
      EdgeReaches(edges, id, list[k]);
      forall x | OnStack(state', x)
        ensures Reaches(edges, x, list[k])
      {
        if x != id { ReachesTransitive(edges, x, id, list[k]); }
      }
      found, state', finished' := Visit(sources, list[k], state', edges, nodes, finished');
      if found {
        return;
      }
    }
    forall source | Dependency(source, id) in edges
      ensures source in finished'
    {
      assert source in list;
    }
    ghost var before := finished';
    assert OnStack(state', id);
    finished' := finished' + [id];
    state' := state'[id := Visited];
    assert FinishOrder(edges, finished') by {
      forall i, source | 0 <= i < |finished'| && Dependency(source, finished'[i]) in edges
        ensures source in finished'[..i]
      {
        assert finished'[..i] == before[..i];
        if i == |before| { assert before[..i] == before; }
      }
    }
    found := false;
  }

  /** Cycle detection from every node, in whatever order the map hands them out. */
  method HasCycle(sources: Sources, nodes: set<Id>, ghost edges: set<Dependency>) returns (found: bool)
    requires Represents(sources, edges) && EdgesWithin(edges, nodes)
    ensures found <==> !Acyclic(edges)
  {
    var state: map<Id, Mark> := map[];
    ghost var finished: seq<Id> := [];
    var remaining := nodes;
    while remaining != {}
      invariant remaining <= nodes
      invariant Colouring(edges, nodes, state, finished)
      invariant forall x :: !OnStack(state, x)
      invariant forall x :: x in nodes - remaining ==> x in finished
    {
      var id :| id in remaining;
      remaining := remaining - {id};
      found, state, finished := Visit(sources, id, state, edges, nodes, finished);
      if found {
        return;
      }
    }
    FinishOrderAcyclic(edges, finished);
    found := false;
  }

  /** The pending stack may hold an identity several times; each round either visits a new node or shortens
      the stack. */
  method Search(sources: Sources, derived: Id, wanted: Id, ghost edges: set<Dependency>, ghost nodes: set<Id>)
    returns (found: bool)
    requires Represents(sources, edges) && EdgesWithin(edges, nodes)
    ensures found <==> Reaches(edges, derived, wanted)
  {
    var visited: set<Id> := {};
    var pending := [derived];
    ghost var universe := nodes + {derived};
    while |pending| > 0
      invariant visited <= universe && forall x :: x in pending ==> x in universe
      invariant forall x :: x in visited || x in pending ==> x == derived || Reaches(edges, derived, x)
      invariant derived in visited || derived in pending
      invariant forall e :: e in edges && e.derived in visited ==>
                  e.source != wanted && (e.source in visited || e.source in pending)
      decreases universe - visited, |pending|
    {
      var current := pending[|pending| - 1];
      ghost var stack := pending;
      pending := pending[..|pending| - 1];
      assert stack == pending + [current];
      if current in visited {
        continue;
      }
      assert current in universe - visited;
      visited := visited + {current};
      var list := SourcesOf(sources, current);
      for k := 0 to |list|
        invariant forall x :: x in stack ==> x == current || x in pending
        invariant forall x :: x in pending ==> x in universe && (x == derived || Reaches(edges, derived, x))
        invariant forall m :: 0 <= m < k ==> list[m] != wanted && list[m] in pending
      {
        assert list[k] in SourcesOf(sources, current);
        EdgeReaches(edges, current, list[k]);
        if current != derived { ReachesTransitive(edges, derived, current, list[k]); }
        if list[k] == wanted {
          return true;
        }
        pending := pending + [list[k]];
      }
      forall e | e in edges && e.derived == current
        ensures e.source != wanted && e.source in pending
      {
        assert e == Dependency(e.source, current);
        assert e.source in list;
      }
    }
    if Reaches(edges, derived, wanted) {
      ClosedSetKeepsPaths(edges, visited, derived, wanted);
    }
    found := false;
  }
}

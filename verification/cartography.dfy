/**
 One validated map revision as the queries see it: entities, relationships, and the adjacency
 indexes built from them.  Entity and relationship ids are numbers, compared as the source
 compares its text ids.
 */
module Cartography {
  import opened Sorting

  type EntityId = nat

  datatype Edge = Edge(id: nat, source: EntityId, target: EntityId)

  datatype Revision = Revision(entities: set<EntityId>, relationships: seq<Edge>) {
    /** What revision validation guarantees: unique relationship ids, known endpoints, no loops. */
    ghost predicate Valid() {
      && UniqueIds(relationships)
      && forall e :: e in relationships ==> e.source in entities && e.target in entities && e.source != e.target
    }
  }

  ghost predicate UniqueIds(edges: seq<Edge>) {
    forall i, j :: 0 <= i < j < |edges| ==> edges[i].id != edges[j].id
  }

  ghost predicate Increasing(edges: seq<Edge>) {
    forall i, j :: 0 <= i < j < |edges| ==> edges[i].id < edges[j].id
  }

  lemma SameIdSameEdge(edges: seq<Edge>, a: Edge, b: Edge)
    requires UniqueIds(edges) && a in edges && b in edges && a.id == b.id
    ensures a == b
  {
    var i :| 0 <= i < |edges| && edges[i] == a;
    var j :| 0 <= j < |edges| && edges[j] == b;
    assert i < j || j < i || i == j;
  }

  // ----- sorting by relationship id -----

  function EdgeKey(e: Edge): nat { e.id }

  function ById(edges: seq<Edge>): seq<Edge> { Sort(edges, EdgeKey) }

  lemma ByIdSorts(edges: seq<Edge>)
    requires UniqueIds(edges)
    ensures Increasing(ById(edges))
    ensures forall x :: x in ById(edges) <==> x in edges
  {
    SortSorts(edges, EdgeKey);
    SameMembers(edges, ById(edges));
    UniqueKeysPermute(edges, ById(edges), EdgeKey);
    forall i, j | 0 <= i < j < |edges| ensures ById(edges)[i].id < ById(edges)[j].id {
      assert EdgeKey(ById(edges)[i]) <= EdgeKey(ById(edges)[j]);
    }
  }

  // ----- adjacency -----

  function Edges(adjacency: map<EntityId, seq<Edge>>, v: EntityId): seq<Edge> {
    if v in adjacency then adjacency[v] else []
  }

  /** The relationships leaving an entity, in listed order. */
  function Leaving(edges: seq<Edge>, v: EntityId): (r: seq<Edge>)
    ensures forall x :: x in r <==> x in edges && x.source == v
  {
    if edges == [] then []
    else
      var last := edges[|edges| - 1];
      Leaving(edges[..|edges| - 1], v) + if last.source == v then [last] else []
  }

  /** The relationships touching an entity, in listed order; a loop would be listed twice. */
  function Touching(edges: seq<Edge>, v: EntityId): (r: seq<Edge>)
    ensures forall x :: x in r <==> x in edges && (x.source == v || x.target == v)
  {
    if edges == [] then []
    else
      var last := edges[|edges| - 1];
      Touching(edges[..|edges| - 1], v) + (if last.source == v then [last] else []) +
        (if last.target == v then [last] else [])
  }

  lemma {:induction false} LeavingUnique(edges: seq<Edge>, v: EntityId)
    requires UniqueIds(edges)
    ensures UniqueIds(Leaving(edges, v))
  {
    if edges != [] {
      var before := edges[..|edges| - 1];
      LeavingUnique(before, v);
      forall i | 0 <= i < |Leaving(before, v)| ensures Leaving(before, v)[i].id != edges[|edges| - 1].id {
        assert Leaving(before, v)[i] in before;
      }
    }
  }

  lemma {:induction false} TouchingUnique(edges: seq<Edge>, v: EntityId)
    requires UniqueIds(edges) && forall e :: e in edges ==> e.source != e.target
    ensures UniqueIds(Touching(edges, v))
  {
    if edges != [] {
      var before := edges[..|edges| - 1];
      TouchingUnique(before, v);
      forall i | 0 <= i < |Touching(before, v)| ensures Touching(before, v)[i].id != edges[|edges| - 1].id {
        assert Touching(before, v)[i] in before;
      }
    }
  }

  /** Sorting every list of an adjacency dictionary. */
  function SortedLists(adjacency: map<EntityId, seq<Edge>>): map<EntityId, seq<Edge>> {
    map v | v in adjacency :: ById(adjacency[v])
  }

  /** `_outgoing_adjacency`. */
  method Outgoing(edges: seq<Edge>) returns (adjacency: map<EntityId, seq<Edge>>)
    requires UniqueIds(edges)
    ensures forall v: EntityId :: Increasing(Edges(adjacency, v))
    ensures forall v: EntityId, x :: x in Edges(adjacency, v) <==> x in edges && x.source == v
  {
    var lists: map<EntityId, seq<Edge>> := map[];
    for i := 0 to |edges|
      invariant forall v: EntityId :: Edges(lists, v) == Leaving(edges[..i], v)
    {
      assert edges[..i + 1][..i] == edges[..i] && edges[..i + 1][i] == edges[i];
      lists := lists[edges[i].source := Edges(lists, edges[i].source) + [edges[i]]];
    }
    assert edges[..|edges|] == edges;
    adjacency := SortedLists(lists);
    forall v: EntityId
      ensures Increasing(Edges(adjacency, v)) && forall x :: x in Edges(adjacency, v) <==> x in edges && x.source == v
    {
      LeavingUnique(edges, v);
      ByIdSorts(Leaving(edges, v));
      assert Edges(lists, v) == Leaving(edges, v);
      assert Edges(adjacency, v) == ById(Leaving(edges, v));
    }
  }

  /** `_undirected_adjacency`. */
  method Undirected(edges: seq<Edge>) returns (adjacency: map<EntityId, seq<Edge>>)
    requires UniqueIds(edges) && forall e :: e in edges ==> e.source != e.target
    ensures forall v: EntityId :: Increasing(Edges(adjacency, v))
    ensures forall v: EntityId, x :: x in Edges(adjacency, v) <==> x in edges && (x.source == v || x.target == v)
  {
    var lists: map<EntityId, seq<Edge>> := map[];
    for i := 0 to |edges|
      invariant forall v: EntityId :: Edges(lists, v) == Touching(edges[..i], v)
    {
      assert edges[..i + 1][..i] == edges[..i] && edges[..i + 1][i] == edges[i];
      lists := lists[edges[i].source := Edges(lists, edges[i].source) + [edges[i]]];
      lists := lists[edges[i].target := Edges(lists, edges[i].target) + [edges[i]]];
    }
    assert edges[..|edges|] == edges;
    adjacency := SortedLists(lists);
    forall v: EntityId
      ensures Increasing(Edges(adjacency, v))
      ensures forall x :: x in Edges(adjacency, v) <==> x in edges && (x.source == v || x.target == v)
    {
      TouchingUnique(edges, v);
      ByIdSorts(Touching(edges, v));
      assert Edges(lists, v) == Touching(edges, v);
      assert Edges(adjacency, v) == ById(Touching(edges, v));
    }
  }

  /** Both searches end: the queue shrinks, or what is left to visit does. */
  lemma VisitsShrink(universe: set<EntityId>, visited: set<EntityId>, seen: set<EntityId>, before: nat, after: nat)
    requires visited <= seen <= universe && after - before == |seen| - |visited|
    ensures universe - seen < universe - visited || (universe - seen == universe - visited && after == before)
  {
    if universe - seen == universe - visited {
      assert seen == universe - (universe - seen) && visited == universe - (universe - visited);
    }
  }
}

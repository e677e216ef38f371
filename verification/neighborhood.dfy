/**
 `CartographyQueries.neighborhood`: a bounded breadth-first expansion, ignoring direction, measured
 against the ball of entities within the depth.
 */
module Neighborhoods {
  import opened Cartography
  import opened Sorting

  // ----- the ball -----

  /** The other end of a relationship. */
  function Other(e: Edge, v: EntityId): EntityId { if e.source == v then e.target else e.source }

  predicate Joins(e: Edge, v: EntityId) { e.source == v || e.target == v }

  /** The entities within some number of steps of the seeds. */
  function Ball(edges: seq<Edge>, seeds: set<EntityId>, depth: nat): set<EntityId> {
    if depth == 0 then seeds else Grow(edges, Ball(edges, seeds, depth - 1))
  }

  function Grow(edges: seq<Edge>, inner: set<EntityId>): set<EntityId> {
    inner + (set e | e in edges && e.source in inner :: e.target) +
      (set e | e in edges && e.target in inner :: e.source)
  }

  /** Each ball is the previous one with its neighbours. */
  ghost predicate Ring(edges: seq<Edge>, ball: nat -> set<EntityId>, k: nat) { ball(k + 1) == Grow(edges, ball(k)) }

  /** All that the search needs to know about the balls. */
  ghost predicate Grown(edges: seq<Edge>, ball: nat -> set<EntityId>) { forall k: nat :: Ring(edges, ball, k) }

  lemma {:induction false} Nested(edges: seq<Edge>, ball: nat -> set<EntityId>, small: nat, large: nat)
    requires Grown(edges, ball) && small <= large
    ensures ball(small) <= ball(large)
    decreases large
  {
    if small < large {
      Nested(edges, ball, small, large - 1);
      assert Ring(edges, ball, large - 1);
    }
  }

  // ----- the expansion -----

  datatype Found = Found(entities: set<EntityId>, relationships: set<Edge>, truncated: bool)

  datatype Answer = BadDepth | BadLimit | Unknown(id: EntityId) | Near(found: Found)

  /** A queued entity and the depth it was found at. */
  datatype Item = Item(at: EntityId, depth: nat)

  /** What was queued so far: never deeper than one step past the front, and each at its true distance. */
  ghost predicate Layered(ball: nat -> set<EntityId>, depth: nat, order: seq<Item>, done: nat) {
    && done <= |order|
    && (forall i, j :: 0 <= i < j < |order| ==> order[i].depth <= order[j].depth)
    && (forall i :: 0 <= i < |order| ==> Placed(ball, depth, order[i]))
    && (done < |order| ==> order[|order| - 1].depth <= order[done].depth + 1)
  }

  /** Found at its distance from the seeds. */
  ghost predicate Placed(ball: nat -> set<EntityId>, depth: nat, item: Item) {
    && item.depth <= depth
    && item.at in ball(item.depth)
    && (item.depth > 0 ==> item.at !in ball(item.depth - 1))
  }

  /** `at` locates an entry of every discovered entity. */
  ghost predicate Located(order: seq<Item>, at: map<EntityId, nat>) {
    && (forall i :: 0 <= i < |order| ==> order[i].at in at)
    && (forall v :: v in at ==> at[v] < |order| && order[at[v]].at == v)
  }

  ghost predicate NeighboursIn(edges: seq<Edge>, v: EntityId, discovered: set<EntityId>) {
    forall e :: e in edges && Joins(e, v) ==> Other(e, v) in discovered
  }

  /** Nothing was cut off: the finished entities inside the depth have all their neighbours. */
  ghost predicate Closed(edges: seq<Edge>, depth: nat, order: seq<Item>, done: nat, discovered: set<EntityId>)
    requires done <= |order|
  {
    forall i :: 0 <= i < done && order[i].depth < depth ==> NeighboursIn(edges, order[i].at, discovered)
  }

  /** An entity of the ball that was found was found early enough. */
  lemma FoundInTime(edges: seq<Edge>, ball: nat -> set<EntityId>, depth: nat, item: Item, k: nat)
    requires Grown(edges, ball)
    requires Placed(ball, depth, item) && item.at in ball(k)
    ensures item.depth <= k
  {
    if item.depth > k { Nested(edges, ball, k, item.depth - 1); }
  }

  lemma GrowInside(edges: seq<Edge>, inner: set<EntityId>, all: set<EntityId>)
    requires inner <= all && forall v :: v in inner ==> NeighboursIn(edges, v, all)
    ensures Grow(edges, inner) <= all
  {
    forall e, v | e in edges && v in inner && Joins(e, v) ensures Other(e, v) in all {
      assert NeighboursIn(edges, v, all);
    }
  }

  /** Without cuts, every ball up to the front's depth has been discovered. */
  lemma {:induction false} BallDiscovered(
    edges: seq<Edge>, ball: nat -> set<EntityId>, depth: nat, order: seq<Item>, at: map<EntityId, nat>, done: nat,
    k: nat)
    requires Grown(edges, ball)
    requires Layered(ball, depth, order, done) && Located(order, at) && ball(0) <= at.Keys
    requires Closed(edges, depth, order, done, at.Keys)
    requires k <= depth && (done < |order| ==> k <= order[done].depth)
    ensures ball(k) <= at.Keys
  {
    if k > 0 {
      BallDiscovered(edges, ball, depth, order, at, done, k - 1);
      assert Ring(edges, ball, k - 1);
      forall v | v in ball(k - 1) ensures NeighboursIn(edges, v, at.Keys) {
        var i := at[v];
        FoundInTime(edges, ball, depth, order[i], k - 1);
        assert i < done;
      }
      GrowInside(edges, ball(k - 1), at.Keys);
    }
  }

  /** Something within the depth was left out. */
  ghost predicate Cut(ball: nat -> set<EntityId>, depth: nat, discovered: set<EntityId>) {
    exists v :: v in ball(depth) && v !in discovered
  }

  /** A neighbour of an entity inside the depth is within the depth. */
  lemma NeighbourInside(edges: seq<Edge>, ball: nat -> set<EntityId>, depth: nat, item: Item, e: Edge)
    requires Grown(edges, ball)
    requires Placed(ball, depth, item) && item.depth < depth && e in edges && Joins(e, item.at)
    ensures Other(e, item.at) in ball(item.depth + 1)
    ensures Other(e, item.at) in ball(depth)
  {
    assert Ring(edges, ball, item.depth);
    Nested(edges, ball, item.depth + 1, depth);
  }

  /** The relationships with an end nearer than the depth. */
  ghost predicate NearEdge(ball: nat -> set<EntityId>, depth: nat, e: Edge) {
    depth > 0 && (e.source in ball(depth - 1) || e.target in ball(depth - 1))
  }

  ghost predicate JoinedIn(edges: seq<Edge>, v: EntityId, selected: set<Edge>) {
    forall e :: e in edges && Joins(e, v) ==> e in selected
  }

  /** The relationships selected so far: those of the finished entities inside the depth. */
  ghost predicate Selected(edges: seq<Edge>, ball: nat -> set<EntityId>, depth: nat, order: seq<Item>, done: nat,
      selected: set<Edge>)
    requires done <= |order|
  {
    && (forall e :: e in selected ==> e in edges && NearEdge(ball, depth, e))
    && (forall i :: 0 <= i < done && order[i].depth < depth ==> JoinedIn(edges, order[i].at, selected))
  }

  /** Everything up to some distance was found, and nothing beyond the next one. */
  ghost predicate Sliced(ball: nat -> set<EntityId>, depth: nat, discovered: set<EntityId>, d: nat) {
    d < depth && ball(d) <= discovered <= ball(d + 1)
  }

  ghost predicate SlicedSomewhere(ball: nat -> set<EntityId>, depth: nat, discovered: set<EntityId>) {
    exists d: nat :: Sliced(ball, depth, discovered, d)
  }

  /** What the outer loop maintains. */
  ghost predicate Expanding(
    edges: seq<Edge>, ball: nat -> set<EntityId>, depth: nat, limit: nat,
    order: seq<Item>, at: map<EntityId, nat>, done: nat, truncated: bool, selected: set<Edge>)
  {
    && Layered(ball, depth, order, done) && Located(order, at) && ball(0) <= at.Keys
    && (if truncated then Cut(ball, depth, at.Keys) && |at.Keys| >= limit && SlicedSomewhere(ball, depth, at.Keys)
        else Closed(edges, depth, order, done, at.Keys))
    && (|at.Keys| <= limit || at.Keys == ball(0))
    && Selected(edges, ball, depth, order, done, selected)
  }

  /** The relationships touching an entity. */
  ghost predicate At(edges: seq<Edge>, v: EntityId, out: seq<Edge>) {
    forall x :: x in out <==> x in edges && Joins(x, v)
  }

  /** What the inner loop maintains after the first `j` relationships of the head. */
  ghost predicate Trying(
    edges: seq<Edge>, ball: nat -> set<EntityId>, depth: nat, limit: nat, out: seq<Edge>, j: nat,
    order: seq<Item>, at: map<EntityId, nat>, done: nat, truncated: bool, selected: set<Edge>)
  {
    && Expanding(edges, ball, depth, limit, order, at, done, truncated, selected)
    && done < |order| && order[done].depth < depth && j <= |out| && At(edges, order[done].at, out)
    && (forall x :: 0 <= x < j ==> out[x] in selected)
    && (!truncated ==> forall x :: 0 <= x < j ==> Other(out[x], order[done].at) in at)
  }

  lemma TrySelect(
    edges: seq<Edge>, ball: nat -> set<EntityId>, depth: nat, limit: nat, out: seq<Edge>, j: nat,
    order: seq<Item>, at: map<EntityId, nat>, done: nat, truncated: bool, selected: set<Edge>)
    requires Grown(edges, ball)
    requires Trying(edges, ball, depth, limit, out, j, order, at, done, truncated, selected) && j < |out|
    ensures Selected(edges, ball, depth, order, done, selected + {out[j]})
  {
    assert out[j] in out;
    assert Placed(ball, depth, order[done]);
    Nested(edges, ball, order[done].depth, depth - 1);
    forall i | 0 <= i < done && order[i].depth < depth ensures JoinedIn(edges, order[i].at, selected + {out[j]}) {
      assert JoinedIn(edges, order[i].at, selected);
    }
  }

  lemma TryKnown(
    edges: seq<Edge>, ball: nat -> set<EntityId>, depth: nat, limit: nat, out: seq<Edge>, j: nat,
    order: seq<Item>, at: map<EntityId, nat>, done: nat, truncated: bool, selected: set<Edge>)
    requires Grown(edges, ball)
    requires Trying(edges, ball, depth, limit, out, j, order, at, done, truncated, selected) && j < |out|
    requires Other(out[j], order[done].at) in at
    ensures Trying(edges, ball, depth, limit, out, j + 1, order, at, done, truncated, selected + {out[j]})
  {
    TrySelect(edges, ball, depth, limit, out, j, order, at, done, truncated, selected);
  }

  lemma TryCut(
    edges: seq<Edge>, ball: nat -> set<EntityId>, depth: nat, limit: nat, out: seq<Edge>, j: nat,
    order: seq<Item>, at: map<EntityId, nat>, done: nat, truncated: bool, selected: set<Edge>)
    requires Grown(edges, ball)
    requires Trying(edges, ball, depth, limit, out, j, order, at, done, truncated, selected) && j < |out|
    requires Other(out[j], order[done].at) !in at && |at.Keys| >= limit
    ensures Trying(edges, ball, depth, limit, out, j + 1, order, at, done, true, selected + {out[j]})
  {
    TrySelect(edges, ball, depth, limit, out, j, order, at, done, truncated, selected);
    assert out[j] in out;
    NeighbourInside(edges, ball, depth, order[done], out[j]);
    if !truncated { FrontSlices(edges, ball, depth, order, at, done); }
  }

  /** Until something is cut off, the front tells how far the search has come. */
  lemma FrontSlices(
    edges: seq<Edge>, ball: nat -> set<EntityId>, depth: nat, order: seq<Item>, at: map<EntityId, nat>, done: nat)
    requires Grown(edges, ball)
    requires Layered(ball, depth, order, done) && Located(order, at) && ball(0) <= at.Keys
    requires Closed(edges, depth, order, done, at.Keys) && done < |order| && order[done].depth < depth
    ensures Sliced(ball, depth, at.Keys, order[done].depth)
  {
    BallDiscovered(edges, ball, depth, order, at, done, order[done].depth);
    forall v | v in at ensures v in ball(order[done].depth + 1) {
      assert Placed(ball, depth, order[at[v]]);
      Nested(edges, ball, order[at[v]].depth, order[done].depth + 1);
    }
  }

  function NewItem(head: Item, e: Edge): Item { Item(Other(e, head.at), head.depth + 1) }

  lemma NewIsPlaced(
    edges: seq<Edge>, ball: nat -> set<EntityId>, depth: nat, order: seq<Item>, at: map<EntityId, nat>, done: nat,
    e: Edge)
    requires Grown(edges, ball)
    requires Layered(ball, depth, order, done) && Located(order, at) && ball(0) <= at.Keys
    requires done < |order| && order[done].depth < depth && Closed(edges, depth, order, done, at.Keys)
    requires e in edges && Joins(e, order[done].at) && Other(e, order[done].at) !in at
    ensures Layered(ball, depth, order + [NewItem(order[done], e)], done)
  {
    assert Placed(ball, depth, order[done]);
    NeighbourInside(edges, ball, depth, order[done], e);
    BallDiscovered(edges, ball, depth, order, at, done, order[done].depth);
  }

  lemma NewLocated(order: seq<Item>, at: map<EntityId, nat>, item: Item)
    requires Located(order, at) && item.at !in at
    ensures Located(order + [item], at[item.at := |order|]) && at[item.at := |order|].Keys == at.Keys + {item.at}
    ensures |at[item.at := |order|].Keys| == |at.Keys| + 1
  {
    assert at[item.at := |order|].Keys == at.Keys + {item.at};
  }

  /** One more discovery spoils nothing that was complete. */
  lemma NewKeeps(
    edges: seq<Edge>, ball: nat -> set<EntityId>, depth: nat, order: seq<Item>, done: nat,
    known: set<EntityId>, item: Item, closed: bool, selected: set<Edge>)
    requires done < |order| && Selected(edges, ball, depth, order, done, selected)
    requires closed ==> Closed(edges, depth, order, done, known)
    ensures Selected(edges, ball, depth, order + [item], done, selected)
    ensures closed ==> Closed(edges, depth, order + [item], done, known + {item.at})
  {
    var longer := order + [item];
    forall i | 0 <= i < done && longer[i].depth < depth
      ensures JoinedIn(edges, longer[i].at, selected) &&
        (closed ==> NeighboursIn(edges, longer[i].at, known + {item.at}))
    {
      assert closed ==> NeighboursIn(edges, order[i].at, known);
    }
  }

  lemma TryNew(
    edges: seq<Edge>, ball: nat -> set<EntityId>, depth: nat, limit: nat, out: seq<Edge>, j: nat,
    order: seq<Item>, at: map<EntityId, nat>, done: nat, truncated: bool, selected: set<Edge>)
    requires Grown(edges, ball)
    requires Trying(edges, ball, depth, limit, out, j, order, at, done, truncated, selected) && j < |out|
    requires Other(out[j], order[done].at) !in at && |at.Keys| < limit
    ensures var item := NewItem(order[done], out[j]);
      Trying(edges, ball, depth, limit, out, j + 1, order + [item], at[item.at := |order|], done, truncated,
        selected + {out[j]})
  {
    var item := NewItem(order[done], out[j]);
    assert out[j] in out;
    TrySelect(edges, ball, depth, limit, out, j, order, at, done, truncated, selected);
    NewIsPlaced(edges, ball, depth, order, at, done, out[j]);
    NewLocated(order, at, item);
    NewKeeps(edges, ball, depth, order, done, at.Keys, item, true, selected + {out[j]});
    assert (order + [item])[done] == order[done];
  }

  lemma TriedAll(
    edges: seq<Edge>, ball: nat -> set<EntityId>, depth: nat, limit: nat, out: seq<Edge>,
    order: seq<Item>, at: map<EntityId, nat>, done: nat, truncated: bool, selected: set<Edge>)
    requires Trying(edges, ball, depth, limit, out, |out|, order, at, done, truncated, selected)
    ensures Expanding(edges, ball, depth, limit, order, at, done + 1, truncated, selected)
  {
    forall e | e in edges && Joins(e, order[done].at)
      ensures e in selected && (!truncated ==> Other(e, order[done].at) in at)
    {
      var x :| 0 <= x < |out| && out[x] == e;
    }
  }

  /** The end of the search, in the terms of its promise. */
  lemma Finish(
    edges: seq<Edge>, ball: nat -> set<EntityId>, depth: nat, limit: nat,
    order: seq<Item>, at: map<EntityId, nat>, truncated: bool, selected: set<Edge>)
    requires Grown(edges, ball) && Expanding(edges, ball, depth, limit, order, at, |order|, truncated, selected)
    ensures at.Keys <= ball(depth)
    ensures !truncated <==> at.Keys == ball(depth)
    ensures NearestFirst(ball, depth, at.Keys)
  {
    if truncated {
      var d: nat :| Sliced(ball, depth, at.Keys, d);
      forall k: nat | k <= depth && !(ball(k) <= at.Keys) ensures at.Keys <= ball(k) {
        if k <= d { Nested(edges, ball, k, d); } else { Nested(edges, ball, d + 1, k); }
      }
    }
    forall v | v in at ensures v in ball(depth) {
      assert Placed(ball, depth, order[at[v]]);
      Nested(edges, ball, order[at[v]].depth, depth);
    }
    if !truncated {
      BallDiscovered(edges, ball, depth, order, at, |order|, depth);
      forall k: nat | k <= depth ensures ball(k) <= at.Keys { Nested(edges, ball, k, depth); }
    }
  }

  /** If an entity at some distance was left out, nothing farther was returned. */
  ghost predicate NearestFirst(ball: nat -> set<EntityId>, depth: nat, found: set<EntityId>) {
    forall k: nat :: k <= depth && !(ball(k) <= found) ==> found <= ball(k)
  }

  /** Every relationship near enough was selected. */
  lemma NearSelected(
    edges: seq<Edge>, ball: nat -> set<EntityId>, depth: nat, order: seq<Item>, at: map<EntityId, nat>,
    selected: set<Edge>, e: Edge)
    requires Grown(edges, ball) && Layered(ball, depth, order, |order|) && Located(order, at)
    requires Selected(edges, ball, depth, order, |order|, selected)
    requires e in edges && NearEdge(ball, depth, e) && e.source in at && e.target in at
    ensures e in selected
  {
    var v := if e.source in ball(depth - 1) then e.source else e.target;
    assert Placed(ball, depth, order[at[v]]);
    FoundInTime(edges, ball, depth, order[at[v]], depth - 1);
    assert JoinedIn(edges, order[at[v]].at, selected);
  }

  // ----- seeds -----

  function IdKey(id: EntityId): nat { id }

  function SeedSet(ids: seq<EntityId>): set<EntityId> { set v | v in ids }

  function IndexOf(ids: seq<EntityId>, v: EntityId): (i: nat)
    requires v in ids
    ensures i < |ids| && ids[i] == v
  {
    if ids[0] == v then 0 else 1 + IndexOf(ids[1..], v)
  }

  function AtZero(ids: seq<EntityId>): (items: seq<Item>)
    ensures |items| == |ids| && forall i :: 0 <= i < |ids| ==> items[i] == Item(ids[i], 0)
  {
    seq(|ids|, i requires 0 <= i < |ids| => Item(ids[i], 0))
  }

  lemma Locate(ids: seq<EntityId>) returns (at: map<EntityId, nat>)
    ensures Located(AtZero(Sort(ids, IdKey)), at) && at.Keys == SeedSet(ids)
  {
    SortSorts(ids, IdKey);
    var sorted := Sort(ids, IdKey);
    SameMembers(ids, sorted);
    at := map v | v in SeedSet(ids) :: IndexOf(sorted, v);
  }

  lemma Begin(edges: seq<Edge>, ball: nat -> set<EntityId>, ids: seq<EntityId>, depth: nat, limit: nat)
    returns (at: map<EntityId, nat>)
    requires ball(0) == SeedSet(ids)
    ensures Expanding(edges, ball, depth, limit, AtZero(Sort(ids, IdKey)), at, 0, false, {}) && at.Keys == SeedSet(ids)
  {
    at := Locate(ids);
    var items := AtZero(Sort(ids, IdKey));
    forall i | 0 <= i < |items| ensures Placed(ball, depth, items[i]) {
      assert items[i].at in at;
    }
  }

  // ----- which come first -----

  /** Entry `q` of the order is joined by `e` to an entity that is not in the order yet. */
  ghost predicate Opens(edges: seq<Edge>, depth: nat, order: seq<Item>, q: nat, e: Edge) {
    && q < |order| && order[q].depth < depth && e in edges && Joins(e, order[q].at)
    && forall i :: 0 <= i < |order| ==> order[i].at != Other(e, order[q].at)
  }

  /** The first entry with such a relationship, and its smallest one. */
  ghost predicate OpensFirst(edges: seq<Edge>, depth: nat, order: seq<Item>, q: nat, e: Edge) {
    && Opens(edges, depth, order, q, e)
    && forall r: nat, x :: Opens(edges, depth, order, r, x) ==> q < r || (q == r && e.id <= x.id)
  }

  ghost predicate ComesNext(edges: seq<Edge>, depth: nat, order: seq<Item>, item: Item) {
    exists q: nat, e :: OpensFirst(edges, depth, order, q, e) && item == NewItem(order[q], e)
  }

  /** After the base, each entry is the one that comes next. */
  ghost predicate FirstComeFirst(edges: seq<Edge>, depth: nat, base: seq<Item>, order: seq<Item>) {
    || order == base
    || (&& |order| > |base|
        && FirstComeFirst(edges, depth, base, order[..|order| - 1])
        && ComesNext(edges, depth, order[..|order| - 1], order[|order| - 1]))
  }

  /** The seeds in increasing order, then one after the other what comes next. */
  ghost predicate Ranked(edges: seq<Edge>, ids: seq<EntityId>, depth: nat, order: seq<Item>) {
    exists sorted: seq<EntityId> :: Ascending(sorted, IdKey) && multiset(sorted) == multiset(ids)
      && FirstComeFirst(edges, depth, AtZero(sorted), order)
  }

  function EntitiesOf(order: seq<Item>): set<EntityId> { set i | i in order :: i.at }

  lemma KnownIsNotOpen(edges: seq<Edge>, depth: nat, order: seq<Item>, at: map<EntityId, nat>, q: nat, e: Edge)
    requires Located(order, at) && q < |order| && Other(e, order[q].at) in at
    ensures !Opens(edges, depth, order, q, e)
  {
    assert order[at[Other(e, order[q].at)]].at == Other(e, order[q].at);
  }

  lemma NewComesNext(
    edges: seq<Edge>, ball: nat -> set<EntityId>, depth: nat, limit: nat, out: seq<Edge>, j: nat,
    order: seq<Item>, at: map<EntityId, nat>, done: nat, selected: set<Edge>)
    requires Trying(edges, ball, depth, limit, out, j, order, at, done, false, selected) && j < |out|
    requires Increasing(out) && Other(out[j], order[done].at) !in at
    ensures ComesNext(edges, depth, order, NewItem(order[done], out[j]))
  {
    assert out[j] in out;
    forall i | 0 <= i < |order| ensures order[i].at != Other(out[j], order[done].at) {
      assert order[i].at in at;
    }
    assert Opens(edges, depth, order, done, out[j]);
    forall r, x | 0 <= r < done && order[r].depth < depth && x in edges && Joins(x, order[r].at)
      ensures !Opens(edges, depth, order, r, x)
    {
      assert NeighboursIn(edges, order[r].at, at.Keys);
      KnownIsNotOpen(edges, depth, order, at, r, x);
    }
    forall m | 0 <= m < j ensures !Opens(edges, depth, order, done, out[m]) {
      KnownIsNotOpen(edges, depth, order, at, done, out[m]);
    }
    assert forall x :: Opens(edges, depth, order, done, x) ==> x in out;
    assert OpensFirst(edges, depth, order, done, out[j]);
  }

  lemma PushRanks(edges: seq<Edge>, depth: nat, base: seq<Item>, order: seq<Item>, item: Item)
    requires FirstComeFirst(edges, depth, base, order) && ComesNext(edges, depth, order, item)
    ensures FirstComeFirst(edges, depth, base, order + [item])
  {
    assert (order + [item])[..|order|] == order;
  }

  lemma RankedFromSeeds(edges: seq<Edge>, ids: seq<EntityId>, depth: nat, order: seq<Item>, at: map<EntityId, nat>)
    requires FirstComeFirst(edges, depth, AtZero(Sort(ids, IdKey)), order) && Located(order, at)
    ensures Ranked(edges, ids, depth, order) && EntitiesOf(order) == at.Keys
  {
    SortSorts(ids, IdKey);
    forall v | v in at ensures v in EntitiesOf(order) {
      assert order[at[v]] in order;
    }
  }

  // ----- the query -----

  /** The entities a search over these relationships can reach. */
  function Universe(edges: seq<Edge>): set<EntityId> {
    (set e | e in edges :: e.target) + (set e | e in edges :: e.source)
  }

  /** The queue and the discovered entities, in terms of everything that was ever queued. */
  ghost predicate Holds(queue: seq<Item>, discovered: set<EntityId>, order: seq<Item>, at: map<EntityId, nat>,
      done: nat)
  {
    done <= |order| && queue == order[done..] && discovered == at.Keys
  }

  lemma PushHolds(
    edges: seq<Edge>, out: seq<Edge>, rest: seq<Item>, seen: set<EntityId>, order: seq<Item>, at: map<EntityId, nat>,
    done: nat,
    item: Item, j: nat)
    requires Holds(rest, seen, order, at, done + 1) && item.at !in seen && done < |order|
    requires j < |out| && At(edges, order[done].at, out) && item == NewItem(order[done], out[j])
    ensures Holds(rest + [item], seen + {item.at}, order + [item], at[item.at := |order|], done + 1)
    ensures |seen + {item.at}| == |seen| + 1 && item.at in Universe(edges)
  {
    assert out[j] in out;
  }

  /** One entry of the queue. */
  method Expand(
    ghost edges: seq<Edge>, ghost ball: nat -> set<EntityId>, ghost depth: nat, limit: nat, out: seq<Edge>,
        current: Item,
    queue: seq<Item>, discovered: set<EntityId>, cut: bool, selected: set<Edge>,
    ghost order: seq<Item>, ghost at: map<EntityId, nat>, ghost done: nat, ghost base: seq<Item>)
    returns (rest: seq<Item>, seen: set<EntityId>, truncated: bool, chosen: set<Edge>, ghost after: seq<Item>,
      ghost where: map<EntityId, nat>)
    requires Grown(edges, ball) && Increasing(out) && FirstComeFirst(edges, depth, base, order)
    requires Trying(edges, ball, depth, limit, out, 0, order, at, done, cut, selected)
    requires current == order[done] && Holds(queue, discovered, order, at, done + 1)
    ensures Expanding(edges, ball, depth, limit, after, where, done + 1, truncated, chosen)
    ensures Holds(rest, seen, after, where, done + 1)
    ensures discovered <= seen <= discovered + Universe(edges) && |rest| - |queue| == |seen| - |discovered|
    ensures FirstComeFirst(edges, depth, base, after)
  {
    rest, seen, truncated, chosen, after, where := queue, discovered, cut, selected, order, at;
    for j := 0 to |out|
      invariant Trying(edges, ball, depth, limit, out, j, after, where, done, truncated, chosen)
      invariant current == after[done] && Holds(rest, seen, after, where, done + 1)
      invariant discovered <= seen <= discovered + Universe(edges) && |rest| - |queue| == |seen| - |discovered|
      invariant FirstComeFirst(edges, depth, base, after)
    {
      var neighbour := Other(out[j], current.at);
      if neighbour in seen {
        TryKnown(edges, ball, depth, limit, out, j, after, where, done, truncated, chosen);
      } else if |seen| >= limit {
        TryCut(edges, ball, depth, limit, out, j, after, where, done, truncated, chosen);
        truncated := true;
      } else {
        TryNew(edges, ball, depth, limit, out, j, after, where, done, truncated, chosen);
        NewComesNext(edges, ball, depth, limit, out, j, after, where, done, chosen);
        PushRanks(edges, depth, base, after, NewItem(current, out[j]));
        var item := NewItem(current, out[j]);
        PushHolds(edges, out, rest, seen, after, where, done, item, j);
        rest, seen, where, after := rest + [item], seen + {item.at}, where[item.at := |after|], after + [item];
      }
      chosen := chosen + {out[j]};
    }
    TriedAll(edges, ball, depth, limit, out, after, where, done, truncated, chosen);
  }

  /**
   The promise: entities of the ball, nearest first, no more than the limit unless the seeds alone exceed
   it; something missing exactly when marked truncated, and then no fewer than the limit; and exactly the
   relationships between returned entities with an end nearer than the depth.
   */
  ghost predicate Exact(edges: seq<Edge>, ball: nat -> set<EntityId>, depth: nat, limit: nat, found: Found) {
    && ball(0) <= found.entities <= ball(depth)
    && (|found.entities| <= limit || found.entities == ball(0))
    && (!found.truncated <==> found.entities == ball(depth))
    && (found.truncated ==> |found.entities| >= limit)
    && NearestFirst(ball, depth, found.entities)
    && forall e :: e in found.relationships <==>
         e in edges && e.source in found.entities && e.target in found.entities && NearEdge(ball, depth, e)
  }

  /** The head of the queue: left as it is at the full depth, expanded before. */
  method Serve(
    ghost edges: seq<Edge>, ghost ball: nat -> set<EntityId>, depth: nat, limit: nat,
    adjacency: map<EntityId, seq<Edge>>, queue: seq<Item>, discovered: set<EntityId>, cut: bool, selected: set<Edge>,
    ghost order: seq<Item>, ghost at: map<EntityId, nat>, ghost done: nat, ghost base: seq<Item>)
    returns (rest: seq<Item>, seen: set<EntityId>, truncated: bool, chosen: set<Edge>, ghost after: seq<Item>,
      ghost where: map<EntityId, nat>)
    requires Grown(edges, ball) && FirstComeFirst(edges, depth, base, order)
    requires forall v: EntityId :: Increasing(Edges(adjacency, v)) && At(edges, v, Edges(adjacency, v))
    requires Expanding(edges, ball, depth, limit, order, at, done, cut, selected)
    requires queue != [] && Holds(queue, discovered, order, at, done)
    ensures Expanding(edges, ball, depth, limit, after, where, done + 1, truncated, chosen)
    ensures Holds(rest, seen, after, where, done + 1) && FirstComeFirst(edges, depth, base, after)
    ensures discovered <= seen <= discovered + Universe(edges)
    ensures |rest| - (|queue| - 1) == |seen| - |discovered|
  {
    var current := queue[0];
    assert current == order[done] && queue[1..] == order[done + 1..];
    if current.depth == depth {
      SkipHead(edges, ball, depth, limit, order, at, done, cut, selected);
      rest, seen, truncated, chosen, after, where := queue[1..], discovered, cut, selected, order, at;
    } else {
      var out := Edges(adjacency, current.at);
      Take(edges, ball, depth, limit, out, order, at, done, cut, selected);
      rest, seen, truncated, chosen, after, where :=
        Expand(edges, ball, depth, limit, out, current, queue[1..], discovered, cut, selected, order, at, done, base);
    }
  }

  /** When the queue has run dry, what was discovered and selected is the answer. */
  lemma ExactIsFound(
    edges: seq<Edge>, ball: nat -> set<EntityId>, depth: nat, limit: nat,
    order: seq<Item>, at: map<EntityId, nat>, truncated: bool, selected: set<Edge>)
    requires Grown(edges, ball) && Expanding(edges, ball, depth, limit, order, at, |order|, truncated, selected)
    ensures Exact(edges, ball, depth, limit,
      Found(at.Keys, (set e | e in selected && e.source in at.Keys && e.target in at.Keys), truncated))
  {
    Finish(edges, ball, depth, limit, order, at, truncated, selected);
    forall e | e in edges && e.source in at && e.target in at && NearEdge(ball, depth, e) ensures e in selected {
      NearSelected(edges, ball, depth, order, at, selected, e);
    }
  }

  /** The queue, from the seeds until it runs dry. */
  method Spread(
    ghost edges: seq<Edge>, ghost ball: nat -> set<EntityId>, depth: nat, limit: nat,
    adjacency: map<EntityId, seq<Edge>>, seeds: seq<EntityId>, ghost start: map<EntityId, nat>)
    returns (discovered: set<EntityId>, truncated: bool, selected: set<Edge>,
      ghost order: seq<Item>, ghost at: map<EntityId, nat>)
    requires Grown(edges, ball)
    requires forall v: EntityId :: Increasing(Edges(adjacency, v)) && At(edges, v, Edges(adjacency, v))
    requires Expanding(edges, ball, depth, limit, AtZero(seeds), start, 0, false, {}) && start.Keys == SeedSet(seeds)
    ensures Expanding(edges, ball, depth, limit, order, at, |order|, truncated, selected)
    ensures discovered == at.Keys && FirstComeFirst(edges, depth, AtZero(seeds), order)
  {
    var queue := AtZero(seeds);
    discovered, truncated, selected := SeedSet(seeds), false, {};
    ghost var done := 0;
    order, at := queue, start;
    ghost var universe := discovered + Universe(edges);
    while queue != []
      invariant Expanding(edges, ball, depth, limit, order, at, done, truncated, selected)
      invariant Holds(queue, discovered, order, at, done) && discovered <= universe
      invariant FirstComeFirst(edges, depth, AtZero(seeds), order)
      decreases universe - discovered, |queue|
    {
      var rest, seen, cut, chosen, after, where :=
        Serve(edges, ball, depth, limit, adjacency, queue, discovered, truncated, selected, order, at, done,
              AtZero(seeds));
      VisitsShrink(universe, discovered, seen, |queue| - 1, |rest|);
      queue, discovered, truncated, selected, order, at := rest, seen, cut, chosen, after, where;
      done := done + 1;
    }
    assert order[done..] == [] && done == |order|;
  }

  /** The search itself. */
  method Search(revision: Revision, ids: seq<EntityId>, depth: nat, limit: nat, ghost ball: nat -> set<EntityId>)
    returns (found: Found, ghost order: seq<Item>)
    requires revision.Valid() && Grown(revision.relationships, ball) && ball(0) == SeedSet(ids)
    ensures Exact(revision.relationships, ball, depth, limit, found)
    ensures Ranked(revision.relationships, ids, depth, order) && found.entities == EntitiesOf(order)
  {
    ghost var edges := revision.relationships;
    var adjacency := Undirected(revision.relationships);
    var seeds := Sort(ids, IdKey);
    ghost var start := Begin(edges, ball, ids, depth, limit);
    SortSorts(ids, IdKey);
    SameMembers(ids, seeds);
    var discovered, truncated, selected, all, at := Spread(edges, ball, depth, limit, adjacency, seeds, start);
    order := all;
    RankedFromSeeds(edges, ids, depth, order, at);
    ExactIsFound(edges, ball, depth, limit, order, at, truncated, selected);
    found :=
      Found(discovered, (set e | e in selected && e.source in discovered && e.target in discovered), truncated);
  }

  /** `CartographyQueries.neighborhood`. */
  method Neighborhood(revision: Revision, ids: seq<EntityId>, depth: int, limit: int) returns (r: Answer)
    requires revision.Valid()
    ensures r.BadDepth? <==> !(0 <= depth <= 5)
    ensures r.BadLimit? <==> 0 <= depth <= 5 && !(1 <= limit <= 500)
    ensures 0 <= depth <= 5 && 1 <= limit <= 500 ==>
      (r.Unknown? <==> exists i :: 0 <= i < |ids| && ids[i] !in revision.entities)
    ensures r.Unknown? ==> r.id in ids && r.id !in revision.entities
    ensures r.Near? ==>
      Exact(revision.relationships, (k: nat) => Ball(revision.relationships, SeedSet(ids), k), depth, limit, r.found)
    ensures r.Near? ==>
      exists order :: Ranked(revision.relationships, ids, depth, order) && r.found.entities == EntitiesOf(order)
  {
    if !(0 <= depth <= 5) { return BadDepth; }
    if !(1 <= limit <= 500) { return BadLimit; }
    for i := 0 to |ids|
      invariant forall k :: 0 <= k < i ==> ids[k] in revision.entities
    {
      if ids[i] !in revision.entities { return Unknown(ids[i]); }
    }
    ghost var order;
    var found;
    found, order := Search(revision, ids, depth, limit, (k: nat) => Ball(revision.relationships, SeedSet(ids), k));
    return Near(found);
  }

  lemma Take(
    edges: seq<Edge>, ball: nat -> set<EntityId>, depth: nat, limit: nat, out: seq<Edge>,
    order: seq<Item>, at: map<EntityId, nat>, done: nat, truncated: bool, selected: set<Edge>)
    requires Expanding(edges, ball, depth, limit, order, at, done, truncated, selected)
    requires done < |order| && order[done].depth != depth && At(edges, order[done].at, out)
    ensures Trying(edges, ball, depth, limit, out, 0, order, at, done, truncated, selected)
  {
    assert Placed(ball, depth, order[done]);
  }

  lemma SkipHead(
    edges: seq<Edge>, ball: nat -> set<EntityId>, depth: nat, limit: nat,
    order: seq<Item>, at: map<EntityId, nat>, done: nat, truncated: bool, selected: set<Edge>)
    requires Expanding(edges, ball, depth, limit, order, at, done, truncated, selected)
    requires done < |order| && order[done].depth == depth
    ensures Expanding(edges, ball, depth, limit, order, at, done + 1, truncated, selected)
  {
  }
}

/**
 `CartographyQueries.path`: breadth-first search for a directed path.  It returns the least walk
 in the order "shorter first, then by relationship ids", or nothing exactly when no walk fits.
 */
module ShortestPath {
  import opened Options
  import opened Cartography

  // ----- walks and their order -----

  /** A directed walk over the relationships. */
  ghost predicate Walk(edges: seq<Edge>, from: EntityId, walk: seq<Edge>) {
    walk != [] ==>
      && Walk(edges, from, walk[..|walk| - 1])
      && walk[|walk| - 1] in edges
      && walk[|walk| - 1].source == End(from, walk[..|walk| - 1])
  }

  function End(from: EntityId, walk: seq<Edge>): EntityId { if walk == [] then from else walk[|walk| - 1].target }

  /** The entities along a walk. */
  function Stops(from: EntityId, walk: seq<Edge>): (r: seq<EntityId>)
    ensures |r| == |walk| + 1 && r[|walk|] == End(from, walk)
  {
    if walk == [] then [from] else Stops(from, walk[..|walk| - 1]) + [walk[|walk| - 1].target]
  }

  ghost predicate Simple(stops: seq<EntityId>) { forall i, j :: 0 <= i < j < |stops| ==> stops[i] != stops[j] }

  /** Shorter, or as long and smaller at the first relationship id that differs. */
  predicate Less(a: seq<Edge>, b: seq<Edge>) {
    || |a| < |b|
    || (|a| == |b| && a != [] &&
        (Less(a[..|a| - 1], b[..|b| - 1]) || (a[..|a| - 1] == b[..|b| - 1] && a[|a| - 1].id < b[|b| - 1].id)))
  }

  predicate AtMost(a: seq<Edge>, b: seq<Edge>) { a == b || Less(a, b) }

  lemma {:induction false} LessTransitive(a: seq<Edge>, b: seq<Edge>, c: seq<Edge>)
    requires Less(a, b) && Less(b, c)
    ensures Less(a, c)
  {
    if |a| == |b| == |c| && Less(a[..|a| - 1], b[..|b| - 1]) && Less(b[..|b| - 1], c[..|c| - 1]) {
      LessTransitive(a[..|a| - 1], b[..|b| - 1], c[..|c| - 1]);
    }
  }

  lemma {:induction false} LessIrreflexive(a: seq<Edge>)
    ensures !Less(a, a)
  {
    if a != [] { LessIrreflexive(a[..|a| - 1]); }
  }

  lemma AtMostTransitive(a: seq<Edge>, b: seq<Edge>, c: seq<Edge>)
    requires AtMost(a, b) && AtMost(b, c)
    ensures AtMost(a, c)
  {
    if a != b && b != c { LessTransitive(a, b, c); }
  }

  lemma LessExtends(a: seq<Edge>, b: seq<Edge>, e: Edge, f: Edge)
    requires Less(a, b) || (a == b && e.id < f.id)
    ensures Less(a + [e], b + [f])
  {
    assert (a + [e])[..|a|] == a && (b + [f])[..|b|] == b;
  }

  /** The least walk between two entities within the depth. */
  ghost predicate Best(edges: seq<Edge>, from: EntityId, to: EntityId, depth: nat, walk: seq<Edge>) {
    && Walk(edges, from, walk) && End(from, walk) == to && |walk| <= depth
    && forall w :: Walk(edges, from, w) && End(from, w) == to && |w| <= depth ==> AtMost(walk, w)
  }

  ghost predicate Connected(edges: seq<Edge>, from: EntityId, to: EntityId, depth: nat) {
    exists w :: Walk(edges, from, w) && End(from, w) == to && |w| <= depth
  }

  // ----- the search -----

  datatype Item = Item(at: EntityId, edges: seq<Edge>, entities: seq<EntityId>)

  datatype Answer = BadDepth | Unknown(id: EntityId) | NoPath | Path(entities: seq<EntityId>, relationships: seq<Edge>)

  /** Everything that ever entered the queue, in order, is strictly sorted; no entity enters twice. */
  ghost predicate Ordered(order: seq<Item>) {
    forall i, j :: 0 <= i < j < |order| ==> Less(order[i].edges, order[j].edges)
  }

  ghost predicate ItemOk(edges: seq<Edge>, from: EntityId, item: Item, at: map<EntityId, nat>) {
    && Walk(edges, from, item.edges) && End(from, item.edges) == item.at
    && item.entities == Stops(from, item.edges) && Simple(item.entities)
    && forall k :: 0 <= k < |item.entities| ==> item.entities[k] in at
  }

  /** `at` locates the queue entry of every visited entity. */
  ghost predicate Located(order: seq<Item>, at: map<EntityId, nat>) {
    forall v :: v in at ==> at[v] < |order| && order[at[v]].at == v
  }

  /** Every way out of a finished entry was taken into account. */
  ghost predicate Expanded(edges: seq<Edge>, order: seq<Item>, at: map<EntityId, nat>, i: nat)
    requires i < |order|
  {
    forall e :: e in edges && e.source == order[i].at ==> Settled(order, at, order[i].edges + [e], e.target)
  }

  ghost predicate Settled(order: seq<Item>, at: map<EntityId, nat>, walk: seq<Edge>, v: EntityId) {
    v in at && at[v] < |order| && AtMost(order[at[v]].edges, walk)
  }

  /** The last entry is not past the children of the head that came before edge id `bound`. */
  ghost predicate LastWithin(last: seq<Edge>, head: seq<Edge>, bound: int) {
    || |last| <= |head|
    || (|last| == |head| + 1
        && (Less(last[..|head|], head) || (last[..|head|] == head && last[|head|].id < bound)))
  }

  /** The facts the search maintains with `done` entries finished. */
  ghost predicate Search(
    edges: seq<Edge>, from: EntityId, to: EntityId, depth: nat, order: seq<Item>, at: map<EntityId, nat>, done: nat)
  {
    && done <= |order| && |order| > 0
    && Ordered(order) && Located(order, at)
    && Settled(order, at, [], from) && to !in at
    && (forall i :: 0 <= i < |order| ==> ItemOk(edges, from, order[i], at) && |order[i].edges| <= depth)
    && Finished(edges, depth, order, at, done)
  }

  /** Every entry before `done` that may be extended is expanded. */
  ghost predicate Finished(edges: seq<Edge>, depth: nat, order: seq<Item>, at: map<EntityId, nat>, done: nat)
    requires done <= |order|
  {
    forall i :: 0 <= i < done && |order[i].edges| < depth ==> Expanded(edges, order, at, i)
  }

  /** One more relationship from an expanded entry. */
  lemma StepOn(edges: seq<Edge>, order: seq<Item>, at: map<EntityId, nat>, walk: seq<Edge>, e: Edge)
    requires e in edges && Settled(order, at, walk, e.source) && order[at[e.source]].at == e.source
    requires Expanded(edges, order, at, at[e.source])
    ensures Settled(order, at, walk + [e], e.target)
  {
    var reached := order[at[e.source]].edges;
    if reached != walk { LessExtends(reached, walk, e, e); }
    AtMostTransitive(order[at[e.target]].edges, reached + [e], walk + [e]);
  }

  /** The last entry comes before any further child of the head. */
  lemma LastBeforeChild(order: seq<Item>, head: seq<Edge>, e: Edge)
    requires Ordered(order) && |order| > 0 && LastWithin(order[|order| - 1].edges, head, e.id)
    ensures forall i :: 0 <= i < |order| ==> Less(order[i].edges, head + [e])
  {
    var last := order[|order| - 1].edges;
    assert (head + [e])[..|head|] == head;
    assert Less(last, head + [e]);
    forall i | 0 <= i < |order| - 1 ensures Less(order[i].edges, head + [e]) {
      LessTransitive(order[i].edges, last, head + [e]);
    }
  }

  /** A walk either runs through finished entries to its end, or stops at an unfinished entry that is no worse. */
  lemma {:induction false} Progress(
    edges: seq<Edge>, from: EntityId, depth: nat, order: seq<Item>, at: map<EntityId, nat>, done: nat, walk: seq<Edge>)
    returns (k: nat)
    requires done <= |order| && Finished(edges, depth, order, at, done) && Located(order, at) &&
      Settled(order, at, [], from)
    requires Walk(edges, from, walk) && |walk| <= depth
    ensures k <= |walk| && Settled(order, at, walk[..k], End(from, walk[..k]))
    ensures k == |walk| || at[End(from, walk[..k])] >= done
  {
    if walk == [] {
      k := 0;
    } else {
      var n := |walk| - 1;
      k := Progress(edges, from, depth, order, at, done, walk[..n]);
      assert walk[..n][..k] == walk[..k];
      if k == n && at[walk[n].source] < done {
        assert walk[..n][..n] == walk[..n];
        AtMostShorter(order[at[walk[n].source]].edges, walk[..n]);
        StepOn(edges, order, at, walk[..n], walk[n]);
        assert walk == walk[..n] + [walk[n]];
        k := |walk|;
        assert walk[..k] == walk;
      }
    }
  }

  lemma AtMostShorter(a: seq<Edge>, b: seq<Edge>)
    requires AtMost(a, b)
    ensures |a| <= |b|
  {
  }

  /** An empty queue means no walk fits. */
  lemma Exhausted(edges: seq<Edge>, from: EntityId, to: EntityId, depth: nat, order: seq<Item>, at: map<EntityId, nat>)
    requires Search(edges, from, to, depth, order, at, |order|)
    ensures !Connected(edges, from, to, depth)
  {
    forall w: seq<Edge> | Walk(edges, from, w) && |w| <= depth ensures End(from, w) != to {
      var k := Progress(edges, from, depth, order, at, |order|, w);
      assert w[..|w|] == w;
    }
  }

  lemma HeadIsLeast(order: seq<Item>, done: nat, i: nat)
    requires Ordered(order) && done <= i < |order|
    ensures AtMost(order[done].edges, order[i].edges)
  {
  }

  /** No walk to the target beats the first hit among the children of the head. */
  lemma HitAtMost(head: seq<Edge>, hit: Edge, reached: seq<Edge>, w: seq<Edge>, k: nat)
    requires k < |w| && AtMost(head, reached) && AtMost(reached, w[..k])
    requires head == w[..k] && |w| == k + 1 ==> hit == w[k] || hit.id < w[k].id
    ensures AtMost(head + [hit], w)
  {
    AtMostTransitive(head, reached, w[..k]);
    assert (head + [hit])[..|head|] == head;
    if |head| + 1 == |w| {
      assert w == w[..k] + [w[k]];
      if head != w[..k] { LessExtends(head, w[..k], hit, w[k]); }
    }
  }

  /** The next step of a walk that stopped at the head is one of the head's relationships. */
  lemma {:induction false} NextStep(edges: seq<Edge>, from: EntityId, w: seq<Edge>, k: nat)
    requires Walk(edges, from, w) && k < |w|
    ensures w[k] in edges && w[k].source == End(from, w[..k]) && End(from, w[..k + 1]) == w[k].target
    ensures Walk(edges, from, w[..k])
  {
    if k + 1 < |w| {
      NextStep(edges, from, w[..|w| - 1], k);
      assert w[..|w| - 1][..k] == w[..k];
    }
  }

  /** The first child of the head that hits the target is the least walk. */
  lemma FirstHitIsBest(
    edges: seq<Edge>, from: EntityId, to: EntityId, depth: nat, order: seq<Item>, at: map<EntityId, nat>, done: nat,
    hit: Edge)
    requires UniqueIds(edges) && Search(edges, from, to, depth, order, at, done)
    requires done < |order| && |order[done].edges| < depth
    requires hit in edges && hit.source == order[done].at && hit.target == to
    requires forall e :: e in edges && e.source == order[done].at && e.id < hit.id ==> e.target in at
    ensures Best(edges, from, to, depth, order[done].edges + [hit])
  {
    var head := order[done].edges;
    assert (head + [hit])[..|head|] == head;
    assert ItemOk(edges, from, order[done], at);
    forall w: seq<Edge> | Walk(edges, from, w) && End(from, w) == to && |w| <= depth ensures AtMost(head + [hit], w) {
      NoneBeatsHit(edges, from, to, depth, order, at, done, hit, w);
    }
  }

  lemma NoneBeatsHit(
    edges: seq<Edge>, from: EntityId, to: EntityId, depth: nat, order: seq<Item>, at: map<EntityId, nat>, done: nat,
    hit: Edge,
    w: seq<Edge>)
    requires UniqueIds(edges) && Search(edges, from, to, depth, order, at, done)
    requires done < |order| && hit in edges && hit.source == order[done].at && hit.target == to
    requires forall e :: e in edges && e.source == order[done].at && e.id < hit.id ==> e.target in at
    requires Walk(edges, from, w) && End(from, w) == to && |w| <= depth
    ensures AtMost(order[done].edges + [hit], w)
  {
    var head := order[done].edges;
    var k := Progress(edges, from, depth, order, at, done, w);
    assert w[..|w|] == w;
    assert k < |w|;
    var reached := order[at[End(from, w[..k])]].edges;
    HeadIsLeast(order, done, at[End(from, w[..k])]);
    NextStep(edges, from, w, k);
    if head == w[..k] {
      FirstHitPrecedes(edges, from, to, order, at, done, hit, w, k);
    }
    HitAtMost(head, hit, reached, w, k);
  }

  lemma FirstHitPrecedes(
    edges: seq<Edge>, from: EntityId, to: EntityId, order: seq<Item>, at: map<EntityId, nat>, done: nat, hit: Edge,
    w: seq<Edge>, k: nat)
    requires UniqueIds(edges) && Ordered(order) && done < |order|
    requires hit in edges && End(from, order[done].edges) == order[done].at
    requires k < |w| && w[k] in edges && w[k].source == order[done].at
    requires |w| == k + 1 ==> w[k].target == to && to !in at
    requires forall e :: e in edges && e.source == order[done].at && e.id < hit.id ==> e.target in at
    ensures |w| == k + 1 ==> hit == w[k] || hit.id < w[k].id
  {
    if |w| == k + 1 && hit.id == w[k].id { SameIdSameEdge(edges, hit, w[k]); }
  }

  // ----- the loops -----

  function Child(head: Item, e: Edge): Item { Item(e.target, head.edges + [e], head.entities + [e.target]) }

  lemma PushItem(edges: seq<Edge>, from: EntityId, head: Item, at: map<EntityId, nat>, e: Edge, place: nat)
    requires ItemOk(edges, from, head, at) && e in edges && e.source == head.at && e.target !in at
    ensures ItemOk(edges, from, Child(head, e), at[e.target := place])
  {
    assert (head.edges + [e])[..|head.edges|] == head.edges;
  }

  lemma PushOrdered(order: seq<Item>, head: Item, e: Edge)
    requires Ordered(order) && |order| > 0 && LastWithin(order[|order| - 1].edges, head.edges, e.id)
    ensures Ordered(order + [Child(head, e)]) && LastWithin(head.edges + [e], head.edges, e.id + 1)
  {
    assert (head.edges + [e])[..|head.edges|] == head.edges;
    LastBeforeChild(order, head.edges, e);
  }

  lemma PushFinished(edges: seq<Edge>, depth: nat, order: seq<Item>, at: map<EntityId, nat>, done: nat, child: Item)
    requires done <= |order| && Finished(edges, depth, order, at, done) && child.at !in at
    ensures Finished(edges, depth, order + [child], at[child.at := |order|], done)
  {
    forall i | 0 <= i < done && |order[i].edges| < depth
      ensures Expanded(edges, order + [child], at[child.at := |order|], i)
    {
      assert Expanded(edges, order, at, i);
    }
  }

  /** Entering one new entity keeps everything. */
  lemma PushKeeps(
    edges: seq<Edge>, from: EntityId, to: EntityId, depth: nat, order: seq<Item>, at: map<EntityId, nat>, done: nat,
    e: Edge)
    requires Search(edges, from, to, depth, order, at, done) && done < |order| && |order[done].edges| < depth
    requires e in edges && e.source == order[done].at && e.target !in at && e.target != to
    requires LastWithin(order[|order| - 1].edges, order[done].edges, e.id)
    ensures Search(edges, from, to, depth, order + [Child(order[done], e)], at[e.target := |order|], done)
    ensures LastWithin(Child(order[done], e).edges, order[done].edges, e.id + 1)
  {
    var child := Child(order[done], e);
    var found := at[e.target := |order|];
    assert ItemOk(edges, from, order[done], at);
    PushItem(edges, from, order[done], at, e, |order|);
    PushOrdered(order, order[done], e);
    PushFinished(edges, depth, order, at, done, child);
    forall i | 0 <= i < |order|
      ensures ItemOk(edges, from, order[i], found) { assert ItemOk(edges, from, order[i], at); }
  }

  /** The relationships of the head tried so far all lead to entries that are no worse. */
  ghost predicate Tried(order: seq<Item>, at: map<EntityId, nat>, head: seq<Edge>, out: seq<Edge>, j: nat)
    requires j <= |out|
  {
    forall x :: 0 <= x < j ==> Settled(order, at, head + [out[x]], out[x].target)
  }

  /** With all its relationships tried the head is finished. */
  lemma FinishHead(
    edges: seq<Edge>, from: EntityId, to: EntityId, depth: nat, order: seq<Item>, at: map<EntityId, nat>, done: nat,
    out: seq<Edge>)
    requires Search(edges, from, to, depth, order, at, done) && done < |order|
    requires |order[done].edges| < depth ==>
      Tried(order, at, order[done].edges, out, |out|) && forall e :: e in edges && e.source == order[done].at ==>
        e in out
    ensures Search(edges, from, to, depth, order, at, done + 1)
  {
    if |order[done].edges| < depth {
      forall e | e in edges && e.source == order[done].at
        ensures Settled(order, at, order[done].edges + [e], e.target) {
        var x :| 0 <= x < |out| && out[x] == e;
      }
      assert Expanded(edges, order, at, done);
    }
  }

  lemma TriedVisited(order: seq<Item>, at: map<EntityId, nat>, head: seq<Edge>, out: seq<Edge>, j: nat, f: Edge)
    requires j < |out| && Increasing(out) && Tried(order, at, head, out, j) && f in out && f.id < out[j].id
    ensures f.target in at
  {
    var x :| 0 <= x < |out| && out[x] == f;
    assert x < j;
  }

  /** A relationship to an entity that was visited already is no better than what was found. */
  lemma VisitedIsTried(order: seq<Item>, at: map<EntityId, nat>, head: seq<Edge>, out: seq<Edge>, j: nat)
    requires j < |out| && Tried(order, at, head, out, j) && out[j].target in at && Located(order, at)
    requires Ordered(order) && |order| > 0 && LastWithin(order[|order| - 1].edges, head, out[j].id)
    ensures Tried(order, at, head, out, j + 1)
  {
    LastBeforeChild(order, head, out[j]);
  }

  lemma StillTried(order: seq<Item>, at: map<EntityId, nat>, head: seq<Edge>, out: seq<Edge>, j: nat, child: Item)
    requires j < |out| && Tried(order, at, head, out, j) && child.at !in at
    requires child.at == out[j].target && child.edges == head + [out[j]]
    ensures Tried(order + [child], at[child.at := |order|], head, out, j + 1)
  {
    forall x | 0 <= x < j + 1
      ensures Settled(order + [child], at[child.at := |order|], head + [out[x]], out[x].target) {
      if x < j { assert Settled(order, at, head + [out[x]], out[x].target); }
    }
  }

  /** Moving on to the next entry: it comes after the finished head, so nothing is ahead of its children. */
  lemma NextHead(rest: seq<Item>, order: seq<Item>, done: nat, bound: int)
    requires Ordered(order) && done < |order| && rest == order[done + 1..]
    requires LastWithin(order[|order| - 1].edges, order[done].edges, bound)
    ensures FrontWithin(rest, order)
  {
    if rest != [] {
      var last, head, next := order[|order| - 1].edges, order[done].edges, order[done + 1].edges;
      if |last| > |next| {
        assert |head| == |next|;
        if last[..|head|] != head { LessTransitive(last[..|head|], head, next); }
      }
    }
  }

  /** Nothing queued is past the children of the front of the queue. */
  ghost predicate FrontWithin(queue: seq<Item>, order: seq<Item>) {
    queue != [] && order != [] ==> LastWithin(order[|order| - 1].edges, queue[0].edges, -1)
  }

  /** The entities a search over these relationships can reach. */
  function Universe(edges: seq<Edge>): set<EntityId> { set e | e in edges :: e.target }

  /** The relationships of the head in id order. */
  ghost predicate OutOf(edges: seq<Edge>, v: EntityId, out: seq<Edge>) {
    Increasing(out) && forall x :: x in out <==> x in edges && x.source == v
  }

  /** What the queue and the visited set hold, in terms of everything that was ever queued. */
  ghost predicate Holds(queue: seq<Item>, visited: set<EntityId>, order: seq<Item>, at: map<EntityId, nat>, done: nat) {
    done <= |order| && queue == order[done..] && visited == at.Keys
  }

  lemma PushHolds(queue: seq<Item>, visited: set<EntityId>, order: seq<Item>, at: map<EntityId, nat>, done: nat,
      child: Item)
    requires Holds(queue, visited, order, at, done) && child.at !in visited
    ensures Holds(queue + [child], visited + {child.at}, order + [child], at[child.at := |order|], done)
    ensures |visited + {child.at}| == |visited| + 1
    ensures (order + [child])[|order + [child]| - 1] == child
  {
  }

  /** Everything the inner loop maintains after trying the first `j` relationships of the head. */
  ghost predicate Trying(
    edges: seq<Edge>, from: EntityId, to: EntityId, depth: nat, out: seq<Edge>, j: nat,
    rest: seq<Item>, seen: set<EntityId>, order: seq<Item>, at: map<EntityId, nat>, done: nat)
  {
    && Search(edges, from, to, depth, order, at, done)
    && done < |order| && |order[done].edges| < depth && j <= |out| && OutOf(edges, order[done].at, out)
    && Holds(rest, seen, order, at, done + 1)
    && Tried(order, at, order[done].edges, out, j)
    && LastWithin(order[|order| - 1].edges, order[done].edges, if j == 0 then -1 else out[j - 1].id + 1)
  }

  lemma TrySeen(
    edges: seq<Edge>, from: EntityId, to: EntityId, depth: nat, out: seq<Edge>, j: nat,
    rest: seq<Item>, seen: set<EntityId>, order: seq<Item>, at: map<EntityId, nat>, done: nat)
    requires Trying(edges, from, to, depth, out, j, rest, seen, order, at, done) && j < |out| && out[j].target in seen
    ensures Trying(edges, from, to, depth, out, j + 1, rest, seen, order, at, done)
  {
    VisitedIsTried(order, at, order[done].edges, out, j);
  }

  lemma TryNew(
    edges: seq<Edge>, from: EntityId, to: EntityId, depth: nat, out: seq<Edge>, j: nat,
    rest: seq<Item>, seen: set<EntityId>, order: seq<Item>, at: map<EntityId, nat>, done: nat)
    requires Trying(edges, from, to, depth, out, j, rest, seen, order, at, done)
    requires j < |out| && out[j].target !in seen && out[j].target != to
    ensures var child := Child(order[done], out[j]);
      Trying(edges, from, to, depth, out, j + 1, rest + [child], seen + {child.at}, order + [child],
        at[child.at := |order|], done)
  {
    var child := Child(order[done], out[j]);
    assert out[j] in out;
    PushKeeps(edges, from, to, depth, order, at, done, out[j]);
    StillTried(order, at, order[done].edges, out, j, child);
    PushHolds(rest, seen, order, at, done + 1, child);
    assert (order + [child])[done] == order[done];
  }

  lemma TriedAll(
    edges: seq<Edge>, from: EntityId, to: EntityId, depth: nat, out: seq<Edge>,
    rest: seq<Item>, seen: set<EntityId>, order: seq<Item>, at: map<EntityId, nat>, done: nat)
    requires Trying(edges, from, to, depth, out, |out|, rest, seen, order, at, done)
    ensures Searching(edges, from, to, depth, rest, seen, order, at, done + 1)
  {
    FinishHead(edges, from, to, depth, order, at, done, out);
    NextHead(rest, order, done, if |out| == 0 then -1 else out[|out| - 1].id + 1);
  }

  /** Everything the outer loop maintains. */
  ghost predicate Searching(
    edges: seq<Edge>, from: EntityId, to: EntityId, depth: nat,
    queue: seq<Item>, visited: set<EntityId>, order: seq<Item>, at: map<EntityId, nat>, done: nat)
  {
    Search(edges, from, to, depth, order, at, done) && Holds(queue, visited, order, at, done) &&
      FrontWithin(queue, order)
  }

  /** Taking the front of the queue. */
  lemma Take(
    edges: seq<Edge>, from: EntityId, to: EntityId, depth: nat, queue: seq<Item>, visited: set<EntityId>,
    out: seq<Edge>,
    order: seq<Item>, at: map<EntityId, nat>, done: nat)
    requires Searching(edges, from, to, depth, queue, visited, order, at, done) && queue != []
    requires OutOf(edges, queue[0].at, out)
    ensures done < |order| && order[done] == queue[0] && |queue[0].edges| <= depth
    ensures |queue[0].edges| < depth ==> Trying(edges, from, to, depth, out, 0, queue[1..], visited, order, at, done)
    ensures |queue[0].edges| == depth ==> Searching(edges, from, to, depth, queue[1..], visited, order, at, done + 1)
  {
    if |queue[0].edges| == depth {
      FinishHead(edges, from, to, depth, order, at, done, []);
      NextHead(queue[1..], order, done, -1);
    }
  }

  lemma BeginSearch(edges: seq<Edge>, from: EntityId, to: EntityId, depth: nat)
    requires from != to
    ensures Searching(edges, from, to, depth, [Item(from, [], [from])], {from}, [Item(from, [], [from])],
      map[from := 0], 0)
  {
  }

  /** One entry of the queue: try its relationships in id order, stopping at the target. */
  method Expand(
    ghost edges: seq<Edge>, out: seq<Edge>, ghost from: EntityId, to: EntityId, ghost depth: nat, queue: seq<Item>,
    visited: set<EntityId>, current: Item, ghost order: seq<Item>, ghost at: map<EntityId, nat>, ghost done: nat)
    returns (hit: Option<Item>, rest: seq<Item>, seen: set<EntityId>, ghost after: seq<Item>,
      ghost where: map<EntityId, nat>)
    requires UniqueIds(edges) && Trying(edges, from, to, depth, out, 0, queue, visited, order, at, done)
    requires current == order[done]
    ensures hit.Some? ==> Wins(edges, from, to, depth, hit.value)
    ensures hit.None? ==> Searching(edges, from, to, depth, rest, seen, after, where, done + 1)
    ensures hit.None? ==> visited <= seen && seen <= visited + Universe(edges) && |rest| - |queue| == |seen| - |visited|
  {
    hit, rest, seen, after, where := None, queue, visited, order, at;
    for j := 0 to |out|
      invariant Trying(edges, from, to, depth, out, j, rest, seen, after, where, done)
      invariant current == after[done]
      invariant visited <= seen && seen <= visited + Universe(edges) && |rest| - |queue| == |seen| - |visited|
    {
      var e := out[j];
      if e.target in seen {
        TrySeen(edges, from, to, depth, out, j, rest, seen, after, where, done);
      } else if e.target == to {
        HitWins(edges, from, to, depth, rest, seen, after, where, done, out, j);
        hit := Some(Child(current, e));
        return;
      } else {
        TryNew(edges, from, to, depth, out, j, rest, seen, after, where, done);
        assert e in out;
        var child := Child(current, e);
        rest, seen, where, after := rest + [child], seen + {e.target}, where[e.target := |after|], after + [child];
      }
    }
    TriedAll(edges, from, to, depth, out, rest, seen, after, where, done);
  }

  ghost predicate Wins(edges: seq<Edge>, from: EntityId, to: EntityId, depth: nat, item: Item) {
    Best(edges, from, to, depth, item.edges) && item.entities == Stops(from, item.edges) && Simple(item.entities)
  }

  lemma HitWins(
    edges: seq<Edge>, from: EntityId, to: EntityId, depth: nat, rest: seq<Item>, seen: set<EntityId>,
    order: seq<Item>, at: map<EntityId, nat>, done: nat, out: seq<Edge>, j: nat)
    requires UniqueIds(edges) && Trying(edges, from, to, depth, out, j, rest, seen, order, at, done)
    requires j < |out| && out[j].target == to
    ensures Wins(edges, from, to, depth, Child(order[done], out[j]))
  {
    assert out[j] in out;
    forall f | f in edges && f.source == order[done].at && f.id < out[j].id ensures f.target in at {
      TriedVisited(order, at, order[done].edges, out, j, f);
    }
    FirstHitIsBest(edges, from, to, depth, order, at, done, out[j]);
    HitIsSimple(edges, from, order[done], at, out[j]);
  }

  lemma HitIsSimple(edges: seq<Edge>, from: EntityId, current: Item, at: map<EntityId, nat>, e: Edge)
    requires ItemOk(edges, from, current, at) && e.target !in at
    ensures current.entities + [e.target] == Stops(from, current.edges + [e]) && Simple(current.entities + [e.target])
  {
    assert (current.edges + [e])[..|current.edges|] == current.edges;
  }

  /** `CartographyQueries.path`. */
  method FindPath(revision: Revision, from: EntityId, to: EntityId, depth: int) returns (r: Answer)
    requires revision.Valid()
    ensures r.BadDepth? <==> !(1 <= depth <= 10)
    ensures 1 <= depth <= 10 ==>
      (r.Unknown? <==> !(from in revision.entities && to in revision.entities))
      && (r.Unknown? ==> r.id == if from in revision.entities then to else from)
    ensures r.NoPath? ==> !Connected(revision.relationships, from, to, depth)
    ensures r.Path? ==> Wins(revision.relationships, from, to, depth, Item(to, r.relationships, r.entities))
  {
    if !(1 <= depth <= 10) { return BadDepth; }
    if from !in revision.entities { return Unknown(from); }
    if to !in revision.entities { return Unknown(to); }
    var edges := revision.relationships;
    if from == to {
      assert Walk(edges, from, []);
      return Path([from], []);
    }
    var adjacency := Outgoing(edges);
    var queue := [Item(from, [], [from])];
    var visited := {from};
    ghost var order, done := queue, 0;
    ghost var at: map<EntityId, nat> := map[from := 0];
    ghost var universe := {from} + Universe(edges);
    BeginSearch(edges, from, to, depth);
    while queue != []
      invariant Searching(edges, from, to, depth, queue, visited, order, at, done)
      invariant visited <= universe
      decreases universe - visited, |queue|
    {
      var current := queue[0];
      var out := Edges(adjacency, current.at);
      Take(edges, from, to, depth, queue, visited, out, order, at, done);
      queue := queue[1..];
      if |current.edges| < depth {
        var hit, rest, seen, after, where :=
          Expand(edges, out, from, to, depth, queue, visited, current, order, at, done);
        if hit.Some? {
          return Path(hit.value.entities, hit.value.edges);
        }
        VisitsShrink(universe, visited, seen, |queue|, |rest|);
        queue, visited, order, at := rest, seen, after, where;
      }
      done := done + 1;
    }
    Exhausted(edges, from, to, depth, order, at);
    return NoPath;
  }

  // ----- consequences -----

  /** There is at most one best walk. */
  lemma BestIsUnique(edges: seq<Edge>, from: EntityId, to: EntityId, depth: nat, a: seq<Edge>, b: seq<Edge>)
    requires Best(edges, from, to, depth, a) && Best(edges, from, to, depth, b)
    ensures a == b
  {
    if a != b {
      LessTransitive(a, b, a);
      LessIrreflexive(a);
    }
  }

  /** Walks, and so the answer, do not depend on the order in which a revision lists its relationships. */
  lemma {:induction false} WalkIgnoresOrder(a: seq<Edge>, b: seq<Edge>, from: EntityId, walk: seq<Edge>)
    requires Walk(a, from, walk) && forall e :: e in a ==> e in b
    ensures Walk(b, from, walk)
  {
    if walk != [] { WalkIgnoresOrder(a, b, from, walk[..|walk| - 1]); }
  }

  lemma AnswerIgnoresOrder(a: seq<Edge>, b: seq<Edge>, from: EntityId, to: EntityId, depth: nat)
    requires multiset(a) == multiset(b)
    ensures Connected(a, from, to, depth) <==> Connected(b, from, to, depth)
    ensures forall walk :: Best(a, from, to, depth, walk) <==> Best(b, from, to, depth, walk)
  {
    assert forall e :: e in a <==> e in multiset(a);
    assert forall e :: e in b <==> e in multiset(b);
    forall walk: seq<Edge> ensures Walk(a, from, walk) <==> Walk(b, from, walk) {
      if Walk(a, from, walk) { WalkIgnoresOrder(a, b, from, walk); }
      if Walk(b, from, walk) { WalkIgnoresOrder(b, a, from, walk); }
    }
  }
}

/**
 The answer to a neighbourhood query does not depend on the order of its seeds or of the relationships:
 which entities come first, when not all fit the limit, is settled by distance, queue position and
 relationship id.
 */
module NeighborhoodOrder {
  import opened Cartography
  import opened Sorting
  import opened Neighborhoods

  lemma {:induction false} BaseIsPrefix(edges: seq<Edge>, depth: nat, base: seq<Item>, order: seq<Item>)
    requires FirstComeFirst(edges, depth, base, order)
    ensures base <= order
    decreases |order|
  {
    if order != base { BaseIsPrefix(edges, depth, base, order[..|order| - 1]); }
  }

  /** The same relationships in another order. */
  ghost predicate SameEdges(a: seq<Edge>, b: seq<Edge>) {
    UniqueIds(a) && UniqueIds(b) && forall e :: e in a <==> e in b
  }

  lemma NextIsUnique(a: seq<Edge>, b: seq<Edge>, depth: nat, order: seq<Item>, x: Item, y: Item)
    requires SameEdges(a, b) && ComesNext(a, depth, order, x) && ComesNext(b, depth, order, y)
    ensures x == y
  {
    var q: nat, e :| OpensFirst(a, depth, order, q, e) && x == NewItem(order[q], e);
    var r: nat, f :| OpensFirst(b, depth, order, r, f) && y == NewItem(order[r], f);
    assert Opens(b, depth, order, q, e) && Opens(a, depth, order, r, f);
    SameIdSameEdge(a, e, f);
  }

  /** Two rankings from the same base: the shorter one is the beginning of the longer one. */
  lemma {:induction false} OneIsPrefix(a: seq<Edge>, b: seq<Edge>, depth: nat, base: seq<Item>, x: seq<Item>,
      y: seq<Item>)
    requires SameEdges(a, b) && |x| <= |y|
    requires FirstComeFirst(a, depth, base, x) && FirstComeFirst(b, depth, base, y)
    ensures x <= y
    decreases |y|
  {
    BaseIsPrefix(a, depth, base, x);
    BaseIsPrefix(b, depth, base, y);
    if |x| < |y| {
      OneIsPrefix(a, b, depth, base, x, y[..|y| - 1]);
    } else if x != base && y != base {
      var n := |x| - 1;
      OneIsPrefix(a, b, depth, base, x[..n], y[..n]);
      assert y[..n] == x[..n];
      NextIsUnique(a, b, depth, x[..n], x[n], y[n]);
      assert x == x[..n] + [x[n]] && y == y[..n] + [y[n]];
    }
  }

  lemma {:induction false} SortedIsUnique(a: seq<EntityId>, b: seq<EntityId>)
    requires Ascending(a, IdKey) && Ascending(b, IdKey) && multiset(a) == multiset(b)
    ensures a == b
    decreases |a|
  {
    assert |a| == |b| by { assert |multiset(a)| == |multiset(b)|; }
    if a != [] {
      var n := |a| - 1;
      LastIsGreatest(a, b);
      LastIsGreatest(b, a);
      DropLast(a);
      DropLast(b);
      SortedIsUnique(a[..n], b[..n]);
      assert a == a[..n] + [a[n]] && b == b[..n] + [b[n]];
    }
  }

  lemma DropLast(a: seq<EntityId>)
    requires Ascending(a, IdKey) && a != []
    ensures multiset(a[..|a| - 1]) == multiset(a) - multiset{a[|a| - 1]} && Ascending(a[..|a| - 1], IdKey)
  {
    var n := |a| - 1;
    assert a == a[..n] + [a[n]];
    forall i, j | 0 <= i < j < n ensures IdKey(a[..n][i]) <= IdKey(a[..n][j]) {
      assert IdKey(a[i]) <= IdKey(a[j]);
    }
  }

  lemma LastIsGreatest(a: seq<EntityId>, b: seq<EntityId>)
    requires Ascending(a, IdKey) && a != [] && b != [] && multiset(a) == multiset(b)
    ensures b[|b| - 1] <= a[|a| - 1]
  {
    assert b[|b| - 1] in multiset(a);
    var i :| 0 <= i < |a| && a[i] == b[|b| - 1];
    assert i < |a| - 1 ==> IdKey(a[i]) <= IdKey(a[|a| - 1]);
  }

  lemma RankingsAgree(a: seq<Edge>, b: seq<Edge>, ids: seq<EntityId>, same: seq<EntityId>, depth: nat,
      x: seq<Item>, y: seq<Item>)
    requires SameEdges(a, b) && multiset(ids) == multiset(same) && |x| <= |y|
    requires Ranked(a, ids, depth, x) && Ranked(b, same, depth, y)
    ensures x <= y
  {
    var s: seq<EntityId> :| Ascending(s, IdKey) && multiset(s) == multiset(ids) &&
      FirstComeFirst(a, depth, AtZero(s), x);
    var t: seq<EntityId> :|
      Ascending(t, IdKey) && multiset(t) == multiset(same) && FirstComeFirst(b, depth, AtZero(t), y);
    SortedIsUnique(s, t);
    OneIsPrefix(a, b, depth, AtZero(s), x, y);
  }

  // ----- the answer -----

  lemma SameBall(a: seq<Edge>, b: seq<Edge>, seeds: set<EntityId>, k: nat)
    requires forall e :: e in a <==> e in b
    ensures Ball(a, seeds, k) == Ball(b, seeds, k)
  {
    BallGrows(a, seeds);
    BallGrows(b, seeds);
    SameBalls(a, b, (k: nat) => Ball(a, seeds, k), (k: nat) => Ball(b, seeds, k), k);
  }

  lemma BallGrows(edges: seq<Edge>, seeds: set<EntityId>)
    ensures Grown(edges, (k: nat) => Ball(edges, seeds, k))
  {
  }

  lemma {:induction false} SameBalls(a: seq<Edge>, b: seq<Edge>, p: nat -> set<EntityId>, q: nat -> set<EntityId>,
      k: nat)
    requires (forall e :: e in a <==> e in b) && Grown(a, p) && Grown(b, q) && p(0) == q(0)
    ensures p(k) == q(k)
    decreases k
  {
    if k > 0 {
      SameBalls(a, b, p, q, k - 1);
      assert Ring(a, p, k - 1) && Ring(b, q, k - 1);
      SameGrowth(a, b, p(k - 1));
    }
  }

  lemma SameGrowth(a: seq<Edge>, b: seq<Edge>, inner: set<EntityId>)
    requires forall e :: e in a <==> e in b
    ensures Grow(a, inner) == Grow(b, inner)
  {
    assert (set e | e in a && e.source in inner :: e.target) == (set e | e in b && e.source in inner :: e.target);
    assert (set e | e in a && e.target in inner :: e.source) == (set e | e in b && e.target in inner :: e.source);
  }

  /** What the query promises of an answer. */
  ghost predicate Answers(edges: seq<Edge>, ids: seq<EntityId>, depth: nat, limit: nat, found: Found) {
    && Exact(edges, (k: nat) => Ball(edges, SeedSet(ids), k), depth, limit, found)
    && exists order :: Ranked(edges, ids, depth, order) && found.entities == EntitiesOf(order)
  }

  lemma {:induction false} NewEachTime(edges: seq<Edge>, depth: nat, base: seq<Item>, order: seq<Item>, k: nat)
    requires FirstComeFirst(edges, depth, base, order) && |base| <= k < |order|
    ensures order[k].at !in EntitiesOf(order[..k])
    decreases |order|
  {
    BaseIsPrefix(edges, depth, base, order);
    var n := |order| - 1;
    if k < n {
      NewEachTime(edges, depth, base, order[..n], k);
      assert order[..n][..k] == order[..k];
    } else {
      var q: nat, e :| OpensFirst(edges, depth, order[..n], q, e) && order[n] == NewItem(order[..n][q], e);
      assert Opens(edges, depth, order[..n], q, e);
    }
  }

  /** A ranking that goes further has found more. */
  lemma LongerFindsMore(edges: seq<Edge>, ids: seq<EntityId>, depth: nat, x: seq<Item>, y: seq<Item>)
    requires Ranked(edges, ids, depth, y) && x < y && |ids| <= |x|
    ensures EntitiesOf(x) < EntitiesOf(y)
  {
    var s: seq<EntityId> :| Ascending(s, IdKey) && multiset(s) == multiset(ids) &&
      FirstComeFirst(edges, depth, AtZero(s), y);
    assert |s| == |ids| by { assert |multiset(s)| == |multiset(ids)|; }
    NewEachTime(edges, depth, AtZero(s), y, |x|);
    assert y[..|x|] == x && y[|x|] in y;
    assert forall i :: i in x ==> i in y;
  }

  lemma RankedHasSeeds(edges: seq<Edge>, ids: seq<EntityId>, depth: nat, x: seq<Item>)
    requires Ranked(edges, ids, depth, x)
    ensures |ids| <= |x|
  {
    var s: seq<EntityId> :| Ascending(s, IdKey) && multiset(s) == multiset(ids) &&
      FirstComeFirst(edges, depth, AtZero(s), x);
    BaseIsPrefix(edges, depth, AtZero(s), x);
    assert |multiset(s)| == |multiset(ids)|;
  }

  lemma NotFewer(a: seq<Edge>, b: seq<Edge>, ids: seq<EntityId>, same: seq<EntityId>, depth: nat, limit: nat,
      f: Found, g: Found, x: seq<Item>, y: seq<Item>)
    requires SameEdges(a, b) && multiset(ids) == multiset(same) && SeedSet(ids) == SeedSet(same)
    requires Answers(a, ids, depth, limit, f) && Answers(b, same, depth, limit, g)
    requires Ranked(a, ids, depth, x) && f.entities == EntitiesOf(x)
    requires Ranked(b, same, depth, y) && g.entities == EntitiesOf(y) && |x| <= |y|
    ensures x == y
  {
    RankingsAgree(a, b, ids, same, depth, x, y);
    if |x| < |y| {
      RankedHasSeeds(a, ids, depth, x);
      assert |ids| == |same| by { assert |multiset(ids)| == |multiset(same)|; }
      LongerFindsMore(b, same, depth, x, y);
      SameBall(a, b, SeedSet(ids), depth);
      Fewer(f.entities, g.entities);
      assert false;
    }
  }

  lemma Fewer(a: set<EntityId>, b: set<EntityId>)
    requires a < b
    ensures |a| < |b|
  {
    var v :| v in b && v !in a;
    assert a <= b - {v};
    SmallerOrSame(a, b - {v});
  }

  lemma {:induction false} SmallerOrSame(a: set<EntityId>, b: set<EntityId>)
    requires a <= b
    ensures |a| <= |b|
    decreases a
  {
    if a != {} {
      var v :| v in a;
      SmallerOrSame(a - {v}, b - {v});
    }
  }

  /** Any two answers over the same relationships and seeds, however they are listed, are the same. */
  lemma AnswerIgnoresOrder(a: seq<Edge>, b: seq<Edge>, ids: seq<EntityId>, same: seq<EntityId>, depth: nat, limit: nat,
      f: Found, g: Found)
    requires UniqueIds(a) && UniqueIds(b) && (forall e :: e in a <==> e in b) && multiset(ids) == multiset(same)
    requires Answers(a, ids, depth, limit, f) && Answers(b, same, depth, limit, g)
    ensures f == g
  {
    SameMembers(ids, same);
    SameEntities(a, b, ids, same, depth, limit, f, g);
    SameRest(a, b, SeedSet(ids), depth, limit, f, g);
  }

  lemma SameEntities(a: seq<Edge>, b: seq<Edge>, ids: seq<EntityId>, same: seq<EntityId>, depth: nat, limit: nat,
      f: Found, g: Found)
    requires SameEdges(a, b) && multiset(ids) == multiset(same) && SeedSet(ids) == SeedSet(same)
    requires Answers(a, ids, depth, limit, f) && Answers(b, same, depth, limit, g)
    ensures f.entities == g.entities
  {
    var x :| Ranked(a, ids, depth, x) && f.entities == EntitiesOf(x);
    var y :| Ranked(b, same, depth, y) && g.entities == EntitiesOf(y);
    if |x| <= |y| {
      NotFewer(a, b, ids, same, depth, limit, f, g, x, y);
    } else {
      NotFewer(b, a, same, ids, depth, limit, g, f, y, x);
    }
  }

  lemma SameRest(a: seq<Edge>, b: seq<Edge>, seeds: set<EntityId>, depth: nat, limit: nat, f: Found, g: Found)
    requires SameEdges(a, b) && f.entities == g.entities
    requires Exact(a, (k: nat) => Ball(a, seeds, k), depth, limit, f)
    requires Exact(b, (k: nat) => Ball(b, seeds, k), depth, limit, g)
    ensures f == g
  {
    var p, q := (k: nat) => Ball(a, seeds, k), (k: nat) => Ball(b, seeds, k);
    forall k: nat ensures p(k) == q(k) { SameBall(a, b, seeds, k); }
    forall e ensures e in f.relationships <==> e in g.relationships {
      SameNear(p, q, depth, e);
    }
  }

  lemma SameNear(p: nat -> set<EntityId>, q: nat -> set<EntityId>, depth: nat, e: Edge)
    requires forall k: nat :: p(k) == q(k)
    ensures NearEdge(p, depth, e) <==> NearEdge(q, depth, e)
  {
  }
}

/** Sorting by a numeric key, as the source's `sorted(..., key=...)` does: stable and ascending. */
module Sorting {
  ghost predicate Ascending<T>(s: seq<T>, key: T -> nat) {
    forall i, j :: 0 <= i < j < |s| ==> key(s[i]) <= key(s[j])
  }

  ghost predicate StrictlyAscending<T>(s: seq<T>, key: T -> nat) {
    forall i, j :: 0 <= i < j < |s| ==> key(s[i]) < key(s[j])
  }

  predicate UniqueKeys<T>(s: seq<T>, key: T -> nat) {
    forall i, j :: 0 <= i < j < |s| ==> key(s[i]) != key(s[j])
  }

  /** After every element whose key is not larger. */
  function Insert<T>(sorted: seq<T>, x: T, key: T -> nat): seq<T> {
    if sorted == [] || key(x) < key(sorted[0]) then [x] + sorted else [sorted[0]] + Insert(sorted[1..], x, key)
  }

  function Sort<T>(s: seq<T>, key: T -> nat): seq<T> {
    if s == [] then [] else Insert(Sort(s[..|s| - 1], key), s[|s| - 1], key)
  }

  lemma {:induction false} InsertAdds<T>(sorted: seq<T>, x: T, key: T -> nat)
    ensures multiset(Insert(sorted, x, key)) == multiset(sorted) + multiset{x}
  {
    if sorted != [] && key(sorted[0]) <= key(x) {
      InsertAdds(sorted[1..], x, key);
      assert sorted == [sorted[0]] + sorted[1..];
    }
  }

  lemma {:induction false} InsertAscends<T>(sorted: seq<T>, x: T, key: T -> nat)
    requires Ascending(sorted, key)
    ensures Ascending(Insert(sorted, x, key), key)
  {
    if sorted != [] && key(sorted[0]) <= key(x) {
      InsertAscends(sorted[1..], x, key);
      InsertAdds(sorted[1..], x, key);
      var rest := Insert(sorted[1..], x, key);
      forall j | 0 <= j < |rest| ensures key(sorted[0]) <= key(rest[j]) {
        assert rest[j] in multiset(rest);
      }
    }
  }

  /** Sorting rearranges and orders. */
  lemma {:induction false} SortSorts<T>(s: seq<T>, key: T -> nat)
    ensures multiset(Sort(s, key)) == multiset(s) && |Sort(s, key)| == |s|
    ensures Ascending(Sort(s, key), key)
  {
    if s != [] {
      var before := s[..|s| - 1];
      SortSorts(before, key);
      InsertAdds(Sort(before, key), s[|s| - 1], key);
      InsertAscends(Sort(before, key), s[|s| - 1], key);
      assert s == before + [s[|s| - 1]];
    }
    assert |multiset(Sort(s, key))| == |multiset(s)|;
  }

  lemma SameMembers<T>(a: seq<T>, b: seq<T>)
    requires multiset(a) == multiset(b)
    ensures forall x :: x in a <==> x in b
  {
    forall x ensures x in a <==> x in b {
      assert x in multiset(a) <==> x in multiset(b);
    }
  }

  /** Unique keys stay unique under rearrangement. */
  lemma UniqueKeysPermute<T>(a: seq<T>, b: seq<T>, key: T -> nat)
    requires UniqueKeys(a, key) && multiset(a) == multiset(b)
    ensures UniqueKeys(b, key)
  {
    SameMembers(a, b);
    forall i, j | 0 <= i < j < |b| ensures key(b[i]) != key(b[j]) {
      assert b[i] in b && b[j] in b;
      var k :| 0 <= k < |a| && a[k] == b[i];
      var l :| 0 <= l < |a| && a[l] == b[j];
      OnceOnly(a, k, key);
      TwoCopies(b, i, j);
      assert k < l || l < k;
    }
  }

  lemma TwoCopies<T>(s: seq<T>, i: nat, j: nat)
    requires i < j < |s|
    ensures s[i] == s[j] ==> multiset(s)[s[i]] >= 2
  {
    assert s == s[..j] + [s[j]] + s[j + 1..];
    assert s[i] in s[..j];
  }

  lemma OnceOnly<T>(a: seq<T>, k: nat, key: T -> nat)
    requires UniqueKeys(a, key) && k < |a|
    ensures multiset(a)[a[k]] == 1
  {
    assert a == a[..k] + [a[k]] + a[k + 1..];
    assert a[k] !in a[..k] && a[k] !in a[k + 1..];
  }

  /** With unique keys the sorted order does not depend on the given one. */
  lemma SortIgnoresOrder<T>(a: seq<T>, b: seq<T>, key: T -> nat)
    requires UniqueKeys(a, key) && multiset(a) == multiset(b)
    ensures Sort(a, key) == Sort(b, key) && StrictlyAscending(Sort(a, key), key)
  {
    SortSorts(a, key);
    SortSorts(b, key);
    UniqueKeysPermute(a, Sort(a, key), key);
    UniqueKeysPermute(a, Sort(b, key), key);
    StrictOrderIsUnique(Sort(a, key), Sort(b, key), key);
  }

  lemma SameFirst<T>(a: seq<T>, b: seq<T>, key: T -> nat)
    requires StrictlyAscending(a, key) && StrictlyAscending(b, key) && multiset(a) == multiset(b) && a != []
    ensures b != [] && a[0] == b[0]
  {
    SameMembers(a, b);
    assert a[0] in a;
    var i :| 0 <= i < |b| && b[i] == a[0];
    assert b[0] in b;
    var j :| 0 <= j < |a| && a[j] == b[0];
    assert forall x :: 0 < x < |a| ==> key(a[0]) < key(a[x]);
    assert forall x :: 0 < x < |b| ==> key(b[0]) < key(b[x]);
  }

  lemma DropFirst<T>(s: seq<T>)
    requires s != []
    ensures multiset(s[1..]) == multiset(s) - multiset{s[0]}
  {
    assert s == [s[0]] + s[1..];
  }

  lemma {:induction false} StrictOrderIsUnique<T>(a: seq<T>, b: seq<T>, key: T -> nat)
    requires StrictlyAscending(a, key) && StrictlyAscending(b, key) && multiset(a) == multiset(b)
    ensures a == b
  {
    if a == [] {
      assert |multiset(b)| == |b|;
    } else {
      SameFirst(a, b, key);
      DropFirst(a);
      DropFirst(b);
      StrictOrderIsUnique(a[1..], b[1..], key);
    }
  }
}

/**
 Map revisions as validated documents: their canonical order, their adjacency, and the assembly of a
 generated refresh over the protected records of the previous revision.
 */
module MapRevisions {
  import opened Options
  import opened Sorting

  type Id = nat

  datatype Authority = Derived | Attributed | Governing

  /** Any entity record; only symbols name a domain, only institutional records carry authority. */
  datatype Record = Record(id: Id, authority: Authority, domain: Option<Id>, body: nat)

  datatype Relation = Relation(id: Id, source: Id, target: Id, body: nat)

  datatype Binding = Binding(matcher: nat, targets: seq<Id>, body: nat)

  datatype Revision = Revision(
    id: Id, project: Id, body: nat,
    domains: seq<Record>, symbols: seq<Record>, resources: seq<Record>,
    annotations: seq<Record>, claims: seq<Record>, constraints: seq<Record>,
    bindings: seq<Binding>, relations: seq<Relation>)

  function RecordKey(r: Record): nat { r.id }
  function RelationKey(r: Relation): nat { r.id }
  function BindingKey(b: Binding): nat { b.matcher }

  // ----- validity -----

  function AllRecords(r: Revision): seq<Record> {
    r.domains + r.symbols + r.resources + r.annotations + r.claims + r.constraints
  }

  predicate Has(r: Revision, id: Id) { exists x :: x in AllRecords(r) && x.id == id }

  /** Everything but uniqueness: no reference leaves the revision. */
  predicate Closed(r: Revision) {
    && (forall x :: x in r.symbols && x.domain.Some? ==> Has(r, x.domain.value))
    && (forall e :: e in r.relations ==> Has(r, e.source) && Has(r, e.target) && e.source != e.target)
    && (forall b, t :: b in r.bindings && t in b.targets ==> Has(r, t))
  }

  /** What `MapRevision` validates. */
  predicate Valid(r: Revision) {
    UniqueKeys(AllRecords(r), RecordKey) && UniqueKeys(r.relations, RelationKey) && Closed(r)
  }

  /** Whether every key of a list is new: the list of ids against the set of them. */
  method AllNew(keys: seq<Id>) returns (unique: bool, known: set<Id>)
    ensures unique <==> forall i, j :: 0 <= i < j < |keys| ==> keys[i] != keys[j]
    ensures known == set k | k in keys
  {
    unique, known := true, {};
    for i := 0 to |keys|
      invariant unique <==> forall j, k :: 0 <= j < k < i ==> keys[j] != keys[k]
      invariant known == set k | k in keys[..i]
    {
      if keys[i] in known {
        var j :| 0 <= j < i && keys[..i][j] == keys[i];
        assert keys[j] == keys[i];
        unique := false;
      }
      assert forall j :: 0 <= j < i ==> keys[j] in keys[..i];
      assert keys[..i + 1] == keys[..i] + [keys[i]];
      known := known + {keys[i]};
    }
    assert keys[..|keys|] == keys;
  }

  /** The validators of a revision: entity ids, the references to them, then relationship ids. */
  method Validate(r: Revision) returns (ok: bool)
    ensures ok <==> Valid(r)
  {
    var all := AllRecords(r);
    var ids := seq(|all|, i requires 0 <= i < |all| => all[i].id);
    assert forall i :: 0 <= i < |all| ==> RecordKey(all[i]) == ids[i];
    var unique, known := AllNew(ids);
    assert forall id :: id in known <==> Has(r, id) by {
      forall id | Has(r, id) ensures id in ids {
        var x :| x in AllRecords(r) && x.id == id;
        var i :| 0 <= i < |all| && all[i] == x;
        assert ids[i] == id;
      }
    }
    var relations := seq(|r.relations|, i requires 0 <= i < |r.relations| => r.relations[i].id);
    assert forall i :: 0 <= i < |r.relations| ==> RelationKey(r.relations[i]) == relations[i];
    var single, _ := AllNew(relations);
    if !unique || (exists x :: x in r.symbols && x.domain.Some? && x.domain.value !in known) {
      return false;
    }
    if exists e :: e in r.relations && (e.source == e.target || e.source !in known || e.target !in known) {
      return false;
    }
    if exists b :: b in r.bindings && exists t :: t in b.targets && t !in known {
      return false;
    }
    ok := single;
  }

  // ----- canonical order -----

  function Canonical(r: Revision): Revision {
    Revision(r.id, r.project, r.body,
      Sort(r.domains, RecordKey), Sort(r.symbols, RecordKey), Sort(r.resources, RecordKey),
      Sort(r.annotations, RecordKey), Sort(r.claims, RecordKey), Sort(r.constraints, RecordKey),
      Sort(r.bindings, BindingKey), Sort(r.relations, RelationKey))
  }

  lemma {:induction false} SortOfAscending<T>(s: seq<T>, key: T -> nat)
    requires Ascending(s, key)
    ensures Sort(s, key) == s
  {
    if s != [] {
      var before, last := s[..|s| - 1], s[|s| - 1];
      SortOfAscending(before, key);
      InsertLast(before, last, key);
      assert s == before + [last];
    }
  }

  lemma {:induction false} InsertLast<T>(s: seq<T>, x: T, key: T -> nat)
    requires forall i :: 0 <= i < |s| ==> key(s[i]) <= key(x)
    ensures Insert(s, x, key) == s + [x]
  {
    if s != [] {
      InsertLast(s[1..], x, key);
      assert s == [s[0]] + s[1..];
    }
  }

  lemma SortTwice<T>(s: seq<T>, key: T -> nat)
    ensures Sort(Sort(s, key), key) == Sort(s, key)
  {
    SortSorts(s, key);
    SortOfAscending(Sort(s, key), key);
  }

  lemma CanonicalTwice(r: Revision)
    ensures Canonical(Canonical(r)) == Canonical(r)
  {
    SortTwice(r.domains, RecordKey);
    SortTwice(r.symbols, RecordKey);
    SortTwice(r.resources, RecordKey);
    SortTwice(r.annotations, RecordKey);
    SortTwice(r.claims, RecordKey);
    SortTwice(r.constraints, RecordKey);
    SortTwice(r.bindings, BindingKey);
    SortTwice(r.relations, RelationKey);
  }

  lemma SortMembers<T>(s: seq<T>, key: T -> nat)
    ensures forall x :: x in Sort(s, key) <==> x in s
  {
    SortSorts(s, key);
    SameMembers(s, Sort(s, key));
  }

  lemma CanonicalRecords(r: Revision)
    ensures multiset(AllRecords(Canonical(r))) == multiset(AllRecords(r))
    ensures forall x :: x in AllRecords(Canonical(r)) <==> x in AllRecords(r)
  {
    SortSorts(r.domains, RecordKey);
    SortSorts(r.symbols, RecordKey);
    SortSorts(r.resources, RecordKey);
    SortSorts(r.annotations, RecordKey);
    SortSorts(r.claims, RecordKey);
    SortSorts(r.constraints, RecordKey);
    SameMembers(AllRecords(r), AllRecords(Canonical(r)));
  }

  lemma UniqueEitherWay<T>(s: seq<T>, t: seq<T>, key: T -> nat)
    requires multiset(s) == multiset(t)
    ensures UniqueKeys(s, key) <==> UniqueKeys(t, key)
  {
    if UniqueKeys(s, key) { UniqueKeysPermute(s, t, key); }
    if UniqueKeys(t, key) { UniqueKeysPermute(t, s, key); }
  }

  /** The same references over at least the same ids. */
  ghost predicate Covers(c: Revision, r: Revision) {
    && (forall x :: x in c.symbols ==> x in r.symbols)
    && (forall e :: e in c.relations ==> e in r.relations)
    && (forall b :: b in c.bindings ==> b in r.bindings)
    && forall id :: Has(r, id) ==> Has(c, id)
  }

  lemma CoversClosed(c: Revision, r: Revision)
    requires Covers(c, r) && Closed(r)
    ensures Closed(c)
  {
  }

  lemma CanonicalCovers(r: Revision)
    ensures Covers(Canonical(r), r) && Covers(r, Canonical(r))
  {
    CanonicalRecords(r);
    SortMembers(r.relations, RelationKey);
    SortMembers(r.bindings, BindingKey);
    SortMembers(r.symbols, RecordKey);
  }

  lemma CanonicalClosed(r: Revision)
    ensures Closed(Canonical(r)) <==> Closed(r)
  {
    CanonicalCovers(r);
    if Closed(r) { CoversClosed(Canonical(r), r); }
    if Closed(Canonical(r)) { CoversClosed(r, Canonical(r)); }
  }

  lemma CanonicalValid(r: Revision)
    ensures Valid(Canonical(r)) <==> Valid(r)
  {
    CanonicalClosed(r);
    CanonicalRecords(r);
    SortSorts(r.relations, RelationKey);
    UniqueEitherWay(AllRecords(r), AllRecords(Canonical(r)), RecordKey);
    UniqueEitherWay(r.relations, Canonical(r).relations, RelationKey);
  }

  // ----- adjacency -----

  function Leaving(relations: seq<Relation>, source: Id): seq<Id> {
    if relations == [] then []
    else
      var last := relations[|relations| - 1];
      Leaving(relations[..|relations| - 1], source) + if last.source == source then [last.id] else []
  }

  /** The ids of the relations leaving each source, in id order. */
  function AdjacencyOf(relations: seq<Relation>): map<Id, seq<Id>> {
    var ordered := Sort(relations, RelationKey);
    map source | source in Sources(relations) :: Leaving(ordered, source)
  }

  function Sources(relations: seq<Relation>): set<Id> { set e | e in relations :: e.source }

  ghost predicate Lists(adjacency: map<Id, seq<Id>>, relations: seq<Relation>) {
    forall source: Id ::
      && (if source in adjacency then adjacency[source] else []) == Leaving(relations, source)
      && (source in adjacency ==> adjacency[source] != [])
  }

  lemma ListsStep(adjacency: map<Id, seq<Id>>, relations: seq<Relation>, e: Relation)
    requires Lists(adjacency, relations)
    ensures Lists(adjacency[e.source := (if e.source in adjacency then adjacency[e.source] else []) + [e.id]],
      relations + [e])
  {
    assert (relations + [e])[..|relations|] == relations;
  }

  /** `_adjacency`: the loop over the ordered relations. */
  method Adjacency(relations: seq<Relation>) returns (adjacency: map<Id, seq<Id>>)
    ensures adjacency == AdjacencyOf(relations)
  {
    var ordered := Sort(relations, RelationKey);
    adjacency := map[];
    for i := 0 to |ordered|
      invariant Lists(adjacency, ordered[..i])
    {
      var e := ordered[i];
      ListsStep(adjacency, ordered[..i], e);
      assert ordered[..i] + [e] == ordered[..i + 1];
      adjacency := adjacency[e.source := (if e.source in adjacency then adjacency[e.source] else []) + [e.id]];
    }
    assert ordered[..|ordered|] == ordered;
    ListsAll(adjacency, relations);
  }

  lemma ListsAll(adjacency: map<Id, seq<Id>>, relations: seq<Relation>)
    requires Lists(adjacency, Sort(relations, RelationKey))
    ensures adjacency == AdjacencyOf(relations)
  {
    var ordered := Sort(relations, RelationKey);
    SortMembers(relations, RelationKey);
    forall source: Id ensures source in adjacency <==> source in Sources(relations) {
      LeavingSources(ordered, source);
    }
    assert adjacency.Keys == Sources(relations);
  }

  lemma {:induction false} LeavingSources(relations: seq<Relation>, source: Id)
    ensures Leaving(relations, source) != [] <==> source in Sources(relations)
  {
    if relations != [] {
      var before, last := relations[..|relations| - 1], relations[|relations| - 1];
      LeavingSources(before, source);
      assert forall e :: e in relations <==> e in before || e == last;
    }
  }

  lemma AdjacencyCanonical(r: Revision)
    ensures AdjacencyOf(Canonical(r).relations) == AdjacencyOf(r.relations)
  {
    SortTwice(r.relations, RelationKey);
    SortMembers(r.relations, RelationKey);
    assert Sources(Canonical(r).relations) == Sources(r.relations);
  }

  // ----- refresh -----

  /** The records of the previous revision that a refresh may not touch. */
  function Protected(prior: seq<Record>): seq<Record> {
    if prior == [] then []
    else Protected(prior[..|prior| - 1]) + if prior[|prior| - 1].authority.Derived? then [] else [prior[|prior| - 1]]
  }

  function IdsOf(records: seq<Record>): set<Id> { set x | x in records :: x.id }

  /** The generated records whose id is not protected. */
  function Unprotected(generated: seq<Record>, ids: set<Id>): seq<Record> {
    if generated == [] then []
    else
      Unprotected(generated[..|generated| - 1], ids)
      + if generated[|generated| - 1].id in ids then [] else [generated[|generated| - 1]]
  }

  /** `_preserve_records`. */
  function Preserve(prior: seq<Record>, generated: seq<Record>): seq<Record> {
    Sort(Unprotected(generated, IdsOf(Protected(prior))) + Protected(prior), RecordKey)
  }

  predicate AllDerived(records: seq<Record>) { forall i :: 0 <= i < |records| ==> records[i].authority.Derived? }

  datatype Assembly = OtherProject | ForgedAuthority | Assembled(revision: Revision)

  /** `assemble_generated_refresh`.  The result is a copy that is not validated again. */
  function Assemble(prior: Revision, generated: Revision): Assembly {
    if prior.project != generated.project then OtherProject
    else if !AllDerived(generated.annotations + generated.claims + generated.constraints) then ForgedAuthority
    else Assembled(generated.(
      annotations := Preserve(prior.annotations, generated.annotations),
      claims := Preserve(prior.claims, generated.claims),
      constraints := Preserve(prior.constraints, generated.constraints)))
  }

  lemma {:induction false} ProtectedMembers(prior: seq<Record>)
    ensures forall x :: x in Protected(prior) <==> x in prior && !x.authority.Derived?
  {
    if prior != [] { ProtectedMembers(prior[..|prior| - 1]); }
  }

  lemma {:induction false} UnprotectedMembers(generated: seq<Record>, ids: set<Id>)
    ensures forall x :: x in Unprotected(generated, ids) <==> x in generated && x.id !in ids
  {
    if generated != [] { UnprotectedMembers(generated[..|generated| - 1], ids); }
  }

  /**
   A category after a refresh: the protected records as they were, and the generated ones that do not reuse
   their ids.
   */
  lemma PreserveMembers(prior: seq<Record>, generated: seq<Record>)
    ensures forall x :: x in Preserve(prior, generated) <==>
      || (x in prior && !x.authority.Derived?)
      || (x in generated && forall y :: y in prior && !y.authority.Derived? ==> y.id != x.id)
  {
    ProtectedMembers(prior);
    UnprotectedMembers(generated, IdsOf(Protected(prior)));
    SortMembers(Unprotected(generated, IdsOf(Protected(prior))) + Protected(prior), RecordKey);
    forall x
      ensures x in Preserve(prior, generated) <==>
        || (x in prior && !x.authority.Derived?)
        || (x in generated && forall y :: y in prior && !y.authority.Derived? ==> y.id != x.id)
    {
      assert x.id in IdsOf(Protected(prior)) <==> exists y :: y in Protected(prior) && y.id == x.id;
    }
  }

  // ----- when an assembled revision is valid -----

  lemma UniqueConcat(a: seq<Record>, b: seq<Record>)
    ensures UniqueKeys(a + b, RecordKey) <==>
      UniqueKeys(a, RecordKey) && UniqueKeys(b, RecordKey) && IdsOf(a) !! IdsOf(b)
  {
    var all := a + b;
    if UniqueKeys(all, RecordKey) {
      forall i, j | 0 <= i < j < |a|
        ensures RecordKey(a[i]) != RecordKey(a[j]) { assert all[i] == a[i] && all[j] == a[j]; }
      forall i, j | 0 <= i < j < |b| ensures RecordKey(b[i]) != RecordKey(b[j]) {
        assert all[|a| + i] == b[i] && all[|a| + j] == b[j];
      }
      forall x, y | x in a && y in b ensures x.id != y.id {
        var i :| 0 <= i < |a| && a[i] == x;
        var j :| 0 <= j < |b| && b[j] == y;
        assert RecordKey(all[i]) != RecordKey(all[|a| + j]);
      }
    }
    if UniqueKeys(a, RecordKey) && UniqueKeys(b, RecordKey) && IdsOf(a) !! IdsOf(b) {
      forall i, j | 0 <= i < j < |all| ensures RecordKey(all[i]) != RecordKey(all[j]) {
        if i < |a| <= j {
          assert a[i] in a && b[j - |a|] in b;
          assert a[i].id in IdsOf(a) && b[j - |a|].id in IdsOf(b);
        }
      }
    }
  }

  lemma IdsConcat(a: seq<Record>, b: seq<Record>)
    ensures IdsOf(a + b) == IdsOf(a) + IdsOf(b)
  {
    assert forall x :: x in a + b <==> x in a || x in b;
  }

  lemma {:induction false} ProtectedUnique(prior: seq<Record>)
    requires UniqueKeys(prior, RecordKey)
    ensures UniqueKeys(Protected(prior), RecordKey)
  {
    if prior != [] {
      var before, last := prior[..|prior| - 1], prior[|prior| - 1];
      ProtectedUnique(before);
      ProtectedMembers(before);
      assert prior == before + [last];
      UniqueConcat(before, [last]);
      UniqueConcat(Protected(before), [last]);
    }
  }

  lemma {:induction false} UnprotectedUnique(generated: seq<Record>, ids: set<Id>)
    requires UniqueKeys(generated, RecordKey)
    ensures UniqueKeys(Unprotected(generated, ids), RecordKey)
  {
    if generated != [] {
      var before, last := generated[..|generated| - 1], generated[|generated| - 1];
      UnprotectedUnique(before, ids);
      UnprotectedMembers(before, ids);
      assert generated == before + [last];
      UniqueConcat(before, [last]);
      UniqueConcat(Unprotected(before, ids), [last]);
    }
  }

  /** A category stays free of repetitions, and its ids are the generated and the protected ones. */
  lemma PreserveIds(prior: seq<Record>, generated: seq<Record>)
    requires UniqueKeys(prior, RecordKey) && UniqueKeys(generated, RecordKey)
    ensures UniqueKeys(Preserve(prior, generated), RecordKey)
    ensures IdsOf(Preserve(prior, generated)) == IdsOf(generated) + IdsOf(Protected(prior))
  {
    var kept, carried := Unprotected(generated, IdsOf(Protected(prior))), Protected(prior);
    ProtectedUnique(prior);
    UnprotectedUnique(generated, IdsOf(carried));
    UnprotectedMembers(generated, IdsOf(carried));
    UniqueConcat(kept, carried);
    IdsConcat(kept, carried);
    SortSorts(kept + carried, RecordKey);
    UniqueEitherWay(kept + carried, Preserve(prior, generated), RecordKey);
    SortMembers(kept + carried, RecordKey);
    assert IdsOf(Preserve(prior, generated)) == IdsOf(kept + carried);
    forall x | x in generated ensures x.id in IdsOf(kept) + IdsOf(carried) {
      if x.id !in IdsOf(carried) { assert x in kept; }
    }
  }

  /** The ids of the six categories do not overlap. */
  ghost predicate Apart(d: set<Id>, s: set<Id>, r: set<Id>, a: set<Id>, c: set<Id>, k: set<Id>) {
    d !! s && d !! r && d !! a && d !! c && d !! k && s !! r && s !! a && s !! c && s !! k
    && r !! a && r !! c && r !! k && a !! c && a !! k && c !! k
  }

  lemma UniqueSix(r: Revision)
    ensures UniqueKeys(AllRecords(r), RecordKey) <==>
      && UniqueKeys(r.domains, RecordKey) && UniqueKeys(r.symbols, RecordKey) && UniqueKeys(r.resources, RecordKey)
      && UniqueKeys(r.annotations, RecordKey) && UniqueKeys(r.claims, RecordKey) && UniqueKeys(r.constraints, RecordKey)
      && Apart(IdsOf(r.domains), IdsOf(r.symbols), IdsOf(r.resources), IdsOf(r.annotations), IdsOf(r.claims),
           IdsOf(r.constraints))
  {
    var two := r.domains + r.symbols;
    var three := two + r.resources;
    var four := three + r.annotations;
    var five := four + r.claims;
    UniqueConcat(r.domains, r.symbols);
    UniqueConcat(two, r.resources);
    UniqueConcat(three, r.annotations);
    UniqueConcat(four, r.claims);
    UniqueConcat(five, r.constraints);
    IdsConcat(r.domains, r.symbols);
    IdsConcat(two, r.resources);
    IdsConcat(three, r.annotations);
    IdsConcat(four, r.claims);
  }

  /** No protected id of one institutional category is a generated id of any other category. */
  ghost predicate NoCollision(prior: Revision, generated: Revision) {
    var structure := IdsOf(generated.domains) + IdsOf(generated.symbols) + IdsOf(generated.resources);
    && IdsOf(Protected(prior.annotations)) !! structure + IdsOf(generated.claims) + IdsOf(generated.constraints)
    && IdsOf(Protected(prior.claims)) !! structure + IdsOf(generated.annotations) + IdsOf(generated.constraints)
    && IdsOf(Protected(prior.constraints)) !! structure + IdsOf(generated.annotations) + IdsOf(generated.claims)
  }

  lemma ProtectedIds(prior: seq<Record>)
    ensures IdsOf(Protected(prior)) <= IdsOf(prior)
  {
    ProtectedMembers(prior);
  }

  lemma ApartIff(
    d: set<Id>, s: set<Id>, r: set<Id>, a: set<Id>, c: set<Id>, k: set<Id>, pa: set<Id>, pc: set<Id>, pk: set<Id>)
    requires Apart(d, s, r, a, c, k) && pa !! pc && pa !! pk && pc !! pk
    ensures Apart(d, s, r, a + pa, c + pc, k + pk) <==>
      pa !! d + s + r + c + k && pc !! d + s + r + a + k && pk !! d + s + r + a + c
  {
  }

  lemma AssembledUniqueIff(prior: Revision, generated: Revision)
    requires UniqueKeys(AllRecords(prior), RecordKey) && UniqueKeys(AllRecords(generated), RecordKey)
    requires Assemble(prior, generated).Assembled?
    ensures UniqueKeys(AllRecords(Assemble(prior, generated).revision), RecordKey) <==> NoCollision(prior, generated)
  {
    var r := Assemble(prior, generated).revision;
    UniqueSix(prior);
    UniqueSix(generated);
    UniqueSix(r);
    PreserveIds(prior.annotations, generated.annotations);
    PreserveIds(prior.claims, generated.claims);
    PreserveIds(prior.constraints, generated.constraints);
    ProtectedIds(prior.annotations);
    ProtectedIds(prior.claims);
    ProtectedIds(prior.constraints);
    ApartIff(IdsOf(generated.domains), IdsOf(generated.symbols), IdsOf(generated.resources),
      IdsOf(generated.annotations), IdsOf(generated.claims), IdsOf(generated.constraints),
      IdsOf(Protected(prior.annotations)), IdsOf(Protected(prior.claims)), IdsOf(Protected(prior.constraints)));
  }

  lemma AssembledClosed(prior: Revision, generated: Revision)
    requires Closed(generated) && Assemble(prior, generated).Assembled?
    ensures Closed(Assemble(prior, generated).revision)
  {
    var r := Assemble(prior, generated).revision;
    forall id | Has(generated, id) ensures Has(r, id) {
      StillThere(prior, generated, id);
    }
  }

  lemma PreserveKeepsIds(prior: seq<Record>, generated: seq<Record>, id: Id)
    requires exists x :: x in generated && x.id == id
    ensures exists x :: x in Preserve(prior, generated) && x.id == id
  {
    PreserveMembers(prior, generated);
    var x :| x in generated && x.id == id;
    if y :| y in prior && !y.authority.Derived? && y.id == id {
      assert y in Preserve(prior, generated);
    } else {
      assert x in Preserve(prior, generated);
    }
  }

  lemma StillThere(prior: Revision, generated: Revision, id: Id)
    requires Has(generated, id) && Assemble(prior, generated).Assembled?
    ensures Has(Assemble(prior, generated).revision, id)
  {
    var r := Assemble(prior, generated).revision;
    var x :| x in AllRecords(generated) && x.id == id;
    if x in generated.annotations {
      PreserveKeepsIds(prior.annotations, generated.annotations, id);
      var y :| y in r.annotations && y.id == id;
      assert y in AllRecords(r);
    } else if x in generated.claims {
      PreserveKeepsIds(prior.claims, generated.claims, id);
      var y :| y in r.claims && y.id == id;
      assert y in AllRecords(r);
    } else if x in generated.constraints {
      PreserveKeepsIds(prior.constraints, generated.constraints, id);
      var y :| y in r.constraints && y.id == id;
      assert y in AllRecords(r);
    } else {
      assert x in AllRecords(r);
    }
  }

  /** An assembled refresh is a valid revision exactly when no protected id is reused in another category. */
  lemma AssembledValidIff(prior: Revision, generated: Revision)
    requires Valid(prior) && Valid(generated) && Assemble(prior, generated).Assembled?
    ensures Valid(Assemble(prior, generated).revision) <==> NoCollision(prior, generated)
  {
    AssembledUniqueIff(prior, generated);
    AssembledClosed(prior, generated);
  }

  /** A governing annotation, and a refresh that generates a constraint under the same id. */
  const GOVERNED := Revision(1, 1, 0, [], [], [], [Record(1, Governing, None, 0)], [], [], [], [])
  const RECLASSIFIED := Revision(2, 1, 0, [], [], [], [], [], [Record(1, Derived, None, 0)], [], [])

  lemma ReclassifiedRefreshIsInvalid()
    ensures Valid(GOVERNED) && Valid(RECLASSIFIED) && Assemble(GOVERNED, RECLASSIFIED).Assembled?
    ensures !Valid(Assemble(GOVERNED, RECLASSIFIED).revision)
  {
    var governing := Record(1, Governing, None, 0);
    assert AllRecords(GOVERNED) == [governing] && AllRecords(RECLASSIFIED) == [Record(1, Derived, None, 0)];
    ProtectedMembers(GOVERNED.annotations);
    assert governing in Protected(GOVERNED.annotations);
    assert 1 in IdsOf(Protected(GOVERNED.annotations)) && RECLASSIFIED.constraints[0] in RECLASSIFIED.constraints;
    assert 1 in IdsOf(RECLASSIFIED.constraints);
    AssembledValidIff(GOVERNED, RECLASSIFIED);
  }
}

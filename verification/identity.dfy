/**
 `reconcile_entities`: which durable identity each extracted candidate gets, and what becomes of
 every identity of the previous map revision.
 */
module Identities {
  import opened Options
  import opened Sorting

  datatype Kind = DomainKind | SymbolKind | ResourceKind | ClaimKind | ConstraintKind | AnnotationKind

  /** A durable identity: its kind prefix and a unique number. */
  datatype EntityId = EntityId(kind: Kind, uuid: nat)

  datatype EvidenceKind = SemanticSignature | ExplicitRefactor | HumanAssertion | PathOrName
  datatype Evidence = Evidence(kind: EvidenceKind, reference: nat)

  datatype Prior = Prior(id: EntityId, kind: Kind)

  datatype Candidate = Candidate(id: nat, kind: Kind, predecessors: seq<EntityId>, evidence: seq<Evidence>) {
    /** Claims are unique and come with evidence. */
    ghost predicate Valid() {
      && (predecessors != [] ==> evidence != [])
      && forall i, j :: 0 <= i < j < |predecessors| ==> predecessors[i] != predecessors[j]
    }

    predicate Strong() { exists i :: 0 <= i < |evidence| && !evidence[i].kind.PathOrName? }
  }

  datatype Outcome = Preserved | New | Split | Merged | Ambiguous

  /** A possible-successor link from an earlier identity. */
  datatype Link = Link(source: EntityId, target: EntityId, evidence: seq<Evidence>)

  datatype Reconciled = Reconciled(
    candidate: nat, entity: EntityId, outcome: Outcome, predecessors: seq<EntityId>, evidence: seq<Evidence>,
    links: seq<Link>)

  datatype Answer =
    | RepeatedPrior | RepeatedCandidate | UnknownPredecessor(candidate: nat) | OtherKind
    | Decided(candidates: seq<Reconciled>, deleted: set<EntityId>)

  ghost predicate UniquePriors(priors: seq<Prior>) {
    forall i, j :: 0 <= i < j < |priors| ==> priors[i].id != priors[j].id
  }

  function CandidateKey(c: Candidate): nat { c.id }

  function KindOf(priors: seq<Prior>): map<EntityId, Kind> {
    if priors == [] then map[]
    else KindOf(priors[..|priors| - 1])[priors[|priors| - 1].id := priors[|priors| - 1].kind]
  }

  // ----- claims -----

  /** How many candidates claim an identity. */
  function Claims(candidates: seq<Candidate>, id: EntityId): nat {
    if candidates == [] then 0
    else Claims(candidates[..|candidates| - 1], id) + if id in candidates[|candidates| - 1].predecessors then 1 else 0
  }

  /** A strong claim that nobody shares: the only way an identity is carried on. */
  predicate CarriesOn(c: Candidate, candidates: seq<Candidate>) {
    |c.predecessors| == 1 && Claims(candidates, c.predecessors[0]) == 1 && c.Strong()
  }

  function OutcomeOf(c: Candidate, candidates: seq<Candidate>): Outcome {
    if c.predecessors == [] then New
    else if |c.predecessors| > 1 then Merged
    else if Claims(candidates, c.predecessors[0]) > 1 then Split
    else Ambiguous
  }

  function LinksTo(c: Candidate, id: EntityId): (links: seq<Link>)
    ensures |links| == |c.predecessors|
    ensures forall i :: 0 <= i < |links| ==> links[i] == Link(c.predecessors[i], id, c.evidence)
  {
    seq(|c.predecessors|, i requires 0 <= i < |c.predecessors| => Link(c.predecessors[i], id, c.evidence))
  }

  function Decide(c: Candidate, candidates: seq<Candidate>, uuid: nat): Reconciled {
    if CarriesOn(c, candidates) then Reconciled(c.id, c.predecessors[0], Preserved, c.predecessors, c.evidence, [])
    else
      var id := EntityId(c.kind, uuid);
      Reconciled(c.id, id, OutcomeOf(c, candidates), c.predecessors, c.evidence, LinksTo(c, id))
  }

  /** How many fresh numbers the first candidates use up. */
  function Minted(some: seq<Candidate>, candidates: seq<Candidate>): nat {
    if some == [] then 0
    else Minted(some[..|some| - 1], candidates) + if CarriesOn(some[|some| - 1], candidates) then 0 else 1
  }

  /** The decisions in order, drawing fresh numbers one by one. */
  function Decisions(some: seq<Candidate>, candidates: seq<Candidate>, uuids: nat -> nat): seq<Reconciled> {
    if some == [] then []
    else
      var before := some[..|some| - 1];
      Decisions(before, candidates, uuids) + [Decide(some[|some| - 1], candidates, uuids(Minted(before, candidates)))]
  }

  predicate Known(c: Candidate, kinds: map<EntityId, Kind>) {
    forall i :: 0 <= i < |c.predecessors| ==> c.predecessors[i] in kinds
  }

  predicate SameKind(c: Candidate, kinds: map<EntityId, Kind>) {
    forall i :: 0 <= i < |c.predecessors| && c.predecessors[i] in kinds ==> kinds[c.predecessors[i]] == c.kind
  }

  ghost predicate Admitted(priors: seq<Prior>, candidates: seq<Candidate>) {
    && UniquePriors(priors) && UniqueKeys(candidates, CandidateKey)
    && forall i :: 0 <= i < |candidates| ==>
         Known(candidates[i], KindOf(priors)) && SameKind(candidates[i], KindOf(priors))
  }

  // ----- the method -----

  /** The dictionary of claims, counted. */
  ghost predicate Counts(claimed: map<EntityId, nat>, candidates: seq<Candidate>) {
    forall id :: (id in claimed <==> Claims(candidates, id) > 0) &&
      (id in claimed ==> claimed[id] == Claims(candidates, id))
  }

  predicate Stronger(k: EvidenceKind) { k == SemanticSignature || k == ExplicitRefactor || k == HumanAssertion }

  /** Evidence is strong when it is more than a path or a name. */
  lemma StrongIff(c: Candidate)
    ensures c.Strong() <==> exists e :: e in c.evidence && Stronger(e.kind)
  {
    if c.Strong() {
      var i :| 0 <= i < |c.evidence| && !c.evidence[i].kind.PathOrName?;
      assert c.evidence[i] in c.evidence;
    }
  }

  method CountClaims(candidates: seq<Candidate>) returns (claimed: map<EntityId, nat>)
    requires forall i :: 0 <= i < |candidates| ==> candidates[i].Valid()
    ensures Counts(claimed, candidates)
  {
    claimed := map[];
    for i := 0 to |candidates|
      invariant Counts(claimed, candidates[..i])
    {
      var c := candidates[i];
      assert candidates[..i + 1][..i] == candidates[..i] && candidates[..i + 1][i] == c;
      ghost var start := claimed;
      for j := 0 to |c.predecessors|
        invariant forall id ::
          var n := Claims(candidates[..i], id) + if id in c.predecessors[..j] then 1 else 0;
          (id in claimed <==> n > 0) && (id in claimed ==> claimed[id] == n)
      {
        var id := c.predecessors[j];
        assert c.Valid() && id !in c.predecessors[..j];
        claimed := claimed[id := (if id in claimed then claimed[id] else 0) + 1];
      }
      assert c.predecessors[..|c.predecessors|] == c.predecessors;
    }
    assert candidates[..|candidates|] == candidates;
  }

  method HasRepeats<T(==)>(ids: seq<T>) returns (repeated: bool)
    ensures repeated <==> exists i, j :: 0 <= i < j < |ids| && ids[i] == ids[j]
  {
    var seen: set<T> := {};
    for i := 0 to |ids|
      invariant seen == set x | x in ids[..i]
      invariant forall k, j :: 0 <= k < j < i ==> ids[k] != ids[j]
    {
      if ids[i] in seen {
        var k :| 0 <= k < i && ids[..i][k] == ids[i];
        assert ids[k] == ids[i];
        return true;
      }
      assert forall k :: 0 <= k < i ==> ids[k] in ids[..i];
      seen := seen + {ids[i]};
    }
    return false;
  }

  /** The first candidate that claims an unknown identity, or one of another kind. */
  method CheckClaims(candidates: seq<Candidate>, kinds: map<EntityId, Kind>) returns (fault: Option<Answer>)
    ensures fault.None? <==>
      forall i :: 0 <= i < |candidates| ==> Known(candidates[i], kinds) && SameKind(candidates[i], kinds)
    ensures fault.Some? ==> fault.value.UnknownPredecessor? || fault.value.OtherKind?
    ensures fault.Some? && fault.value.UnknownPredecessor? ==>
      exists i :: 0 <= i < |candidates| && candidates[i].id == fault.value.candidate && !Known(candidates[i], kinds)
    ensures fault.Some? && fault.value.OtherKind? ==>
      exists i :: 0 <= i < |candidates| && !SameKind(candidates[i], kinds)
  {
    for i := 0 to |candidates|
      invariant forall k :: 0 <= k < i ==> Known(candidates[k], kinds) && SameKind(candidates[k], kinds)
    {
      if !Known(candidates[i], kinds) { return Some(UnknownPredecessor(candidates[i].id)); }
      if !SameKind(candidates[i], kinds) { return Some(OtherKind); }
    }
    return None;
  }

  /** `reconcile_entities`. */
  method Reconcile(priors: seq<Prior>, candidates: seq<Candidate>, uuids: nat -> nat) returns (r: Answer)
    requires forall i :: 0 <= i < |candidates| ==> candidates[i].Valid()
    ensures r.RepeatedPrior? <==> !UniquePriors(priors)
    ensures r.RepeatedCandidate? <==> UniquePriors(priors) && !UniqueKeys(candidates, CandidateKey)
    ensures r.Decided? <==> Admitted(priors, candidates)
    ensures r.UnknownPredecessor? ==>
      exists i :: 0 <= i < |candidates| && candidates[i].id == r.candidate && !Known(candidates[i], KindOf(priors))
    ensures r.OtherKind? ==> exists i :: 0 <= i < |candidates| && !SameKind(candidates[i], KindOf(priors))
    ensures r.Decided? ==>
      && r.candidates == Decisions(Sort(candidates, CandidateKey), candidates, uuids)
      && r.deleted == set id | id in KindOf(priors) && Claims(candidates, id) == 0
  {
    var priorIds := seq(|priors|, i requires 0 <= i < |priors| => priors[i].id);
    var repeated := HasRepeats(priorIds);
    assert forall i :: 0 <= i < |priors| ==> priorIds[i] == priors[i].id;
    if repeated { return RepeatedPrior; }
    assert UniquePriors(priors) by {
      forall i, j | 0 <= i < j < |priors| ensures priors[i].id != priors[j].id { assert priorIds[i] != priorIds[j]; }
    }
    var ids := seq(|candidates|, i requires 0 <= i < |candidates| => candidates[i].id);
    repeated := HasRepeats(ids);
    assert forall i :: 0 <= i < |candidates| ==> ids[i] == candidates[i].id;
    if repeated { return RepeatedCandidate; }
    assert UniqueKeys(candidates, CandidateKey) by {
      forall i, j | 0 <= i < j < |candidates| ensures CandidateKey(candidates[i]) != CandidateKey(candidates[j]) {
        assert ids[i] != ids[j];
      }
    }
    var kinds := KindOf(priors);
    var fault := CheckClaims(candidates, kinds);
    if fault.Some? { return fault.value; }
    var claimed := CountClaims(candidates);
    var sorted := Sort(candidates, CandidateKey);
    var decided: seq<Reconciled> := [];
    var next := 0;
    for i := 0 to |sorted|
      invariant decided == Decisions(sorted[..i], candidates, uuids) && next == Minted(sorted[..i], candidates)
    {
      var c := sorted[i];
      assert sorted[..i + 1][..i] == sorted[..i] && sorted[..i + 1][i] == c;
      var claims := if c.predecessors != [] && c.predecessors[0] in claimed then claimed[c.predecessors[0]] else 0;
      StrongIff(c);
      var strong := exists e :: e in c.evidence && Stronger(e.kind);
      if |c.predecessors| == 1 && claims == 1 && strong {
        decided := decided + [Reconciled(c.id, c.predecessors[0], Preserved, c.predecessors, c.evidence, [])];
      } else {
        var id := EntityId(c.kind, uuids(next));
        next := next + 1;
        var outcome :=
          if c.predecessors == [] then New
          else if |c.predecessors| > 1 then Merged
          else if claims > 1 then Split
          else Ambiguous;
        decided := decided + [Reconciled(c.id, id, outcome, c.predecessors, c.evidence, LinksTo(c, id))];
      }
    }
    assert sorted[..|sorted|] == sorted;
    return Decided(decided, kinds.Keys - claimed.Keys);
  }

  // ----- conservation -----

  /** Fresh numbers never repeat and never name an earlier identity. */
  ghost predicate FreshNumbers(uuids: nat -> nat, priors: seq<Prior>) {
    && (forall i: nat, j: nat :: uuids(i) == uuids(j) ==> i == j)
    && forall i: nat, k :: 0 <= k < |priors| ==> priors[k].id.uuid != uuids(i)
  }

  /** The decision about one of the ordered candidates. */
  lemma {:induction false} DecisionAt(some: seq<Candidate>, candidates: seq<Candidate>, uuids: nat -> nat, k: nat)
    requires k < |some|
    ensures |Decisions(some, candidates, uuids)| == |some|
    ensures Decisions(some, candidates, uuids)[k] == Decide(some[k], candidates, uuids(Minted(some[..k], candidates)))
  {
    var n := |some| - 1;
    DecisionCount(some[..n], candidates, uuids);
    if k < n {
      DecisionAt(some[..n], candidates, uuids, k);
      assert some[..n][..k] == some[..k];
    }
  }

  lemma {:induction false} DecisionCount(some: seq<Candidate>, candidates: seq<Candidate>, uuids: nat -> nat)
    ensures |Decisions(some, candidates, uuids)| == |some|
  {
    if some != [] { DecisionCount(some[..|some| - 1], candidates, uuids); }
  }

  lemma {:induction false} MintedGrows(some: seq<Candidate>, candidates: seq<Candidate>, i: nat, j: nat)
    requires i < j <= |some|
    ensures Minted(some[..j], candidates) >= Minted(some[..i], candidates) + if CarriesOn(some[i], candidates) then 0
      else 1
    decreases j
  {
    assert some[..j][..j - 1] == some[..j - 1];
    if i < j - 1 { MintedGrows(some, candidates, i, j - 1); }
  }

  /** Two different claimants are counted twice. */
  lemma {:induction false} ClaimsCount(candidates: seq<Candidate>, id: EntityId, i: nat)
    requires i < |candidates| && id in candidates[i].predecessors
    ensures Claims(candidates, id) >= 1
    ensures (exists j :: 0 <= j < |candidates| && j != i && id in candidates[j].predecessors) ==>
      Claims(candidates, id) >= 2
  {
    var n := |candidates| - 1;
    if j :| 0 <= j < |candidates| && j != i && id in candidates[j].predecessors {
      if i < n {
        ClaimsCount(candidates[..n], id, i);
        if j < n { assert candidates[..n][j] == candidates[j]; }
      } else {
        ClaimsCount(candidates[..n], id, j);
      }
    } else if i < n {
      ClaimsCount(candidates[..n], id, i);
    }
  }

  lemma {:induction false} ClaimedBySomeone(candidates: seq<Candidate>, id: EntityId)
    ensures Claims(candidates, id) == 0 <==> forall i :: 0 <= i < |candidates| ==> id !in candidates[i].predecessors
  {
    if candidates != [] {
      var before := candidates[..|candidates| - 1];
      ClaimedBySomeone(before, id);
      assert forall i :: 0 <= i < |before| ==> before[i] == candidates[i];
    }
  }

  lemma {:induction false} KindsOfPriors(priors: seq<Prior>)
    ensures forall id :: id in KindOf(priors) <==> exists k :: 0 <= k < |priors| && priors[k].id == id
  {
    if priors != [] {
      var before := priors[..|priors| - 1];
      KindsOfPriors(before);
      assert forall k :: 0 <= k < |before| ==> before[k] == priors[k];
    }
  }

  lemma DifferentEntities(c: Candidate, d: Candidate, candidates: seq<Candidate>, u: nat, v: nat)
    requires CarriesOn(c, candidates) && CarriesOn(d, candidates) ==> c.predecessors[0] != d.predecessors[0]
    requires !CarriesOn(c, candidates) && !CarriesOn(d, candidates) ==> u != v
    requires CarriesOn(c, candidates) ==> c.predecessors[0].uuid != v
    requires CarriesOn(d, candidates) ==> d.predecessors[0].uuid != u
    ensures Decide(c, candidates, u).entity != Decide(d, candidates, v).entity
  {
  }

  /** No two candidates end up with one identity. */
  lemma IdentitiesAreDistinct(priors: seq<Prior>, candidates: seq<Candidate>, uuids: nat -> nat, i: nat, j: nat)
    requires Admitted(priors, candidates) && FreshNumbers(uuids, priors) && i < j < |candidates|
    ensures var r := Decisions(Sort(candidates, CandidateKey), candidates, uuids);
      |r| == |candidates| && r[i].entity != r[j].entity
  {
    var sorted := Sort(candidates, CandidateKey);
    SortSorts(candidates, CandidateKey);
    DecisionAt(sorted, candidates, uuids, i);
    DecisionAt(sorted, candidates, uuids, j);
    MintedGrows(sorted, candidates, i, j);
    CarriedIsPrior(priors, candidates, i);
    CarriedIsPrior(priors, candidates, j);
    if CarriesOn(sorted[i], candidates) && CarriesOn(sorted[j], candidates) {
      SharedClaim(candidates, i, j, sorted[i].predecessors[0]);
    }
    DifferentEntities(sorted[i], sorted[j], candidates,
      uuids(Minted(sorted[..i], candidates)), uuids(Minted(sorted[..j], candidates)));
  }

  /** Two sorted places hold two different candidates, so a claim both make is counted twice. */
  lemma SharedClaim(candidates: seq<Candidate>, i: nat, j: nat, id: EntityId)
    requires UniqueKeys(candidates, CandidateKey) && i < j < |Sort(candidates, CandidateKey)|
    ensures var sorted := Sort(candidates, CandidateKey);
      id in sorted[i].predecessors && id in sorted[j].predecessors ==> Claims(candidates, id) >= 2
  {
    var sorted := Sort(candidates, CandidateKey);
    SortSorts(candidates, CandidateKey);
    UniqueKeysPermute(candidates, sorted, CandidateKey);
    SameMembers(candidates, sorted);
    assert sorted[i] in candidates && sorted[j] in candidates;
    var k :| 0 <= k < |candidates| && candidates[k] == sorted[i];
    var l :| 0 <= l < |candidates| && candidates[l] == sorted[j];
    assert k != l;
    if id in candidates[k].predecessors && id in candidates[l].predecessors {
      ClaimsCount(candidates, id, k);
    }
  }

  /** A carried-on identity is an earlier one. */
  lemma CarriedIsPrior(priors: seq<Prior>, candidates: seq<Candidate>, i: nat)
    requires Admitted(priors, candidates) && i < |Sort(candidates, CandidateKey)|
    ensures var c := Sort(candidates, CandidateKey)[i];
      CarriesOn(c, candidates) ==>
        c.predecessors[0] in c.predecessors && exists k :: 0 <= k < |priors| && priors[k].id == c.predecessors[0]
  {
    var sorted := Sort(candidates, CandidateKey);
    SortSorts(candidates, CandidateKey);
    SameMembers(candidates, sorted);
    assert sorted[i] in candidates;
    var k :| 0 <= k < |candidates| && candidates[k] == sorted[i];
    assert Known(candidates[k], KindOf(priors));
    KindsOfPriors(priors);
  }

  /** Every claimant of `id` is decided without it, and links to it. */
  ghost predicate LinkedFromAll(r: seq<Reconciled>, sorted: seq<Candidate>, id: EntityId)
    requires |r| == |sorted|
  {
    forall k :: 0 <= k < |r| && id in sorted[k].predecessors ==>
      && r[k].entity != id && !r[k].outcome.Preserved?
      && exists l :: 0 <= l < |r[k].links| && r[k].links[l] == Link(id, r[k].entity, sorted[k].evidence)
  }

  ghost predicate PreservedByOne(r: seq<Reconciled>, sorted: seq<Candidate>, id: EntityId)
    requires |r| == |sorted|
  {
    exists k :: 0 <= k < |r| && r[k].entity == id && r[k].outcome.Preserved? && r[k].links == []
      && sorted[k].predecessors == [id] && forall j :: 0 <= j < |r| && id in sorted[j].predecessors ==> j == k
  }

  /** Every earlier identity is deleted, carried on by its only claimant, or linked from all its claimants. */
  lemma EveryPriorAccounted(priors: seq<Prior>, candidates: seq<Candidate>, uuids: nat -> nat, id: EntityId)
    requires forall i :: 0 <= i < |candidates| ==> candidates[i].Valid()
    requires Admitted(priors, candidates) && FreshNumbers(uuids, priors) && id in KindOf(priors)
    ensures var sorted := Sort(candidates, CandidateKey);
      var r := Decisions(sorted, candidates, uuids);
      && |r| == |sorted|
      && (if Claims(candidates, id) == 0 then forall k :: 0 <= k < |sorted| ==>
           id !in sorted[k].predecessors && r[k].entity != id
          else PreservedByOne(r, sorted, id) <==> !LinkedFromAll(r, sorted, id))
  {
    var sorted := Sort(candidates, CandidateKey);
    var r := Decisions(sorted, candidates, uuids);
    DecisionCount(sorted, candidates, uuids);
    SortSorts(candidates, CandidateKey);
    SameMembers(candidates, sorted);
    ClaimedBySomeone(candidates, id);
    if carrier :| 0 <= carrier < |sorted| && id in sorted[carrier].predecessors
                  && CarriesOn(sorted[carrier], candidates) {
      CarriedAlone(priors, candidates, uuids, id, carrier);
    } else {
      NobodyCarries(priors, candidates, uuids, id);
      if Claims(candidates, id) == 0 {
        forall k | 0 <= k < |sorted| ensures id !in sorted[k].predecessors { assert sorted[k] in candidates; }
      }
    }
  }

  lemma CarriedAlone(priors: seq<Prior>, candidates: seq<Candidate>, uuids: nat -> nat, id: EntityId, carrier: nat)
    requires Admitted(priors, candidates) && carrier < |Sort(candidates, CandidateKey)|
    requires id in Sort(candidates, CandidateKey)[carrier].predecessors &&
      CarriesOn(Sort(candidates, CandidateKey)[carrier], candidates)
    ensures var sorted := Sort(candidates, CandidateKey);
      var r := Decisions(sorted, candidates, uuids);
      |r| == |sorted| && PreservedByOne(r, sorted, id) && !LinkedFromAll(r, sorted, id) && Claims(candidates, id) == 1
  {
    var sorted := Sort(candidates, CandidateKey);
    DecisionAt(sorted, candidates, uuids, carrier);
    assert sorted[carrier].predecessors == [id];
    forall j | 0 <= j < |sorted| && id in sorted[j].predecessors ensures j == carrier {
      if j < carrier { SharedClaim(candidates, j, carrier, id); }
      if carrier < j { SharedClaim(candidates, carrier, j, id); }
    }
  }

  ghost predicate NoCarrier(some: seq<Candidate>, candidates: seq<Candidate>, id: EntityId) {
    forall k :: 0 <= k < |some| && id in some[k].predecessors ==> !CarriesOn(some[k], candidates)
  }

  lemma NobodyCarries(priors: seq<Prior>, candidates: seq<Candidate>, uuids: nat -> nat, id: EntityId)
    requires Admitted(priors, candidates) && FreshNumbers(uuids, priors) && id in KindOf(priors)
    requires NoCarrier(Sort(candidates, CandidateKey), candidates, id)
    ensures var sorted := Sort(candidates, CandidateKey);
      var r := Decisions(sorted, candidates, uuids);
      && |r| == |sorted| && LinkedFromAll(r, sorted, id) && !PreservedByOne(r, sorted, id)
      && forall k :: 0 <= k < |r| ==> r[k].entity != id
  {
    var sorted := Sort(candidates, CandidateKey);
    var r := Decisions(sorted, candidates, uuids);
    DecisionCount(sorted, candidates, uuids);
    KindsOfPriors(priors);
    forall k | 0 <= k < |r|
      ensures r[k].entity != id
      ensures id in sorted[k].predecessors ==> !r[k].outcome.Preserved?
      ensures id in sorted[k].predecessors ==>
        exists l :: 0 <= l < |r[k].links| && r[k].links[l] == Link(id, r[k].entity, sorted[k].evidence)
    {
      DecisionAt(sorted, candidates, uuids, k);
      if id in sorted[k].predecessors {
        assert !CarriesOn(sorted[k], candidates);
        MintedIsLinked(sorted[k], candidates, uuids(Minted(sorted[..k], candidates)), id);
      }
    }
  }

  /** A candidate that carries nothing on links its new identity from each of its predecessors. */
  lemma MintedIsLinked(c: Candidate, candidates: seq<Candidate>, uuid: nat, id: EntityId)
    requires !CarriesOn(c, candidates) && id in c.predecessors
    ensures var r := Decide(c, candidates, uuid);
      && !r.outcome.Preserved? && |r.links| == |c.predecessors|
      && exists l :: 0 <= l < |r.links| && r.links[l] == Link(id, r.entity, c.evidence)
  {
    var r := Decide(c, candidates, uuid);
    var l :| 0 <= l < |c.predecessors| && c.predecessors[l] == id;
    assert r.links[l] == Link(id, r.entity, c.evidence);
  }

  // ----- order -----

  lemma {:induction false} ClaimsSplit(a: seq<Candidate>, b: seq<Candidate>, id: EntityId)
    ensures Claims(a + b, id) == Claims(a, id) + Claims(b, id)
  {
    if b == [] {
      assert a + b == a;
    } else {
      assert (a + b)[..|a + b| - 1] == a + b[..|b| - 1];
      ClaimsSplit(a, b[..|b| - 1], id);
    }
  }

  lemma {:induction false} ClaimsInsert(sorted: seq<Candidate>, c: Candidate, id: EntityId)
    ensures Claims(Insert(sorted, c, CandidateKey), id) == Claims(sorted, id) + Claims([c], id)
  {
    if sorted == [] || c.id < sorted[0].id {
      ClaimsSplit([c], sorted, id);
    } else {
      ClaimsInsert(sorted[1..], c, id);
      ClaimsSplit([sorted[0]], sorted[1..], id);
      ClaimsSplit([sorted[0]], Insert(sorted[1..], c, CandidateKey), id);
      assert sorted == [sorted[0]] + sorted[1..];
    }
  }

  lemma {:induction false} ClaimsSorted(candidates: seq<Candidate>, id: EntityId)
    ensures Claims(Sort(candidates, CandidateKey), id) == Claims(candidates, id)
  {
    if candidates != [] {
      var before, last := candidates[..|candidates| - 1], candidates[|candidates| - 1];
      ClaimsSorted(before, id);
      ClaimsInsert(Sort(before, CandidateKey), last, id);
      ClaimsSplit(before, [last], id);
      assert candidates == before + [last];
    }
  }

  /** The same candidates in another order get the same decisions, number for number. */
  lemma DecisionsIgnoreOrder(a: seq<Candidate>, b: seq<Candidate>, uuids: nat -> nat)
    requires UniqueKeys(a, CandidateKey) && multiset(a) == multiset(b)
    ensures Decisions(Sort(a, CandidateKey), a, uuids) == Decisions(Sort(b, CandidateKey), b, uuids)
    ensures forall id :: Claims(a, id) == Claims(b, id)
  {
    SortIgnoresOrder(a, b, CandidateKey);
    forall id ensures Claims(a, id) == Claims(b, id) {
      ClaimsSorted(a, id);
      ClaimsSorted(b, id);
    }
    SameDecisions(Sort(a, CandidateKey), a, b, uuids);
  }

  lemma {:induction false} SameDecisions(some: seq<Candidate>, a: seq<Candidate>, b: seq<Candidate>, uuids: nat -> nat)
    requires forall id :: Claims(a, id) == Claims(b, id)
    ensures Decisions(some, a, uuids) == Decisions(some, b, uuids) && Minted(some, a) == Minted(some, b)
  {
    if some != [] { SameDecisions(some[..|some| - 1], a, b, uuids); }
  }
}

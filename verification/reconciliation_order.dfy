/**
 Readiness without any order: a declarative account of when `Reconcile` finds no reason, and
 with it the independence of that outcome from the order of references, sources and targets.
 */
module ReconciliationOrder {
  import opened Options
  import opened RunModel
  import opened Reconciliations

  // ----- readiness, stated over multisets and sets -----

  /** One observation per evidence id, and no copies. */
  ghost predicate DistinctEvidence(refs: multiset<Observed>) {
    && (forall o :: o in refs ==> refs[o] == 1)
    && (forall a, b :: a in refs && b in refs && a.evidence == b.evidence ==> a == b)
  }

  /** The evidence is there, authoritative, present, and exactly the one referred to. */
  ghost predicate Supports(refs: multiset<Observed>, r: Reference) {
    exists o :: o in refs && o.evidence == r.evidence && o.authoritative && o.condition.Present?
      && o.source == r.source && o.revision == r.revision
  }

  ghost predicate MaySupply(refs: multiset<Observed>, r: Reference) {
    && (r.source.WorkItem? || r.source.Specification?)
    && exists o :: o in refs && o.evidence == r.evidence && o.authoritative
  }

  /** Two paths name the same file, as far as the project can tell. */
  predicate SameFile(p: Path, q: Path, paths: PathInspection, fold: Path -> Path) {
    if paths.caseSensitive then p == q else fold(p) == fold(q)
  }

  ghost predicate DistinctTargets(targets: multiset<Target>, paths: PathInspection, fold: Path -> Path) {
    && (forall t :: t in targets ==> targets[t] == 1)
    && (forall a, b :: a in targets && b in targets && a != b ==>
         a.id != b.id && !SameFile(a.path, b.path, paths, fold))
  }

  /** The exact sources, without their order and without the order of their targets. */
  function Sources(exact: seq<Exact>): set<(Reference, multiset<Target>)> {
    set e | e in exact :: (e.reference, multiset(e.targets))
  }

  /** The contract describes a target under this id, and every such description means the same. */
  ghost predicate Described(c: Sealed, t: Target) {
    && (exists u :: u in c.targets && u.id == t.id)
    && forall u :: u in c.targets && u.id == t.id ==> u.path == t.path && u.assignments == t.assignments
  }

  /** A supplied source is current, supported, unambiguous, and agrees with the contract. */
  ghost predicate Agrees(
    c: Sealed, current: Current, refs: multiset<Observed>, s: (Reference, multiset<Target>), paths: PathInspection,
    fold: Path -> Path)
  {
    && (s.0.source.WorkItem? ==> current.identities(WorkItemRevision) == Some(s.0.revision))
    && (s.0.source.Specification? ==> current.identities(SpecificationRevision) == Some(s.0.revision))
    && Supports(refs, s.0)
    && DistinctTargets(s.1, paths, fold)
    && forall t :: t in s.1 ==> Described(c, t)
  }

  ghost predicate Supplied(refs: multiset<Observed>, sources: set<(Reference, multiset<Target>)>, t: Target) {
    exists s :: s in sources && MaySupply(refs, s.0) && t in s.1
  }

  ghost predicate SuppliedUnder(refs: multiset<Observed>, sources: set<(Reference, multiset<Target>)>, id: Id) {
    exists t :: Supplied(refs, sources, t) && t.id == id
  }

  ghost predicate SourcesAgree(
    c: Sealed, current: Current, refs: multiset<Observed>, sources: set<(Reference, multiset<Target>)>,
    paths: PathInspection, stages: set<Reconciliations.Stage>, fold: Path -> Path)
  {
    && (forall s :: s in sources && MaySupply(refs, s.0) ==> Agrees(c, current, refs, s, paths, fold))
    && (forall t, u :: Supplied(refs, sources, t) && Supplied(refs, sources, u) && t.id != u.id ==>
          !SameFile(t.path, u.path, paths, fold))
    && (ArchitectureStage !in stages ==>
          forall i :: 0 <= i < |c.targets| ==> SuppliedUnder(refs, sources, c.targets[i].id))
  }

  /** The contract, or one of its targets, rests on this reference. */
  ghost predicate Retains(c: Sealed, r: Reference) {
    r in c.references || exists t :: t in c.targets && r in t.references
  }

  ghost predicate Cited(c: Sealed, s: Source, v: Revision) {
    exists r :: Retains(c, r) && r.source == s && r.revision == v
  }

  ghost predicate Assigned(c: Sealed, a: Assignment) { exists t :: t in c.targets && a in t.assignments }

  /**
   The paths of exactly this contract's targets were inspected, its stages are the recipe's, it pins the
   revisions it rests on, and a Driver has work in every Driver stage of the recipe.
   */
  ghost predicate ContractReady(c: Sealed, paths: PathInspection, stages: set<Reconciliations.Stage>) {
    && paths.contract == Some(c.id)
    && multiset(paths.checked) == multiset(TargetIds(c.targets))
    && (forall a :: Assigned(c, a) ==> a.stage in stages)
    && Cited(c, WorkItem, c.identities(WorkItemRevision))
    && Cited(c, Specification, c.identities(SpecificationRevision))
    && (exists a :: Assigned(c, a) && a.owner.DriverRole?)
    && (forall stage :: stage in stages && (stage.RedStage? || stage.GreenStage?) ==>
          exists a :: Assigned(c, a) && a.stage == stage)
  }

  /** The contract itself is current, supported and confirmed by its exact sources. */
  ghost predicate DetailReady(
    c: Sealed, current: Current, refs: multiset<Observed>, sources: set<(Reference, multiset<Target>)>,
    paths: PathInspection, recipe: Recipe, fold: Path -> Path)
    requires recipe.Some?
  {
    && IdentitiesMatch(c, current)
    && ContractReady(c, paths, recipe.value)
    && (forall r :: Retains(c, r) ==> Supports(refs, r))
    && (ArchitectureStage in recipe.value ==> SameArchitect(c, current))
    && SourcesAgree(c, current, refs, sources, paths, recipe.value, fold)
  }

  ghost predicate IdentitiesMatch(c: Sealed, current: Current) {
    forall i: Identity :: current.identities(i) == Some(c.identities(i)) && c.identities(i).Pinned?
  }

  predicate SameArchitect(c: Sealed, current: Current) {
    && c.architectExecution.Some? && c.planDigest.Some?
    && c.architectExecution == current.architectExecution && c.planDigest == current.planDigest
  }

  predicate SameAuthorization(contract: Option<Sealed>, current: Current, paths: PathInspection,
      previous: Option<Prior>)
  {
    var id := if contract.Some? then Some(contract.value.id) else None;
    previous.None?
    || previous.value ==
         Prior(id, current.recipe, current.identities(SourceRevision), paths.scopeDigest, paths.pathDigest)
  }

  /** Ready: every side condition holds, and no clause mentions an order. */
  ghost predicate ReadyWhen(
    contract: Option<Sealed>, current: Current, refs: multiset<Observed>, sources: set<(Reference, multiset<Target>)>,
    paths: PathInspection, previous: Option<Prior>, recipe: Recipe, fold: Path -> Path)
  {
    && contract.Some? && recipe.Some?
    && current.unresolved == {} && paths.reasons == {}
    && DistinctEvidence(refs)
    && DetailReady(contract.value, current, refs, sources, paths, recipe, fold)
    && SameAuthorization(contract, current, paths, previous)
  }

  // ----- sequences against multisets -----

  lemma EvidenceDistinct(refs: seq<Observed>)
    ensures !RepeatsEvidence(refs) <==> DistinctEvidence(multiset(refs))
  {
    if DistinctEvidence(multiset(refs)) {
      forall i, j | 0 <= i < j < |refs| ensures refs[i].evidence != refs[j].evidence {
        assert refs[i] in multiset(refs) && refs[j] in multiset(refs);
        if refs[i].evidence == refs[j].evidence { TwiceIn(refs, i, j); }
      }
    }
    if !RepeatsEvidence(refs) {
      forall o | o in multiset(refs) ensures multiset(refs)[o] == 1 { OnceIn(refs, o); }
      forall a, b | a in multiset(refs) && b in multiset(refs) && a.evidence == b.evidence ensures a == b {
        var i :| 0 <= i < |refs| && refs[i] == a;
        var j :| 0 <= j < |refs| && refs[j] == b;
      }
    }
  }

  lemma TwiceIn<T>(s: seq<T>, i: nat, j: nat)
    requires i < j < |s| && s[i] == s[j]
    ensures multiset(s)[s[i]] >= 2
  {
    assert s == s[..j] + [s[j]] + s[j + 1..];
    assert s[i] in s[..j];
  }

  lemma {:induction false} OnceIn<T>(s: seq<T>, x: T)
    requires x in s && forall i, j :: 0 <= i < j < |s| ==> s[i] != s[j]
    ensures multiset(s)[x] == 1
  {
    var k :| 0 <= k < |s| && s[k] == x;
    assert s == s[..k] + [x] + s[k + 1..];
    assert x !in s[..k] && x !in s[k + 1..];
  }

  lemma TargetsDistinct(targets: seq<Target>, paths: PathInspection, fold: Path -> Path)
    ensures !RepeatsTarget(targets, paths, fold) <==> DistinctTargets(multiset(targets), paths, fold)
  {
    if DistinctTargets(multiset(targets), paths, fold) {
      forall i, j | 0 <= i < j < |targets|
        ensures targets[i].id != targets[j].id && Key(targets[i].path, paths, fold) != Key(targets[j].path, paths, fold)
      {
        assert targets[i] in multiset(targets) && targets[j] in multiset(targets);
        if targets[i] == targets[j] { TwiceIn(targets, i, j); }
      }
    }
    if !RepeatsTarget(targets, paths, fold) {
      forall t | t in multiset(targets) ensures multiset(targets)[t] == 1 { OnceIn(targets, t); }
      forall a, b | a in multiset(targets) && b in multiset(targets) && a != b
        ensures a.id != b.id && !SameFile(a.path, b.path, paths, fold)
      {
        var i :| 0 <= i < |targets| && targets[i] == a;
        var j :| 0 <= j < |targets| && targets[j] == b;
        assert i < j || j < i;
      }
    }
  }

  /** Without repeated evidence the last observation is the only one. */
  lemma LastIsOnly(refs: seq<Observed>, o: Observed)
    requires !RepeatsEvidence(refs) && o in refs
    ensures LastObserved(refs, o.evidence) == Some(o)
  {
    var last := LastObserved(refs, o.evidence);
    var i :| 0 <= i < |refs| && refs[i] == o;
    var j :| 0 <= j < |refs| && refs[j] == last.value;
    assert i < j || j < i || i == j;
  }

  lemma VerdictSupports(refs: seq<Observed>, r: Reference)
    requires !RepeatsEvidence(refs)
    ensures Verdict(refs, r).None? <==> Supports(multiset(refs), r)
  {
    if o :| o in multiset(refs) && o.evidence == r.evidence && o.authoritative && o.condition.Present?
            && o.source == r.source && o.revision == r.revision {
      LastIsOnly(refs, o);
    }
  }

  lemma CountsMaySupply(refs: seq<Observed>, e: Exact)
    requires !RepeatsEvidence(refs)
    ensures Counts(refs, e) <==> MaySupply(multiset(refs), e.reference)
  {
    if o :| o in multiset(refs) && o.evidence == e.reference.evidence && o.authoritative {
      LastIsOnly(refs, o);
    }
  }

  // ----- the reading loop, source by source -----

  lemma {:induction false} ExactSilentIff(current: Current, paths: PathInspection, fold: Path -> Path,
      exact: seq<Exact>)
    ensures ExactReasons(current, paths, fold, exact) == {} <==>
      forall k :: 0 <= k < |exact| ==> SourceReasons(current, paths, fold, exact[k]) == {}
  {
    if exact != [] {
      var before := exact[..|exact| - 1];
      ExactSilentIff(current, paths, fold, before);
      assert forall k :: 0 <= k < |before| ==> before[k] == exact[k];
    }
  }

  lemma {:induction false} UsableTargetIff(refs: seq<Observed>, exact: seq<Exact>, t: Target)
    ensures t in UsableTargets(refs, exact) <==>
      exists k :: 0 <= k < |exact| && Usable(refs, exact[k]) && t in exact[k].targets
  {
    if exact != [] {
      var before := exact[..|exact| - 1];
      UsableTargetIff(refs, before, t);
      assert forall k :: 0 <= k < |before| ==> before[k] == exact[k];
    }
  }

  /** Once every source that counts is usable, the targets read are exactly the targets supplied. */
  lemma SuppliedIsRead(refs: seq<Observed>, exact: seq<Exact>, t: Target)
    requires !RepeatsEvidence(refs)
    requires forall k :: 0 <= k < |exact| && Counts(refs, exact[k]) ==> Usable(refs, exact[k])
    ensures Supplied(multiset(refs), Sources(exact), t) <==> t in UsableTargets(refs, exact)
  {
    UsableTargetIff(refs, exact, t);
    if Supplied(multiset(refs), Sources(exact), t) {
      var s :| s in Sources(exact) && MaySupply(multiset(refs), s.0) && t in s.1;
      var e :| e in exact && s == (e.reference, multiset(e.targets));
      var k :| 0 <= k < |exact| && exact[k] == e;
      CountsMaySupply(refs, e);
    }
    if t in UsableTargets(refs, exact) {
      var k :| 0 <= k < |exact| && Usable(refs, exact[k]) && t in exact[k].targets;
      CountsMaySupply(refs, exact[k]);
      assert (exact[k].reference, multiset(exact[k].targets)) in Sources(exact);
    }
  }

  lemma KnownMeaning(targets: seq<Target>, t: Target)
    requires !Clash(targets) && t in targets
    ensures t.id in Authoritative(targets) && MeaningOf(Authoritative(targets)[t.id]) == MeaningOf(t)
  {
    AuthoritativeKnows(targets);
    var i :| 0 <= i < |targets| && targets[i] == t;
    var j :| 0 <= j < |targets| && targets[j] == Authoritative(targets)[t.id];
    assert i < j || j < i || i == j;
  }

  ghost predicate ReadUnder(read: seq<Target>, id: Id) {
    exists t :: t in read && t.id == id
  }

  /** The targets that were read agree with each other and with the contract. */
  ghost predicate Settled(c: Sealed, read: seq<Target>, paths: PathInspection, stages: set<Reconciliations.Stage>,
      fold: Path -> Path)
  {
    && (forall t :: t in read ==> Described(c, t))
    && (forall t, u :: t in read && u in read && t.id != u.id ==> Key(t.path, paths, fold) != Key(u.path, paths, fold))
    && (ArchitectureStage !in stages ==> forall i :: 0 <= i < |c.targets| ==> ReadUnder(read, c.targets[i].id))
  }

  lemma SilentComparisonSettles(c: Sealed, read: seq<Target>, paths: PathInspection, recipe: Recipe, fold: Path -> Path)
    requires recipe.Some? && ComparedReasons(c, Authoritative(read), Clash(read), paths, recipe, fold) == {}
    ensures Settled(c, read, paths, recipe.value, fold)
  {
    var known := Authoritative(read);
    AuthoritativeKnows(read);
    SilentParts(c, known, Clash(read), paths, recipe, fold);
    IdsOf(c.targets);
    forall t | t in read ensures Described(c, t) && t.id in known && known[t.id].path == t.path {
      KnownMeaning(read, t);
    }
    if ArchitectureStage !in recipe.value {
      forall i | 0 <= i < |c.targets| ensures ReadUnder(read, c.targets[i].id) {
        assert known[c.targets[i].id] in read;
      }
    }
  }

  lemma SilentParts(c: Sealed, known: map<Id, Target>, clash: bool, paths: PathInspection, recipe: Recipe,
      fold: Path -> Path)
    requires recipe.Some?
    ensures ComparedReasons(c, known, clash, paths, recipe, fold) == {} <==>
      && !clash && !Differs(c.targets, known) && !Extra(c.targets, known) && !SharedPath(known, paths, fold)
      && (ArchitectureStage !in recipe.value ==> !Absent(c.targets, known))
  {
    var all := ComparedReasons(c, known, clash, paths, recipe, fold);
    assert clash || Differs(c.targets, known) ==> ContradictoryEvidence in all;
    assert Extra(c.targets, known) ==> MissingTargets in all;
    assert SharedPath(known, paths, fold) ==> DuplicateTargets in all;
    assert ArchitectureStage !in recipe.value && Absent(c.targets, known) ==> MissingTargets in all;
  }

  lemma SettledComparesSilently(c: Sealed, read: seq<Target>, paths: PathInspection, recipe: Recipe, fold: Path -> Path)
    requires recipe.Some? && Settled(c, read, paths, recipe.value, fold)
    ensures ComparedReasons(c, Authoritative(read), Clash(read), paths, recipe, fold) == {}
  {
    var known := Authoritative(read);
    AuthoritativeKnows(read);
    SilentParts(c, known, Clash(read), paths, recipe, fold);
    forall i, j | 0 <= i < j < |read| && read[i].id == read[j].id ensures MeaningOf(read[i]) == MeaningOf(read[j]) {
      assert read[i] in read && read[j] in read;
      var u :| u in c.targets && u.id == read[i].id;
    }
    forall i | 0 <= i < |c.targets| && c.targets[i].id in known
      ensures MeaningOf(known[c.targets[i].id]) == MeaningOf(c.targets[i])
    {
      assert Described(c, known[c.targets[i].id]);
    }
    forall id | id in known ensures id in TargetIds(c.targets) {
      assert Described(c, known[id]);
      IdsOf(c.targets);
    }
  }

  // ----- the outcome -----

  lemma SourceSilentIff(c: Sealed, current: Current, paths: PathInspection, fold: Path -> Path, e: Exact)
    requires !RepeatsEvidence(current.references)
    ensures SourceReasons(current, paths, fold, e) == {} <==>
      (Counts(current.references, e) ==>
        && Some(e.reference.revision) == Expected(current, e.reference.source)
        && Supports(multiset(current.references), e.reference)
        && DistinctTargets(multiset(e.targets), paths, fold))
  {
    var all := SourceReasons(current, paths, fold, e);
    VerdictSupports(current.references, e.reference);
    TargetsDistinct(e.targets, paths, fold);
    if Counts(current.references, e) {
      assert Some(e.reference.revision) != Expected(current, e.reference.source) ==> StaleEvidence in all;
      var failed := Verdict(current.references, e.reference);
      assert failed.Some? ==> failed.value in all;
      assert failed.None? && RepeatsTarget(e.targets, paths, fold) ==> DuplicateTargets in all;
    }
  }

  lemma SourcesAgreeIff(c: Sealed, current: Current, paths: PathInspection, recipe: Recipe, fold: Path -> Path)
    requires recipe.Some? && !RepeatsEvidence(current.references)
    ensures
      (ExactReasons(current, paths, fold, current.exact) == {}
       && AuthorityReasons(c, current, paths, recipe, fold) == {}) <==>
      SourcesAgree(c, current, multiset(current.references), Sources(current.exact), paths, recipe.value, fold)
  {
    var refs, exact := current.references, current.exact;
    var read := UsableTargets(refs, exact);
    if ExactReasons(current, paths, fold, exact) == {} && AuthorityReasons(c, current, paths, recipe, fold) == {} {
      SilentSourcesAgree(c, current, paths, recipe, fold);
    }
    if SourcesAgree(c, current, multiset(refs), Sources(exact), paths, recipe.value, fold) {
      AgreeingSourcesSilent(c, current, paths, recipe, fold);
    }
  }

  lemma SilentSourcesAgree(c: Sealed, current: Current, paths: PathInspection, recipe: Recipe, fold: Path -> Path)
    requires recipe.Some? && !RepeatsEvidence(current.references)
    requires ExactReasons(current, paths, fold, current.exact) == {} &&
      AuthorityReasons(c, current, paths, recipe, fold) == {}
    ensures SourcesAgree(c, current, multiset(current.references), Sources(current.exact), paths, recipe.value, fold)
  {
    var refs, exact := current.references, current.exact;
    var read := UsableTargets(refs, exact);
    ExactSilentIff(current, paths, fold, exact);
    forall k | 0 <= k < |exact| && Counts(refs, exact[k])
      ensures Usable(refs, exact[k]) && DistinctTargets(multiset(exact[k].targets), paths, fold)
      ensures Some(exact[k].reference.revision) == Expected(current, exact[k].reference.source)
    {
      SourceSilentIff(c, current, paths, fold, exact[k]);
      VerdictSupports(refs, exact[k].reference);
    }
    SilentComparisonSettles(c, read, paths, recipe, fold);
    forall t ensures Supplied(multiset(refs), Sources(exact), t) <==> t in read { SuppliedIsRead(refs, exact, t); }
    forall id | ReadUnder(read, id) ensures SuppliedUnder(multiset(refs), Sources(exact), id) {}
    forall s | s in Sources(exact) && MaySupply(multiset(refs), s.0)
      ensures Agrees(c, current, multiset(refs), s, paths, fold)
    {
      var e :| e in exact && s == (e.reference, multiset(e.targets));
      var k :| 0 <= k < |exact| && exact[k] == e;
      CountsMaySupply(refs, e);
      VerdictSupports(refs, e.reference);
      forall t | t in s.1 ensures Described(c, t) {
        assert Supplied(multiset(refs), Sources(exact), t);
      }
    }
  }

  lemma AgreeingSourcesSilent(c: Sealed, current: Current, paths: PathInspection, recipe: Recipe, fold: Path -> Path)
    requires recipe.Some? && !RepeatsEvidence(current.references)
    requires SourcesAgree(c, current, multiset(current.references), Sources(current.exact), paths, recipe.value, fold)
    ensures ExactReasons(current, paths, fold, current.exact) == {} &&
      AuthorityReasons(c, current, paths, recipe, fold) == {}
  {
    var refs, exact := current.references, current.exact;
    var read := UsableTargets(refs, exact);
    ExactSilentIff(current, paths, fold, exact);
    forall k | 0 <= k < |exact|
      ensures SourceReasons(current, paths, fold, exact[k]) == {}
      ensures Counts(refs, exact[k]) ==> Usable(refs, exact[k])
    {
      SourceSilentIff(c, current, paths, fold, exact[k]);
      CountsMaySupply(refs, exact[k]);
      VerdictSupports(refs, exact[k].reference);
      assert (exact[k].reference, multiset(exact[k].targets)) in Sources(exact);
    }
    forall t ensures Supplied(multiset(refs), Sources(exact), t) <==> t in read { SuppliedIsRead(refs, exact, t); }
    forall t | t in read ensures Described(c, t) {
      var s :| s in Sources(exact) && MaySupply(multiset(refs), s.0) && t in s.1;
      assert Agrees(c, current, multiset(refs), s, paths, fold);
    }
    forall id | SuppliedUnder(multiset(refs), Sources(exact), id) ensures ReadUnder(read, id) {}
    SettledComparesSilently(c, read, paths, recipe, fold);
  }

  lemma IdentitiesSilentIff(c: Sealed, current: Current)
    ensures AllIdentityReasons(c, current) == {} <==> IdentitiesMatch(c, current)
  {
    assert IDENTITIES[0] == Project && IDENTITIES[1] == WorkItemRevision && IDENTITIES[2] == SpecificationRevision
      && IDENTITIES[3] == SourceRevision && IDENTITIES[4] == AdmissionDecision;
    forall i: Identity ensures IdentityReasons(c, current, i) <= AllIdentityReasons(c, current) {
      assert i == IDENTITIES[0] || i == IDENTITIES[1] || i == IDENTITIES[2] || i == IDENTITIES[3] || i == IDENTITIES[4];
    }
    forall i: Identity
      ensures IdentityReasons(c, current, i) == {} <==>
        current.identities(i) == Some(c.identities(i)) && c.identities(i).Pinned?
    {
      var all := IdentityReasons(c, current, i);
      assert Unpinned(current.identities(i)) ==> MissingEvidence in all;
      assert !Unpinned(current.identities(i)) && current.identities(i) != Some(c.identities(i)) ==>
        StaleEvidence in all;
    }
  }

  lemma RetainsIff(c: Sealed, r: Reference)
    ensures Retains(c, r) <==> r in Retained(c)
  {
  }

  lemma AssignedIff(c: Sealed, a: Assignment)
    ensures Assigned(c, a) <==>
      exists i, k :: 0 <= i < |c.targets| && 0 <= k < |c.targets[i].assignments| && c.targets[i].assignments[k] == a
  {
    if Assigned(c, a) {
      var t :| t in c.targets && a in t.assignments;
      var i :| 0 <= i < |c.targets| && c.targets[i] == t;
      var k :| 0 <= k < |t.assignments| && t.assignments[k] == a;
      assert c.targets[i].assignments[k] == a;
    }
    if i, k :| 0 <= i < |c.targets| && 0 <= k < |c.targets[i].assignments| && c.targets[i].assignments[k] == a {
      assert c.targets[i] in c.targets && a in c.targets[i].assignments;
    }
  }

  lemma StagesIff(c: Sealed, stages: set<Reconciliations.Stage>)
    ensures (forall a :: Assigned(c, a) ==> a.stage in stages) <==>
      forall i :: 0 <= i < |c.targets| ==> AllStagesIn(c.targets[i], stages)
  {
    forall a ensures Assigned(c, a) <==>
      exists i, k :: 0 <= i < |c.targets| && 0 <= k < |c.targets[i].assignments| && c.targets[i].assignments[k] == a
    {
      AssignedIff(c, a);
    }
    forall i, k | 0 <= i < |c.targets| && 0 <= k < |c.targets[i].assignments|
      ensures Assigned(c, c.targets[i].assignments[k])
    {
    }
  }

  lemma AssignsIff(c: Sealed, stage: Reconciliations.Stage)
    ensures AssignsStage(c.targets, stage) <==> exists a :: Assigned(c, a) && a.stage == stage
    ensures AssignsDriver(c.targets) <==> exists a :: Assigned(c, a) && a.owner.DriverRole?
  {
    forall a ensures Assigned(c, a) <==>
      exists i, k :: 0 <= i < |c.targets| && 0 <= k < |c.targets[i].assignments| && c.targets[i].assignments[k] == a
    {
      AssignedIff(c, a);
    }
    forall i, k | 0 <= i < |c.targets| && 0 <= k < |c.targets[i].assignments|
      ensures Assigned(c, c.targets[i].assignments[k])
    {
    }
  }

  lemma CitedIff(c: Sealed, s: Source, v: Revision)
    ensures Cited(c, s, v) <==> HasSource(Retained(c), s, v)
  {
    forall r ensures Retains(c, r) <==> r in Retained(c) { RetainsIff(c, r); }
  }

  /** The parts of the contract's own checks, one by one. */
  lemma ContractParts(c: Sealed, paths: PathInspection, recipe: Recipe)
    requires recipe.Some?
    ensures ContractReasons(c, paths, recipe) == {} <==>
      && paths.contract == Some(c.id) && multiset(paths.checked) == multiset(TargetIds(c.targets))
      && (forall i :: 0 <= i < |c.targets| ==> AllStagesIn(c.targets[i], recipe.value))
      && HasSource(Retained(c), WorkItem, c.identities(WorkItemRevision))
      && HasSource(Retained(c), Specification, c.identities(SpecificationRevision))
      && AssignsDriver(c.targets) && !RequiredPhaseMissing(c, recipe.value)
  {
    var foreign := exists i :: 0 <= i < |c.targets| && !AllStagesIn(c.targets[i], recipe.value);
    var uncited := !HasSource(Retained(c), WorkItem, c.identities(WorkItemRevision))
      || !HasSource(Retained(c), Specification, c.identities(SpecificationRevision));
    SixSilent(When(paths.contract != Some(c.id), StaleEvidence),
      When(multiset(paths.checked) != multiset(TargetIds(c.targets)), MissingEvidence),
      When(foreign, IncompatibleRecipe), When(uncited, MissingEvidence),
      When(!AssignsDriver(c.targets), MissingTargets), When(RequiredPhaseMissing(c, recipe.value), MissingTargets));
    forall b: bool, r: Reason ensures When(b, r) == {} <==> !b { WhenSilent(b, r); }
  }

  lemma WhenSilent(b: bool, r: Reason)
    ensures When(b, r) == {} <==> !b
  {
    assert b ==> r in When(b, r);
  }

  lemma ContractSilentIff(c: Sealed, paths: PathInspection, recipe: Recipe)
    requires recipe.Some?
    ensures ContractReasons(c, paths, recipe) == {} <==> ContractReady(c, paths, recipe.value)
  {
    ContractParts(c, paths, recipe);
    StagesIff(c, recipe.value);
    CitedIff(c, WorkItem, c.identities(WorkItemRevision));
    CitedIff(c, Specification, c.identities(SpecificationRevision));
    AssignsIff(c, RedStage);
    AssignsIff(c, GreenStage);
  }

  lemma VerdictsSilentIff(refs: seq<Observed>, c: Sealed)
    requires !RepeatsEvidence(refs)
    ensures VerdictReasons(refs, Retained(c)) == {} <==> forall r :: Retains(c, r) ==> Supports(multiset(refs), r)
  {
    var retained := Retained(c);
    forall r ensures Retains(c, r) <==> r in retained { RetainsIff(c, r); }
    forall r | r in retained
      ensures Verdict(refs, r).None? <==> Supports(multiset(refs), r) { VerdictSupports(refs, r); }
    forall r | r in retained && Verdict(refs, r).Some?
      ensures Verdict(refs, r).value in VerdictReasons(refs, retained) {}
  }

  lemma ArchitectSilentIff(c: Sealed, current: Current, recipe: Recipe)
    requires recipe.Some?
    ensures ArchitectReasons(c, current, recipe) == {} <==>
      (ArchitectureStage in recipe.value ==> SameArchitect(c, current))
  {
    var all := ArchitectReasons(c, current, recipe);
    if ArchitectureStage in recipe.value {
      assert current.architectExecution.None? || current.planDigest.None? ==> MissingEvidence in all;
      assert c.architectExecution != current.architectExecution || c.planDigest != current.planDigest ==>
        StaleEvidence in all;
    }
  }

  lemma PriorSilentIff(contract: Option<Sealed>, current: Current, paths: PathInspection, previous: Option<Prior>)
    ensures PriorReasons(contract, current, paths, previous) == {} <==>
      SameAuthorization(contract, current, paths, previous)
  {
    var all := PriorReasons(contract, current, paths, previous);
    assert !SameAuthorization(contract, current, paths, previous) ==> StaleEvidence in all;
  }

  lemma SixSilent<T>(a: set<T>, b: set<T>, c: set<T>, d: set<T>, e: set<T>, f: set<T>)
    ensures a + b + c + d + e + f == {} <==> a == {} && b == {} && c == {} && d == {} && e == {} && f == {}
  {
    var all := a + b + c + d + e + f;
    assert a <= all && b <= all && c <= all && d <= all && e <= all && f <= all;
  }

  lemma DetailSilentIff(c: Sealed, current: Current, paths: PathInspection, recipe: Recipe, fold: Path -> Path)
    requires recipe.Some? && !RepeatsEvidence(current.references)
    ensures DetailReasons(c, current, paths, recipe, fold) == {} <==>
      DetailReady(c, current, multiset(current.references), Sources(current.exact), paths, recipe, fold)
  {
    IdentitiesSilentIff(c, current);
    ContractSilentIff(c, paths, recipe);
    VerdictsSilentIff(current.references, c);
    ArchitectSilentIff(c, current, recipe);
    SourcesAgreeIff(c, current, paths, recipe, fold);
    SixSilent(AllIdentityReasons(c, current), ContractReasons(c, paths, recipe),
      VerdictReasons(current.references, Retained(c)), ArchitectReasons(c, current, recipe),
      ExactReasons(current, paths, fold, current.exact), AuthorityReasons(c, current, paths, recipe, fold));
  }

  /** `Reconcile` is ready exactly when this order-free account holds. */
  lemma ReadyIff(
    contract: Option<Sealed>, current: Current, paths: PathInspection, previous: Option<Prior>, recipe: Recipe,
    fold: Path -> Path)
    ensures Reasons(contract, current, paths, previous, recipe, fold) == {} <==>
      ReadyWhen(contract, current, multiset(current.references), Sources(current.exact), paths, previous, recipe, fold)
  {
    EvidenceDistinct(current.references);
    PriorSilentIff(contract, current, paths, previous);
    var detail :=
      if contract.None? then {MissingTargets} else DetailReasons(contract.value, current, paths, recipe, fold);
    var unknown := When(recipe.None?, IncompatibleRecipe);
    var repeated := When(RepeatsEvidence(current.references), ContradictoryEvidence);
    SixSilent(current.unresolved, paths.reasons, unknown, repeated, detail,
      PriorReasons(contract, current, paths, previous));
    assert IncompatibleRecipe in unknown <==> recipe.None?;
    assert ContradictoryEvidence in repeated <==> RepeatsEvidence(current.references);
    assert contract.None? ==> MissingTargets in detail;
    if recipe.Some? && contract.Some? && !RepeatsEvidence(current.references) {
      DetailSilentIff(contract.value, current, paths, recipe, fold);
    }
  }

  // ----- order -----

  /** Two reads of the same evidence in another order: references, sources, and targets inside each source. */
  ghost predicate Reordered(a: Current, b: Current) {
    && b == a.(references := b.references, exact := b.exact)
    && multiset(a.references) == multiset(b.references)
    && Sources(a.exact) == Sources(b.exact)
  }

  /** A permutation of sources, with the targets of each permuted as well, has the same `Sources`. */
  lemma PermutedSources(a: seq<Exact>, b: seq<Exact>, position: nat -> nat, origin: nat -> nat)
    requires |a| == |b|
    requires forall i :: 0 <= i < |a| ==> position(i) < |b|
    requires forall j :: 0 <= j < |b| ==> origin(j) < |a| && position(origin(j)) == j
    requires forall i :: 0 <= i < |a| ==>
      a[i].reference == b[position(i)].reference && multiset(a[i].targets) == multiset(b[position(i)].targets)
    ensures Sources(a) == Sources(b)
  {
    forall s | s in Sources(a) ensures s in Sources(b) {
      var e :| e in a && s == (e.reference, multiset(e.targets));
      var i :| 0 <= i < |a| && a[i] == e;
      assert b[position(i)] in b;
    }
    forall s | s in Sources(b) ensures s in Sources(a) {
      var e :| e in b && s == (e.reference, multiset(e.targets));
      var j :| 0 <= j < |b| && b[j] == e;
      assert a[origin(j)] in a;
    }
  }

  /** The outcome does not depend on any of these orders. */
  lemma OutcomeIgnoresOrder(
    contract: Option<Sealed>, a: Current, b: Current, paths: PathInspection, previous: Option<Prior>, recipe: Recipe,
    fold: Path -> Path)
    requires Reordered(a, b)
    ensures Reasons(contract, a, paths, previous, recipe, fold) == {} <==>
      Reasons(contract, b, paths, previous, recipe, fold) == {}
  {
    ReadyIff(contract, a, paths, previous, recipe, fold);
    ReadyIff(contract, b, paths, previous, recipe, fold);
    if contract.Some? && recipe.Some? {
      SameDetail(contract.value, a, b, paths, recipe, fold);
    }
  }

  lemma SameDetail(c: Sealed, a: Current, b: Current, paths: PathInspection, recipe: Recipe, fold: Path -> Path)
    requires Reordered(a, b) && recipe.Some?
    ensures DetailReady(c, a, multiset(a.references), Sources(a.exact), paths, recipe, fold)
      <==> DetailReady(c, b, multiset(b.references), Sources(b.exact), paths, recipe, fold)
  {
    var refs, sources := multiset(a.references), Sources(a.exact);
    forall s ensures Agrees(c, a, refs, s, paths, fold) <==> Agrees(c, b, refs, s, paths, fold) {}
    assert SourcesAgree(c, a, refs, sources, paths, recipe.value, fold) <==>
      SourcesAgree(c, b, refs, sources, paths, recipe.value, fold);
  }

  /** A previous authorization can only add staleness: with one, the assessment is never readier. */
  lemma RevalidationOnlyAddsStaleness(
    contract: Option<Sealed>, current: Current, paths: PathInspection, previous: Prior, recipe: Recipe,
    fold: Path -> Path)
    ensures var first := Reasons(contract, current, paths, None, recipe, fold);
      var again := Reasons(contract, current, paths, Some(previous), recipe, fold);
      again == if SameAuthorization(contract, current, paths, Some(previous)) then first else first + {StaleEvidence}
  {
  }

  const STALE := Observed(1, WorkItem, Pinned(1), Stale, true)
  const CONTRADICTORY := Observed(1, WorkItem, Pinned(1), Contradictory, true)

  ghost predicate Bare(contract: Sealed, current: Current, paths: PathInspection) {
    && contract.references == [Reference(1, WorkItem, Pinned(1))] && contract.targets == []
    && paths.contract == Some(contract.id) && paths.reasons == {} && paths.checked == []
    && current.unresolved == {} && current.exact == [] && forall i: Identity :: current.identities(i).None?
  }

  /** The reasons themselves do depend on the order: of two observations of one evidence the last decides. */
  lemma ReasonsKeepOrder(contract: Sealed, current: Current, paths: PathInspection, fold: Path -> Path)
    requires Bare(contract, current, paths)
    ensures var a := current.(references := [STALE, CONTRADICTORY]);
      var b := current.(references := [CONTRADICTORY, STALE]);
      && Reordered(a, b)
      && StaleEvidence !in Reasons(Some(contract), a, paths, None, None, fold)
      && StaleEvidence in Reasons(Some(contract), b, paths, None, None, fold)
  {
    var a := current.(references := [STALE, CONTRADICTORY]);
    var b := current.(references := [CONTRADICTORY, STALE]);
    assert multiset(a.references) == multiset(b.references);
    LastDecides(contract, a.references, b.references);
    BareReasons(contract, a, paths, fold);
    assert StaleEvidence in DetailReasons(contract, b, paths, None, fold);
  }

  lemma LastDecides(contract: Sealed, a: seq<Observed>, b: seq<Observed>)
    requires contract.references == [Reference(1, WorkItem, Pinned(1))] && contract.targets == []
    requires a == [STALE, CONTRADICTORY] && b == [CONTRADICTORY, STALE]
    ensures StaleEvidence !in VerdictReasons(a, Retained(contract)) &&
      StaleEvidence in VerdictReasons(b, Retained(contract))
  {
    var r := Reference(1, WorkItem, Pinned(1));
    assert r in contract.references && Retained(contract) == {r};
    assert Verdict(a, r) == Some(ContradictoryEvidence) && Verdict(b, r) == Some(StaleEvidence);
  }

  lemma BareReasons(contract: Sealed, current: Current, paths: PathInspection, fold: Path -> Path)
    requires Bare(contract, current, paths)
    requires StaleEvidence !in VerdictReasons(current.references, Retained(contract))
    ensures StaleEvidence !in Reasons(Some(contract), current, paths, None, None, fold)
  {
    assert StaleEvidence !in AllIdentityReasons(contract, current);
    assert StaleEvidence !in ContractReasons(contract, paths, None);
    assert StaleEvidence !in AuthorityReasons(contract, current, paths, None, fold);
    assert StaleEvidence !in DetailReasons(contract, current, paths, None, fold);
  }
}

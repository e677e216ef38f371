/**
 Reconciliation of one artifact-target contract with the current evidence.

 The loops keep last-writer dictionaries and one growing set of reasons; what they decide is
 stated without any order.  Text is reduced to identifiers, and `fold` is the case folding of
 project paths.
 */
module Reconciliations {
  import opened Options
  import opened RunModel

  type Path = nat

  /** A revision is pinned to something, or the unpinned word "latest". */
  datatype Revision = Latest | Pinned(id: Id)

  datatype Source = WorkItem | Specification | OtherSource(id: Id)
  datatype Condition = Present | Missing | Stale | Contradictory
  datatype Stage =
    | ArchitectureStage | RedStage | ReviewRedStage | GreenStage | ReviewGreenStage
    | RefactorStage | ReviewRefactorStage
  datatype Owner = ArchitectRole | DriverRole | RefactorerRole

  /** What admission observed about one piece of evidence. */
  datatype Observed = Observed(evidence: Id, source: Source, revision: Revision, condition: Condition,
    authoritative: bool)

  datatype Reference = Reference(evidence: Id, source: Source, revision: Revision)
  datatype Assignment = Assignment(owner: Owner, stage: Stage, operation: Id)
  datatype Target = Target(id: Id, path: Path, assignments: seq<Assignment>, references: seq<Reference>)
  datatype Meaning = Meaning(path: Path, assignments: seq<Assignment>)

  /** The identities a contract pins: project, work item, specification, source, admission decision. */
  datatype Identity = Project | WorkItemRevision | SpecificationRevision | SourceRevision | AdmissionDecision

  datatype Sealed = Sealed(
    id: Id,
    identities: Identity -> Revision,
    architectExecution: Option<Id>,
    planDigest: Option<Id>,
    references: seq<Reference>,
    targets: seq<Target>)

  datatype Exact = Exact(reference: Reference, targets: seq<Target>)

  datatype Current = Current(
    identities: Identity -> Option<Revision>,
    recipe: Id,
    architectExecution: Option<Id>,
    planDigest: Option<Id>,
    references: seq<Observed>,
    exact: seq<Exact>,
    unresolved: set<Reason>)

  datatype PathInspection = PathInspection(
    contract: Option<Id>, checked: seq<Id>, scopeDigest: Id, pathDigest: Id, caseSensitive: bool, reasons: set<Reason>)

  datatype Prior = Prior(contract: Option<Id>, recipe: Id, source: Option<Revision>, scopeDigest: Id, pathDigest: Id)

  /** A recipe resolves to its stages, or is unknown. */
  type Recipe = Option<set<Stage>>

  function MeaningOf(t: Target): Meaning { Meaning(t.path, t.assignments) }

  function Key(p: Path, paths: PathInspection, fold: Path -> Path): Path {
    if paths.caseSensitive then p else fold(p)
  }

  // ----- what each piece of evidence says, without order -----

  /** The last observation with this id: what the dictionary ends up with. */
  function LastObserved(refs: seq<Observed>, id: Id): (r: Option<Observed>)
    ensures r.Some? ==> r.value in refs && r.value.evidence == id
    ensures r.None? ==> forall o :: o in refs ==> o.evidence != id
  {
    if refs == [] then None
    else if refs[|refs| - 1].evidence == id then Some(refs[|refs| - 1])
    else LastObserved(refs[..|refs| - 1], id)
  }

  /** The reason a reference fails, if it does. */
  function Verdict(refs: seq<Observed>, r: Reference): Option<Reason> {
    var o := LastObserved(refs, r.evidence);
    if o.None? || !o.value.authoritative || o.value.condition.Missing? then Some(MissingEvidence)
    else if o.value.condition.Contradictory? then Some(ContradictoryEvidence)
    else if o.value.condition.Stale? || o.value.source != r.source || o.value.revision != r.revision
      then Some(StaleEvidence)
    else None
  }

  predicate RepeatsEvidence(refs: seq<Observed>) {
    exists i, j :: 0 <= i < j < |refs| && refs[i].evidence == refs[j].evidence
  }

  /** Only work items and specifications can supply exact targets, and only with authority. */
  predicate Counts(refs: seq<Observed>, e: Exact) {
    (e.reference.source.WorkItem? || e.reference.source.Specification?)
    && LastObserved(refs, e.reference.evidence).Some? && LastObserved(refs, e.reference.evidence).value.authoritative
  }

  predicate Usable(refs: seq<Observed>, e: Exact) { Counts(refs, e) && Verdict(refs, e.reference).None? }

  function Expected(current: Current, s: Source): Option<Revision> {
    current.identities(if s.WorkItem? then WorkItemRevision else SpecificationRevision)
  }

  function RetainedByTargets(targets: seq<Target>): set<Reference> {
    set t, r | t in targets && r in t.references :: r
  }

  function Retained(c: Sealed): set<Reference> { (set r | r in c.references) + RetainedByTargets(c.targets) }

  predicate RepeatsTarget(targets: seq<Target>, paths: PathInspection, fold: Path -> Path) {
    exists i, j :: 0 <= i < j < |targets|
      && (targets[i].id == targets[j].id || Key(targets[i].path, paths, fold) == Key(targets[j].path, paths, fold))
  }

  /** All targets of the usable sources, in the order they are read. */
  function UsableTargets(refs: seq<Observed>, exact: seq<Exact>): seq<Target> {
    if exact == [] then []
    else
      var last := exact[|exact| - 1];
      UsableTargets(refs, exact[..|exact| - 1]) + (if Usable(refs, last) then last.targets else [])
  }

  /** The dictionary of targets, later ones replacing earlier ones. */
  function Authoritative(targets: seq<Target>): map<Id, Target> {
    if targets == [] then map[]
    else Authoritative(targets[..|targets| - 1])[targets[|targets| - 1].id := targets[|targets| - 1]]
  }

  /** Two descriptions of one target disagree. */
  predicate Clash(targets: seq<Target>) {
    exists i, j :: 0 <= i < j < |targets| && targets[i].id == targets[j].id &&
      MeaningOf(targets[i]) != MeaningOf(targets[j])
  }

  predicate SharedPath(known: map<Id, Target>, paths: PathInspection, fold: Path -> Path) {
    exists a, b :: a in known && b in known && a != b &&
      Key(known[a].path, paths, fold) == Key(known[b].path, paths, fold)
  }

  // ----- the reasons, group by group -----

  function When(b: bool, r: Reason): set<Reason> { if b then {r} else {} }

  predicate Unpinned(v: Option<Revision>) { v.None? || v.value.Latest? }

  function IdentityReasons(c: Sealed, current: Current, i: Identity): set<Reason> {
    var v := current.identities(i);
    if Unpinned(v) then {MissingEvidence} else When(v.value != c.identities(i), StaleEvidence)
  }

  function AllIdentityReasons(c: Sealed, current: Current): set<Reason> { ReasonsOf(c, current, IDENTITIES) }

  const IDENTITIES := [Project, WorkItemRevision, SpecificationRevision, SourceRevision, AdmissionDecision]

  function ReasonsOf(c: Sealed, current: Current, identities: seq<Identity>): set<Reason> {
    set i, r | i in identities && r in IdentityReasons(c, current, i) :: r
  }

  function TargetIds(targets: seq<Target>): (ids: seq<Id>)
    ensures |ids| == |targets| && forall i :: 0 <= i < |ids| ==> ids[i] == targets[i].id
  {
    seq(|targets|, i requires 0 <= i < |targets| => targets[i].id)
  }

  predicate AllStagesIn(t: Target, stages: set<Stage>) {
    forall k :: 0 <= k < |t.assignments| ==> t.assignments[k].stage in stages
  }

  predicate AssignsStage(targets: seq<Target>, stage: Stage) {
    exists i, k :: 0 <= i < |targets| && 0 <= k < |targets[i].assignments| && targets[i].assignments[k].stage == stage
  }

  predicate AssignsDriver(targets: seq<Target>) {
    exists i, k :: 0 <= i < |targets| && 0 <= k < |targets[i].assignments| &&
      targets[i].assignments[k].owner.DriverRole?
  }

  predicate RequiredPhaseMissing(c: Sealed, stages: set<Stage>) {
    || (RedStage in stages && !AssignsStage(c.targets, RedStage))
    || (GreenStage in stages && !AssignsStage(c.targets, GreenStage))
  }

  predicate HasSource(refs: set<Reference>, s: Source, v: Revision) {
    exists r :: r in refs && r.source == s && r.revision == v
  }

  function ContractReasons(c: Sealed, paths: PathInspection, recipe: Recipe): set<Reason> {
    When(paths.contract != Some(c.id), StaleEvidence)
    + When(multiset(paths.checked) != multiset(TargetIds(c.targets)), MissingEvidence)
    + When(recipe.Some? && exists i :: 0 <= i < |c.targets| && !AllStagesIn(c.targets[i], recipe.value),
           IncompatibleRecipe)
    + When(!HasSource(Retained(c), WorkItem, c.identities(WorkItemRevision))
           || !HasSource(Retained(c), Specification, c.identities(SpecificationRevision)), MissingEvidence)
    + When(!AssignsDriver(c.targets), MissingTargets)
    + When(recipe.Some? && RequiredPhaseMissing(c, recipe.value), MissingTargets)
  }

  function ArchitectReasons(c: Sealed, current: Current, recipe: Recipe): set<Reason> {
    if recipe.None? || ArchitectureStage !in recipe.value then {}
    else
      When(current.architectExecution.None? || current.planDigest.None?, MissingEvidence)
      + When(c.architectExecution != current.architectExecution || c.planDigest != current.planDigest, StaleEvidence)
  }

  /** What the references of a set contribute. */
  function VerdictReasons(refs: seq<Observed>, retained: set<Reference>): set<Reason> {
    set r | r in retained && Verdict(refs, r).Some? :: Verdict(refs, r).value
  }

  /** What reading one exact source contributes by itself. */
  function SourceReasons(current: Current, paths: PathInspection, fold: Path -> Path, e: Exact): set<Reason> {
    if !Counts(current.references, e) then {}
    else
      When(Some(e.reference.revision) != Expected(current, e.reference.source), StaleEvidence)
      + (if Verdict(current.references, e.reference).Some? then {Verdict(current.references, e.reference).value}
         else When(RepeatsTarget(e.targets, paths, fold), DuplicateTargets))
  }

  function ExactReasons(current: Current, paths: PathInspection, fold: Path -> Path, exact: seq<Exact>): set<Reason> {
    if exact == [] then {}
    else
      ExactReasons(current, paths, fold, exact[..|exact| - 1])
      + SourceReasons(current, paths, fold, exact[|exact| - 1])
  }

  function AuthorityReasons(c: Sealed, current: Current, paths: PathInspection, recipe: Recipe,
      fold: Path -> Path): set<Reason>
  {
    var targets := UsableTargets(current.references, current.exact);
    var known := Authoritative(targets);
    ComparedReasons(c, known, Clash(targets), paths, recipe, fold)
  }

  function ComparedReasons(
    c: Sealed, known: map<Id, Target>, clash: bool, paths: PathInspection, recipe: Recipe,
    fold: Path -> Path): set<Reason>
  {
    When(clash || Differs(c.targets, known), ContradictoryEvidence)
    + When(Extra(c.targets, known), MissingTargets)
    + When(SharedPath(known, paths, fold), DuplicateTargets)
    + When(recipe.Some? && ArchitectureStage !in recipe.value && Absent(c.targets, known), MissingTargets)
  }

  /** Some target of the contract is described otherwise by its exact source. */
  predicate Differs(targets: seq<Target>, known: map<Id, Target>) {
    exists i :: 0 <= i < |targets| && targets[i].id in known && MeaningOf(known[targets[i].id]) != MeaningOf(targets[i])
  }

  /** Some exact target is not in the contract. */
  predicate Extra(targets: seq<Target>, known: map<Id, Target>) {
    exists id :: id in known && id !in TargetIds(targets)
  }

  /** Some target of the contract has no exact source. */
  predicate Absent(targets: seq<Target>, known: map<Id, Target>) {
    exists i :: 0 <= i < |targets| && targets[i].id !in known
  }

  function PriorReasons(contract: Option<Sealed>, current: Current, paths: PathInspection,
      previous: Option<Prior>): set<Reason>
  {
    When(previous.Some? && previous.value != Prior(
      if contract.Some? then Some(contract.value.id) else None, current.recipe, current.identities(SourceRevision),
      paths.scopeDigest, paths.pathDigest), StaleEvidence)
  }

  /** What is found once there is a contract to check. */
  function DetailReasons(c: Sealed, current: Current, paths: PathInspection, recipe: Recipe,
      fold: Path -> Path): set<Reason>
  {
    AllIdentityReasons(c, current) + ContractReasons(c, paths, recipe)
    + VerdictReasons(current.references, Retained(c)) + ArchitectReasons(c, current, recipe)
    + ExactReasons(current, paths, fold, current.exact) + AuthorityReasons(c, current, paths, recipe, fold)
  }

  /** Every reason the assessment records. */
  function Reasons(
    contract: Option<Sealed>, current: Current, paths: PathInspection, previous: Option<Prior>, recipe: Recipe,
    fold: Path -> Path): set<Reason>
  {
    current.unresolved + paths.reasons
    + When(recipe.None?, IncompatibleRecipe)
    + When(RepeatsEvidence(current.references), ContradictoryEvidence)
    + (if contract.None? then {MissingTargets} else DetailReasons(contract.value, current, paths, recipe, fold))
    + PriorReasons(contract, current, paths, previous)
  }

  // ----- the assessment as the source runs it -----

  /** The dictionary of observations by id. */
  ghost predicate Indexes(index: map<Id, Observed>, refs: seq<Observed>) {
    forall id :: (id in index <==> LastObserved(refs, id).Some?) &&
      (id in index ==> LastObserved(refs, id) == Some(index[id]))
  }

  method IndexReferences(refs: seq<Observed>) returns (index: map<Id, Observed>, repeated: bool)
    ensures Indexes(index, refs)
    ensures repeated <==> RepeatsEvidence(refs)
  {
    index := map[];
    repeated := false;
    for i := 0 to |refs|
      invariant Indexes(index, refs[..i])
      invariant repeated <==> RepeatsEvidence(refs[..i])
    {
      assert refs[..i + 1][..i] == refs[..i] && refs[..i + 1][i] == refs[i];
      RepeatsOneMore(refs[..i], refs[i]);
      assert refs[..i] + [refs[i]] == refs[..i + 1];
      if refs[i].evidence in index {
        repeated := true;
      }
      index := index[refs[i].evidence := refs[i]];
    }
    assert refs[..|refs|] == refs;
  }

  lemma RepeatsOneMore(refs: seq<Observed>, o: Observed)
    ensures RepeatsEvidence(refs + [o]) <==> RepeatsEvidence(refs) || LastObserved(refs, o.evidence).Some?
  {
    var longer := refs + [o];
    if RepeatsEvidence(refs) {
      var i, j :| 0 <= i < j < |refs| && refs[i].evidence == refs[j].evidence;
      assert longer[i].evidence == longer[j].evidence;
    }
    var last := LastObserved(refs, o.evidence);
    if last.Some? {
      var i :| 0 <= i < |refs| && refs[i] == last.value;
      assert longer[i].evidence == longer[|refs|].evidence;
    }
    if RepeatsEvidence(longer) {
      var i, j :| 0 <= i < j < |longer| && longer[i].evidence == longer[j].evidence;
      if j < |refs| {
        assert refs[i].evidence == refs[j].evidence;
      } else {
        assert refs[i] in refs;
      }
    }
  }

  function CheckReference(index: map<Id, Observed>, r: Reference): Option<Reason> {
    if r.evidence !in index || !index[r.evidence].authoritative || index[r.evidence].condition.Missing?
      then Some(MissingEvidence)
    else if index[r.evidence].condition.Contradictory? then Some(ContradictoryEvidence)
    else if index[r.evidence].condition.Stale? || index[r.evidence].source != r.source ||
      index[r.evidence].revision != r.revision
      then Some(StaleEvidence)
    else None
  }

  lemma CheckIsVerdict(index: map<Id, Observed>, refs: seq<Observed>, r: Reference)
    requires Indexes(index, refs)
    ensures CheckReference(index, r) == Verdict(refs, r)
  {
  }

  method CheckRetained(index: map<Id, Observed>, retained: set<Reference>, ghost refs: seq<Observed>)
    returns (reasons: set<Reason>)
    requires Indexes(index, refs)
    ensures reasons == VerdictReasons(refs, retained)
  {
    reasons := {};
    var rest := retained;
    while rest != {}
      invariant rest <= retained
      invariant reasons == VerdictReasons(refs, retained - rest)
      decreases rest
    {
      var r :| r in rest;
      CheckIsVerdict(index, refs, r);
      OneMoreVerdict(refs, retained - rest, r);
      assert retained - (rest - {r}) == retained - rest + {r};
      var failed := CheckReference(index, r);
      if failed.Some? {
        reasons := reasons + {failed.value};
      }
      rest := rest - {r};
    }
    assert retained - {} == retained;
  }

  lemma OneMoreVerdict(refs: seq<Observed>, done: set<Reference>, r: Reference)
    ensures VerdictReasons(refs, done + {r}) ==
      VerdictReasons(refs, done) + (if Verdict(refs, r).Some? then {Verdict(refs, r).value} else {})
  {
  }

  /** Whether one exact source repeats a target id or a path key: the two sets of the inner loop. */
  method RepeatsInside(targets: seq<Target>, paths: PathInspection, fold: Path -> Path) returns (repeated: bool)
    ensures repeated <==> RepeatsTarget(targets, paths, fold)
  {
    var ids: set<Id> := {};
    var keys: set<Path> := {};
    repeated := false;
    for i := 0 to |targets|
      invariant ids == set t | t in targets[..i] :: t.id
      invariant keys == set t | t in targets[..i] :: Key(t.path, paths, fold)
      invariant repeated <==> RepeatsTarget(targets[..i], paths, fold)
    {
      var key := if paths.caseSensitive then targets[i].path else fold(targets[i].path);
      TargetOneMore(targets[..i], targets[i], paths, fold);
      assert targets[..i] + [targets[i]] == targets[..i + 1];
      if targets[i].id in ids || key in keys {
        repeated := true;
      }
      ids := ids + {targets[i].id};
      keys := keys + {key};
    }
    assert targets[..|targets|] == targets;
  }

  lemma TargetOneMore(targets: seq<Target>, t: Target, paths: PathInspection, fold: Path -> Path)
    ensures RepeatsTarget(targets + [t], paths, fold) <==>
      || RepeatsTarget(targets, paths, fold)
      || exists u :: u in targets && (u.id == t.id || Key(u.path, paths, fold) == Key(t.path, paths, fold))
  {
    var longer := targets + [t];
    if RepeatsTarget(targets, paths, fold) {
      var i, j :| 0 <= i < j < |targets|
        && (targets[i].id == targets[j].id || Key(targets[i].path, paths, fold) == Key(targets[j].path, paths, fold));
      assert longer[i] == targets[i] && longer[j] == targets[j];
    }
    if u :| u in targets && (u.id == t.id || Key(u.path, paths, fold) == Key(t.path, paths, fold)) {
      var i :| 0 <= i < |targets| && targets[i] == u;
      assert longer[i] == u && longer[|targets|] == t;
    }
    if RepeatsTarget(longer, paths, fold) {
      var i, j :| 0 <= i < j < |longer|
        && (longer[i].id == longer[j].id || Key(longer[i].path, paths, fold) == Key(longer[j].path, paths, fold));
      if j < |targets| {
        assert targets[i] == longer[i] && targets[j] == longer[j];
      } else {
        assert targets[i] in targets;
      }
    }
  }

  /** The dictionary holds, for every id that was read, one of the targets read under it. */
  lemma {:induction false} AuthoritativeKnows(targets: seq<Target>)
    ensures forall t :: t in targets ==> t.id in Authoritative(targets)
    ensures forall id :: id in Authoritative(targets) ==>
      Authoritative(targets)[id] in targets && Authoritative(targets)[id].id == id
  {
    if targets != [] {
      var before := targets[..|targets| - 1];
      AuthoritativeKnows(before);
      assert targets == before + [targets[|targets| - 1]];
    }
  }

  lemma AuthoritativeOneMore(targets: seq<Target>, t: Target)
    ensures Authoritative(targets + [t]) == Authoritative(targets)[t.id := t]
  {
    assert (targets + [t])[..|targets|] == targets;
  }

  /** Comparing only with the last writer still notices every disagreement. */
  lemma ClashOneMore(targets: seq<Target>, t: Target)
    ensures var known := Authoritative(targets);
      Clash(targets + [t]) <==> Clash(targets) || (t.id in known && MeaningOf(known[t.id]) != MeaningOf(t))
  {
    var known := Authoritative(targets);
    var longer := targets + [t];
    AuthoritativeKnows(targets);
    if Clash(targets) {
      var i, j :| 0 <= i < j < |targets| && targets[i].id == targets[j].id &&
        MeaningOf(targets[i]) != MeaningOf(targets[j]);
      assert longer[i] == targets[i] && longer[j] == targets[j];
    }
    if t.id in known && MeaningOf(known[t.id]) != MeaningOf(t) {
      var k :| 0 <= k < |targets| && targets[k] == known[t.id];
      assert longer[k] == targets[k] && longer[|targets|] == t;
    }
    if Clash(longer) && !Clash(targets) {
      assert forall a :: 0 <= a < |targets| ==> longer[a] == targets[a];
      var i, j :| 0 <= i < j < |longer| && longer[i].id == longer[j].id && MeaningOf(longer[i]) != MeaningOf(longer[j]);
      assert j == |targets| && targets[i] in targets;
      var k :| 0 <= k < |targets| && targets[k] == known[t.id];
      assert k != i ==> MeaningOf(targets[k]) == MeaningOf(targets[i]);
    }
  }

  method MergeTargets(start: map<Id, Target>, targets: seq<Target>, clashed: bool, ghost before: seq<Target>)
    returns (known: map<Id, Target>, clash: bool)
    requires start == Authoritative(before) && (clashed <==> Clash(before))
    ensures known == Authoritative(before + targets) && (clash <==> Clash(before + targets))
  {
    known, clash := start, clashed;
    assert before + targets[..0] == before;
    for i := 0 to |targets|
      invariant known == Authoritative(before + targets[..i]) && (clash <==> Clash(before + targets[..i]))
    {
      ClashOneMore(before + targets[..i], targets[i]);
      AuthoritativeOneMore(before + targets[..i], targets[i]);
      assert before + targets[..i] + [targets[i]] == before + targets[..i + 1];
      if targets[i].id in known {
        var existing := known[targets[i].id];
        if existing.path != targets[i].path || existing.assignments != targets[i].assignments {
          clash := true;
        }
      }
      known := known[targets[i].id := targets[i]];
    }
    assert targets[..|targets|] == targets;
  }

  lemma {:induction false} ExactOneMore(
    current: Current, paths: PathInspection, fold: Path -> Path, exact: seq<Exact>, e: Exact)
    ensures ExactReasons(current, paths, fold, exact + [e]) ==
      ExactReasons(current, paths, fold, exact) + SourceReasons(current, paths, fold, e)
    ensures UsableTargets(current.references, exact + [e]) ==
      UsableTargets(current.references, exact) + if Usable(current.references, e) then e.targets else []
  {
    assert (exact + [e])[..|exact|] == exact;
  }

  /** One exact source: its own reasons, and its targets if it can be used. */
  method ReadExactSource(
    index: map<Id, Observed>, current: Current, paths: PathInspection, fold: Path -> Path, e: Exact,
    before: map<Id, Target>, clashed: bool, ghost read: seq<Target>)
    returns (reasons: set<Reason>, known: map<Id, Target>, clash: bool)
    requires Indexes(index, current.references) && before == Authoritative(read) && (clashed <==> Clash(read))
    ensures reasons == SourceReasons(current, paths, fold, e)
    ensures var all := read + if Usable(current.references, e) then e.targets else [];
      known == Authoritative(all) && (clash <==> Clash(all))
  {
    reasons, known, clash := {}, before, clashed;
    assert read + [] == read;
    CheckIsVerdict(index, current.references, e.reference);
    if (e.reference.source.WorkItem? || e.reference.source.Specification?)
       && e.reference.evidence in index && index[e.reference.evidence].authoritative {
      var expected :=
        if e.reference.source.WorkItem? then current.identities(WorkItemRevision)
        else current.identities(SpecificationRevision);
      if expected != Some(e.reference.revision) {
        reasons := reasons + {StaleEvidence};
      }
      var failed := CheckReference(index, e.reference);
      if failed.Some? {
        reasons := reasons + {failed.value};
      } else {
        var repeated := RepeatsInside(e.targets, paths, fold);
        if repeated {
          reasons := reasons + {DuplicateTargets};
        }
        known, clash := MergeTargets(known, e.targets, clash, read);
      }
    }
  }

  method ReadExactSources(index: map<Id, Observed>, current: Current, paths: PathInspection, fold: Path -> Path)
    returns (reasons: set<Reason>, known: map<Id, Target>, clash: bool)
    requires Indexes(index, current.references)
    ensures reasons == ExactReasons(current, paths, fold, current.exact)
    ensures known == Authoritative(UsableTargets(current.references, current.exact))
    ensures clash <==> Clash(UsableTargets(current.references, current.exact))
  {
    reasons, known, clash := {}, map[], false;
    for i := 0 to |current.exact|
      invariant reasons == ExactReasons(current, paths, fold, current.exact[..i])
      invariant known == Authoritative(UsableTargets(current.references, current.exact[..i]))
      invariant clash <==> Clash(UsableTargets(current.references, current.exact[..i]))
    {
      var e := current.exact[i];
      assert current.exact[..i + 1] == current.exact[..i] + [e];
      ExactOneMore(current, paths, fold, current.exact[..i], e);
      ghost var before := UsableTargets(current.references, current.exact[..i]);
      var found;
      found, known, clash := ReadExactSource(index, current, paths, fold, e, known, clash, before);
      reasons := reasons + found;
    }
    assert current.exact[..|current.exact|] == current.exact;
  }

  /** The last pass: the exact targets that were read against the targets of the contract. */
  method CompareTargets(
    c: Sealed, known: map<Id, Target>, clash: bool, paths: PathInspection, recipe: Recipe, fold: Path -> Path)
    returns (reasons: set<Reason>)
    ensures reasons == ComparedReasons(c, known, clash, paths, recipe, fold)
  {
    var differs, absent := false, false;
    var ids: set<Id> := {};
    for i := 0 to |c.targets|
      invariant differs <==> Differs(c.targets[..i], known)
      invariant absent <==> Absent(c.targets[..i], known)
      invariant ids == set t | t in c.targets[..i] :: t.id
    {
      var t := c.targets[i];
      assert c.targets[..i + 1] == c.targets[..i] + [t];
      ComparedOneMore(c.targets[..i], t, known);
      ids := ids + {t.id};
      if t.id !in known {
        absent := true;
      } else if known[t.id].path != t.path || known[t.id].assignments != t.assignments {
        differs := true;
      }
    }
    assert c.targets[..|c.targets|] == c.targets;
    IdsOf(c.targets);
    assert known.Keys - ids != {} <==> Extra(c.targets, known) by {
      assert forall id :: id in known.Keys - ids <==> id in known && id !in TargetIds(c.targets);
    }
    var shared := SharesPath(known, paths, fold);
    reasons := {};
    reasons := Noting(reasons, clash || differs, ContradictoryEvidence);
    reasons := Noting(reasons, known.Keys - ids != {}, MissingTargets);
    reasons := Noting(reasons, shared, DuplicateTargets);
    reasons := Noting(reasons, recipe.Some? && ArchitectureStage !in recipe.value && absent, MissingTargets);
  }

  lemma IdsOf(targets: seq<Target>)
    ensures forall id :: id in TargetIds(targets) <==> id in set t | t in targets :: t.id
  {
    var ids := TargetIds(targets);
    forall i | 0 <= i < |targets| ensures targets[i].id in ids {
      assert ids[i] == targets[i].id;
    }
  }

  ghost predicate SharedAmong(known: map<Id, Target>, done: set<Id>, paths: PathInspection, fold: Path -> Path)
    requires done <= known.Keys
  {
    exists a, b :: a in done && b in done && a != b &&
      Key(known[a].path, paths, fold) == Key(known[b].path, paths, fold)
  }

  /** Whether two targets of the dictionary share a path key: as many keys as targets or fewer. */
  method SharesPath(known: map<Id, Target>, paths: PathInspection, fold: Path -> Path) returns (shared: bool)
    ensures shared <==> SharedPath(known, paths, fold)
  {
    var keys: set<Path> := {};
    var rest := known.Keys;
    shared := false;
    while rest != {}
      invariant rest <= known.Keys
      invariant keys == set id | id in known.Keys - rest :: Key(known[id].path, paths, fold)
      invariant shared <==> SharedAmong(known, known.Keys - rest, paths, fold)
      decreases rest
    {
      var id :| id in rest;
      var key := if paths.caseSensitive then known[id].path else fold(known[id].path);
      assert known.Keys - (rest - {id}) == known.Keys - rest + {id};
      if key in keys {
        shared := true;
      }
      keys := keys + {key};
      rest := rest - {id};
    }
    assert known.Keys - {} == known.Keys;
  }

  lemma ComparedOneMore(targets: seq<Target>, t: Target, known: map<Id, Target>)
    ensures Differs(targets + [t], known) <==>
      Differs(targets, known) || (t.id in known && MeaningOf(known[t.id]) != MeaningOf(t))
    ensures Absent(targets + [t], known) <==> Absent(targets, known) || t.id !in known
  {
    var longer := targets + [t];
    assert longer[|targets|] == t;
    assert forall i :: 0 <= i < |targets| ==> longer[i] == targets[i];
  }

  lemma IdentityOneMore(c: Sealed, current: Current, identities: seq<Identity>, i: Identity)
    ensures ReasonsOf(c, current, identities + [i]) ==
      ReasonsOf(c, current, identities) + IdentityReasons(c, current, i)
  {
  }

  /** The five identities the contract pins against the current ones. */
  method CheckIdentities(c: Sealed, current: Current) returns (reasons: set<Reason>)
    ensures reasons == AllIdentityReasons(c, current)
  {
    reasons := {};
    for i := 0 to |IDENTITIES|
      invariant reasons == ReasonsOf(c, current, IDENTITIES[..i])
    {
      assert IDENTITIES[..i + 1] == IDENTITIES[..i] + [IDENTITIES[i]];
      IdentityOneMore(c, current, IDENTITIES[..i], IDENTITIES[i]);
      var value := current.identities(IDENTITIES[i]);
      if value.None? || value.value.Latest? {
        reasons := reasons + {MissingEvidence};
      } else if value.value != c.identities(IDENTITIES[i]) {
        reasons := reasons + {StaleEvidence};
      }
    }
    assert IDENTITIES[..|IDENTITIES|] == IDENTITIES;
  }

  /** The loop over the targets: their ids, every reference retained, every stage assigned, and whether a Driver is. */
  method ReadTargets(c: Sealed, recipe: Recipe)
    returns (ids: seq<Id>, retained: set<Reference>, staged: set<Stage>, driver: bool, foreign: bool)
    ensures ids == TargetIds(c.targets) && retained == Retained(c)
    ensures forall s :: s in staged <==> AssignsStage(c.targets, s)
    ensures driver <==> AssignsDriver(c.targets)
    ensures foreign <==> recipe.Some? && exists i :: 0 <= i < |c.targets| && !AllStagesIn(c.targets[i], recipe.value)
  {
    ids, staged, driver, foreign := [], {}, false, false;
    retained := set r | r in c.references;
    for i := 0 to |c.targets|
      invariant ids == TargetIds(c.targets[..i])
      invariant retained == (set r | r in c.references) + RetainedByTargets(c.targets[..i])
      invariant forall s :: s in staged <==> AssignsStage(c.targets[..i], s)
      invariant driver <==> AssignsDriver(c.targets[..i])
      invariant foreign <==> recipe.Some? && exists k :: 0 <= k < i && !AllStagesIn(c.targets[k], recipe.value)
    {
      var t := c.targets[i];
      assert c.targets[..i + 1] == c.targets[..i] + [t];
      AssignedOneMore(c.targets[..i], t);
      ids := ids + [t.id];
      retained := retained + set r | r in t.references;
      var stages, drives := ReadAssignments(t);
      assert recipe.Some? ==> (stages - recipe.value != {} <==> !AllStagesIn(t, recipe.value)) by {
        assert recipe.Some? ==> forall k :: 0 <= k < |t.assignments| ==> t.assignments[k].stage in stages;
        assert recipe.Some? ==> forall s :: s in stages - recipe.value <==> s in stages && s !in recipe.value;
      }
      staged := staged + stages;
      driver := driver || drives;
      if recipe.Some? && stages - recipe.value != {} {
        foreign := true;
      }
    }
    assert c.targets[..|c.targets|] == c.targets;
  }

  method ReadAssignments(t: Target) returns (stages: set<Stage>, driver: bool)
    ensures stages == set a | a in t.assignments :: a.stage
    ensures driver <==> exists k :: 0 <= k < |t.assignments| && t.assignments[k].owner.DriverRole?
  {
    stages, driver := {}, false;
    for k := 0 to |t.assignments|
      invariant stages == set a | a in t.assignments[..k] :: a.stage
      invariant driver <==> exists m :: 0 <= m < k && t.assignments[m].owner.DriverRole?
    {
      assert t.assignments[..k + 1] == t.assignments[..k] + [t.assignments[k]];
      stages := stages + {t.assignments[k].stage};
      if t.assignments[k].owner.DriverRole? {
        driver := true;
      }
    }
    assert t.assignments[..|t.assignments|] == t.assignments;
  }

  lemma AssignedOneMore(targets: seq<Target>, t: Target)
    ensures forall s :: AssignsStage(targets + [t], s) <==>
      AssignsStage(targets, s) || exists k :: 0 <= k < |t.assignments| && t.assignments[k].stage == s
    ensures AssignsDriver(targets + [t]) <==>
      AssignsDriver(targets) || exists k :: 0 <= k < |t.assignments| && t.assignments[k].owner.DriverRole?
  {
    var longer := targets + [t];
    assert longer[|targets|] == t;
    assert forall i :: 0 <= i < |targets| ==> longer[i] == targets[i];
  }

  lemma RequiredIff(c: Sealed, stages: set<Stage>, staged: set<Stage>)
    requires forall s :: s in staged <==> AssignsStage(c.targets, s)
    ensures stages * {RedStage, GreenStage} - staged != {} <==> RequiredPhaseMissing(c, stages)
  {
    assert forall s :: s in stages * {RedStage, GreenStage} - staged <==>
      s in stages && (s == RedStage || s == GreenStage) && !AssignsStage(c.targets, s);
  }

  /** `reasons.add`, if there is cause. */
  function Noting(reasons: set<Reason>, cause: bool, r: Reason): (noted: set<Reason>)
    ensures noted == reasons + When(cause, r)
  {
    if cause then reasons + {r} else reasons
  }

  /** Whether the recipe has a Driver stage that no target is assigned to. */
  method MissesPhase(c: Sealed, recipe: Recipe, staged: set<Stage>) returns (unmet: bool)
    requires forall s :: s in staged <==> AssignsStage(c.targets, s)
    ensures unmet <==> recipe.Some? && RequiredPhaseMissing(c, recipe.value)
  {
    if recipe.None? {
      return false;
    }
    RequiredIff(c, recipe.value, staged);
    unmet := recipe.value * {RedStage, GreenStage} - staged != {};
  }

  /** Whether a retained reference pins this revision of this source. */
  method Cites(retained: set<Reference>, source: Source, revision: Revision) returns (cited: bool)
    ensures cited <==> HasSource(retained, source, revision)
  {
    cited := exists r :: r in retained && r.source == source && r.revision == revision;
  }

  /** The checks that need nothing but the contract, its path inspection and the recipe. */
  method CheckTargets(c: Sealed, paths: PathInspection, recipe: Recipe)
    returns (reasons: set<Reason>, retained: set<Reference>)
    ensures reasons == ContractReasons(c, paths, recipe) && retained == Retained(c)
  {
    var ids, staged, driver, foreign;
    ids, retained, staged, driver, foreign := ReadTargets(c, recipe);
    var workItem := Cites(retained, WorkItem, c.identities(WorkItemRevision));
    var specification := Cites(retained, Specification, c.identities(SpecificationRevision));
    var unmet := MissesPhase(c, recipe, staged);
    reasons := {};
    reasons := Noting(reasons, paths.contract != Some(c.id), StaleEvidence);
    reasons := Noting(reasons, multiset(paths.checked) != multiset(ids), MissingEvidence);
    reasons := Noting(reasons, foreign, IncompatibleRecipe);
    reasons := Noting(reasons, !workItem || !specification, MissingEvidence);
    reasons := Noting(reasons, !driver, MissingTargets);
    reasons := Noting(reasons, unmet, MissingTargets);
  }

  /** Everything that is checked once there is a contract. */
  method CheckContract(
    c: Sealed, index: map<Id, Observed>, current: Current, paths: PathInspection, recipe: Recipe, fold: Path -> Path)
    returns (reasons: set<Reason>)
    requires Indexes(index, current.references)
    ensures reasons == DetailReasons(c, current, paths, recipe, fold)
  {
    reasons := CheckIdentities(c, current);
    var found, retained := CheckTargets(c, paths, recipe);
    var failed := CheckRetained(index, retained, current.references);
    reasons := reasons + found + failed;
    if recipe.Some? && ArchitectureStage in recipe.value {
      if current.architectExecution.None? || current.planDigest.None? {
        reasons := reasons + {MissingEvidence};
      }
      if c.architectExecution != current.architectExecution || c.planDigest != current.planDigest {
        reasons := reasons + {StaleEvidence};
      }
    }
    var read, known, clash := ReadExactSources(index, current, paths, fold);
    var compared := CompareTargets(c, known, clash, paths, recipe, fold);
    reasons := reasons + read + compared;
  }

  /** `reconcile_artifact_targets`: the set of reasons, grown pass by pass. */
  method Reconcile(
    contract: Option<Sealed>, current: Current, paths: PathInspection, previous: Option<Prior>, recipe: Recipe,
    fold: Path -> Path)
    returns (reasons: set<Reason>, ready: bool)
    ensures reasons == Reasons(contract, current, paths, previous, recipe, fold)
    ensures ready <==> reasons == {}
  {
    reasons := current.unresolved + paths.reasons;
    reasons := Noting(reasons, recipe.None?, IncompatibleRecipe);
    var index, repeated := IndexReferences(current.references);
    reasons := Noting(reasons, repeated, ContradictoryEvidence);
    var found := {MissingTargets};
    if contract.Some? {
      found := CheckContract(contract.value, index, current, paths, recipe, fold);
    }
    reasons := reasons + found;
    var moved := HasMoved(if contract.Some? then Some(contract.value.id) else None, current, paths, previous);
    reasons := Noting(reasons, moved, StaleEvidence);
    PriorIs(contract, current, paths, previous, moved);
    ready := reasons == {};
  }

  lemma PriorIs(contract: Option<Sealed>, current: Current, paths: PathInspection, previous: Option<Prior>, moved: bool)
    requires moved <==> previous.Some? && previous.value != Prior(
      if contract.Some? then Some(contract.value.id) else None, current.recipe, current.identities(SourceRevision),
      paths.scopeDigest, paths.pathDigest)
    ensures PriorReasons(contract, current, paths, previous) == When(moved, StaleEvidence)
  {
  }

  /** Whether anything an earlier authorization pinned is different now. */
  method HasMoved(id: Option<Id>, current: Current, paths: PathInspection, previous: Option<Prior>)
    returns (moved: bool)
    ensures moved <==> (previous.Some? && previous.value !=
      Prior(id, current.recipe, current.identities(SourceRevision), paths.scopeDigest, paths.pathDigest))
  {
    if previous.None? {
      return false;
    }
    var p := previous.value;
    moved := p.contract != id || p.recipe != current.recipe || p.source != current.identities(SourceRevision)
      || p.scopeDigest != paths.scopeDigest || p.pathDigest != paths.pathDigest;
  }
}

/**
 The assessment inside a run is the reconciliation of its contract: comparing an observation with the
 previous record of the history, as the run does, gives the reasons that the reconciliation of the
 same evidence against the previous authorization collects.
 */
module Assessments {
  import opened Options
  import opened RunModel
  import opened Reconciliations
  import ReconciliationOrder
  import Handoffs

  function RevisionOf(source: Option<Id>): Option<Revision> {
    if source.None? then None else Some(Pinned(source.value))
  }

  /** What the policy compares of the previous record. */
  function PriorOf(previous: Option<Reconciliation>): Option<Prior> {
    if previous.None? then None
    else
      var s := previous.value.snapshot;
      Some(Prior(Some(previous.value.contract), s.recipe, RevisionOf(s.sourceRevision), s.scopeDigest, s.pathDigest))
  }

  /** The sealed contract behind the fields that the run reads. */
  predicate Describes(sealed: Sealed, contract: Contract) {
    sealed.id == contract.id && sealed.identities(SourceRevision) == Pinned(contract.sourceRevision)
  }

  predicate SnapshotOf(s: Snapshot, current: Current, paths: PathInspection) {
    && s.recipe == current.recipe && RevisionOf(s.sourceRevision) == current.identities(SourceRevision)
    && s.scopeDigest == paths.scopeDigest && s.pathDigest == paths.pathDigest
  }

  /** The observation reports this evidence: its snapshot, and what it fails without any history. */
  ghost predicate Reports(
    obs: Handoffs.Observation, sealed: Sealed, current: Current, paths: PathInspection, recipe: Recipe,
    fold: Path -> Path)
  {
    && SnapshotOf(obs.snapshot, current, paths)
    && obs.policyReasons == Reasons(Some(sealed), current, paths, None, recipe, fold)
  }

  /** A contract of another Architect attempt is an unresolved staleness of the evidence. */
  function Unresolved(current: Current, staleArchitect: bool): Current {
    current.(unresolved := current.unresolved + When(staleArchitect, StaleEvidence))
  }

  lemma {:induction false} ExactKeeps(
    current: Current, other: Current, paths: PathInspection, fold: Path -> Path, exact: seq<Exact>)
    requires other == current.(unresolved := other.unresolved)
    ensures ExactReasons(other, paths, fold, exact) == ExactReasons(current, paths, fold, exact)
    decreases |exact|
  {
    if exact != [] { ExactKeeps(current, other, paths, fold, exact[..|exact| - 1]); }
  }

  lemma DetailKeeps(
    sealed: Sealed, current: Current, other: Current, paths: PathInspection, recipe: Recipe, fold: Path -> Path)
    requires other == current.(unresolved := other.unresolved)
    ensures DetailReasons(sealed, other, paths, recipe, fold) == DetailReasons(sealed, current, paths, recipe, fold)
  {
    ExactKeeps(current, other, paths, fold, current.exact);
    forall i: Identity ensures IdentityReasons(sealed, other, i) == IdentityReasons(sealed, current, i) {}
    assert AllIdentityReasons(sealed, other) == AllIdentityReasons(sealed, current);
    assert ArchitectReasons(sealed, other, recipe) == ArchitectReasons(sealed, current, recipe);
    assert AuthorityReasons(sealed, other, paths, recipe, fold) ==
      AuthorityReasons(sealed, current, paths, recipe, fold);
  }

  /** Unresolved reasons are recorded as they are, and change nothing else. */
  lemma UnresolvedAdds(
    sealed: Sealed, current: Current, stale: bool, paths: PathInspection, previous: Option<Prior>,
    recipe: Recipe, fold: Path -> Path)
    ensures Reasons(Some(sealed), Unresolved(current, stale), paths, previous, recipe, fold) ==
      Reasons(Some(sealed), current, paths, previous, recipe, fold) + When(stale, StaleEvidence)
  {
    DetailKeeps(sealed, current, Unresolved(current, stale), paths, recipe, fold);
  }

  /** The run's own check of the source revision is one the policy has made. */
  lemma SourceIsChecked(
    sealed: Sealed, contract: Contract, obs: Handoffs.Observation, current: Current, paths: PathInspection,
    recipe: Recipe, fold: Path -> Path)
    requires Describes(sealed, contract) && Reports(obs, sealed, current, paths, recipe, fold)
    ensures obs.snapshot.sourceRevision.None? ==> MissingEvidence in obs.policyReasons
    ensures obs.snapshot.sourceRevision.Some? && obs.snapshot.sourceRevision.value != contract.sourceRevision ==>
      StaleEvidence in obs.policyReasons
  {
    assert IdentityReasons(sealed, current, SourceRevision) <= AllIdentityReasons(sealed, current);
  }

  /** The assessment recorded in the run has exactly the reasons of the reconciliation against the previous record. */
  lemma AssessmentIsReconciliation(
    sel: Handoffs.Selection, obs: Handoffs.Observation, previous: Option<Reconciliation>, id: Id, now: nat,
    sealed: Sealed, current: Current, paths: PathInspection, recipe: Recipe, fold: Path -> Path)
    requires Describes(sealed, sel.contract) && Reports(obs, sealed, current, paths, recipe, fold)
    ensures Handoffs.Assess(sel, obs, previous, id, now).reasons ==
      Reasons(Some(sealed), Unresolved(current, sel.staleArchitect), paths, PriorOf(previous), recipe, fold)
  {
    UnresolvedAdds(sealed, current, sel.staleArchitect, paths, PriorOf(previous), recipe, fold);
    SourceIsChecked(sealed, sel.contract, obs, current, paths, recipe, fold);
    if previous.Some? {
      ReconciliationOrder.RevalidationOnlyAddsStaleness(
        Some(sealed), current, paths, PriorOf(previous).value, recipe, fold);
      SameSnapshot(obs.snapshot, previous.value, sealed, current, paths);
    }
  }

  lemma SameSnapshot(
    s: Snapshot, previous: Reconciliation, sealed: Sealed, current: Current, paths: PathInspection)
    requires SnapshotOf(s, current, paths)
    ensures ReconciliationOrder.SameAuthorization(Some(sealed), current, paths, PriorOf(Some(previous))) <==>
      previous.contract == sealed.id && previous.snapshot == s
  {
  }
}

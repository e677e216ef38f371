/**
 What the gate before a Driver attempt does, in terms of the saved document and the evidence alone:
 exactly when it admits, exactly which record it saves, and that a saved clarification ends its contract.
 */
module GateOutcomes {
  import opened Options
  import opened RunModel
  import opened Handoffs
  import opened Engine
  import opened RunRecords
  import opened HandoffRuns
  import opened HandoffChanges
  import opened ChangeRuns
  import opened DriverGate

  /** A run that is neither over nor cancelled, evidence of its own project, and a created attempt that still fits. */
  predicate Knocks(s: RunState, node: Node, current: Option<Observation>) {
    var c := s.History().corrections;
    && !s.status.DoneStatus? && !s.status.FailedInfra? && (c != [] ==> !c[|c| - 1].kind.CancelHandoff?)
    && current.Some? && current.value.projectMatches
    && (s.progress.Some? && s.progress.value.stage.AttemptCreated? ==>
          s.handoff.Some? && exists i :: 0 <= i < |s.attempts| && Fits(s, s.attempts[i], node))
  }

  predicate Fits(s: RunState, a: Attempt, node: Node)
    requires s.progress.Some? && s.handoff.Some?
  {
    s.progress.value.execution == Some(a.id) && a.node == node && a.contract == s.handoff.value.active
  }

  /** The contract under assessment: the active one, or the first one of an admitted run without any Driver attempt. */
  function ContractAt(s: RunState, obs: Observation): Option<Contract> {
    var h := s.History();
    if h.contracts != [] then
      if h.active == Some(h.contracts[|h.contracts| - 1].id) then Some(h.contracts[|h.contracts| - 1]) else None
    else if s.admission.Some? && h.corrections == [] && NoDriverYet(s.attempts) && obs.candidate.Some?
      && FirstContract(s, obs, obs.candidate.value) then obs.candidate
    else None
  }

  predicate NoDriverYet(attempts: seq<Attempt>) {
    forall k :: 0 <= k < |attempts| ==> !attempts[k].node.DriverRed? && !attempts[k].node.DriverGreen?
  }

  /** A recipe with an Architect seals for the last Architect attempt, which must have handed off. */
  predicate FirstContract(s: RunState, obs: Observation, c: Contract) {
    && c.supersedes.None? && (c.architectExecution.Some? <==> obs.recipeHasArchitecture)
    && (obs.recipeHasArchitecture ==>
          exists k :: 0 <= k < |s.attempts| && LastArchitectAt(s.attempts, k)
            && c.architectExecution == Some(s.attempts[k].id)
            && (s.attempts[k].outcome.Succeeded? || s.attempts[k].outcome.Interrupted?))
  }

  /** The contract's own source, the last Architect execution, and the snapshot its previous record pinned. */
  predicate StillFresh(s: RunState, obs: Observation, c: Contract) {
    var h := s.History();
    && (obs.snapshot.sourceRevision.Some? ==> obs.snapshot.sourceRevision.value == c.sourceRevision)
    && (h.contracts != [] ==> NamesLastArchitect(s, c))
    && (h.reconciliations != [] ==>
          var last := h.reconciliations[|h.reconciliations| - 1];
          last.contract == c.id && last.snapshot == obs.snapshot)
  }

  /** Nothing speaks against the contract. */
  predicate EvidenceHolds(s: RunState, obs: Observation, c: Contract) {
    obs.policyReasons == {} && obs.snapshot.sourceRevision.Some? && StillFresh(s, obs, c)
  }

  function GateReasons(s: RunState, obs: Observation, c: Contract): set<Reason> {
    obs.policyReasons
    + (if obs.snapshot.sourceRevision.None? then {MissingEvidence} else {})
    + (if StillFresh(s, obs, c) then {} else {StaleEvidence})
  }

  /** The last record already says so. */
  predicate Known(s: RunState, obs: Observation, c: Contract) {
    var records := s.History().reconciliations;
    records != [] &&
    var last := records[|records| - 1];
    last.contract == c.id && last.reasons == GateReasons(s, obs, c)
    && last.snapshot == obs.snapshot && last.references == obs.references
  }

  /** One more record may be added: the last one was ready, there is room, and the id is new. */
  predicate MayRecord(h: Handoff, id: Id) {
    && (h.reconciliations != [] ==> h.reconciliations[|h.reconciliations| - 1].reasons == {})
    && |h.reconciliations| < MAX_RECONCILIATIONS
    && forall k :: 0 <= k < |h.reconciliations| ==> h.reconciliations[k].id != id
  }

  predicate ResolvesCheckpoint(a: Action, index: nat) { a.kind.InterruptResolution? && a.target == InterruptAt(index) }

  /** The latest Driver checkpoint, if any, was resolved by one action, applied, and for this contract. */
  predicate ResolvedFor(s: RunState, contract: Id) {
    forall i :: 0 <= i < |s.interrupts| && LastCheckpointAt(s.interrupts, i) ==>
      s.interrupts[i].resolution.Some? &&
      exists k :: 0 <= k < |s.actions| && OnlyResolution(s.actions, k, i)
        && s.actions[k].contract == Some(contract) && s.actions[k].disposition.Applied?
        && s.actions[k].detail == s.interrupts[i].resolution.value
  }

  predicate OnlyResolution(actions: seq<Action>, k: nat, index: nat)
    requires k < |actions|
  {
    ResolvesCheckpoint(actions[k], index)
    && forall m :: 0 <= m < |actions| && m != k ==> !ResolvesCheckpoint(actions[m], index)
  }

  /** The document once the assessment is known or recorded. */
  function Assessed(s: RunState, obs: Observation, c: Contract, id: Id, now: nat): RunState {
    var h := s.History();
    if Known(s, obs, c) then s
    else s.(handoff := Some(Handoff(
      if h.contracts != [] then h.contracts else [c],
      h.reconciliations + [Reconciliation(id, c.id, now, GateReasons(s, obs, c), obs.snapshot, obs.references)],
      h.corrections, Some(c.id))))
  }

  /** The gate comes to an assessment. */
  predicate Assesses(s: RunState, node: Node, current: Option<Observation>, id: Id) {
    && Knocks(s, node, current) && ContractAt(s, current.value).Some?
    && (Known(s, current.value, ContractAt(s, current.value).value) || MayRecord(s.History(), id))
  }

  /** When a Driver attempt is admitted. */
  predicate Admissible(s: RunState, node: Node, current: Option<Observation>, id: Id) {
    Assesses(s, node, current, id) &&
    var c := ContractAt(s, current.value).value;
    EvidenceHolds(s, current.value, c) && ResolvedFor(s, c.id) && node in c.driverPhases
  }

  /** What the gate saves: its assessment, unless only the phase is not admitted. */
  function GateSaves(s: RunState, node: Node, current: Option<Observation>, id: Id, now: nat): RunState {
    if !Assesses(s, node, current, id) then s
    else
      var c := ContractAt(s, current.value).value;
      if EvidenceHolds(s, current.value, c) && ResolvedFor(s, c.id) && node !in c.driverPhases then s
      else Assessed(s, current.value, c, id, now)
  }

  // ----- the pieces -----

  lemma {:induction false} NoResolutions(actions: seq<Action>, index: nat)
    ensures ResolutionsOf(actions, index) == [] <==>
      forall k :: 0 <= k < |actions| ==> !ResolvesCheckpoint(actions[k], index)
  {
    if actions != [] {
      NoResolutions(actions[1..], index);
      assert forall k :: 1 <= k < |actions| ==> actions[k] == actions[1..][k - 1];
    }
  }

  lemma {:induction false} OneResolution(actions: seq<Action>, index: nat)
    ensures |ResolutionsOf(actions, index)| == 1 ==>
      exists k :: 0 <= k < |actions| && OnlyResolution(actions, k, index) &&
        actions[k] == ResolutionsOf(actions, index)[0]
    ensures forall k :: 0 <= k < |actions| && OnlyResolution(actions, k, index) ==>
      ResolutionsOf(actions, index) == [actions[k]]
  {
    if actions != [] {
      var rest := actions[1..];
      NoResolutions(rest, index);
      OneResolution(rest, index);
      assert forall k :: 1 <= k < |actions| ==> actions[k] == rest[k - 1];
      if ResolvesCheckpoint(actions[0], index) {
        if ResolutionsOf(rest, index) == [] { assert OnlyResolution(actions, 0, index); }
      } else if |ResolutionsOf(rest, index)| == 1 {
        var k :| 0 <= k < |rest| && OnlyResolution(rest, k, index) && rest[k] == ResolutionsOf(rest, index)[0];
        assert OnlyResolution(actions, k + 1, index);
      }
      forall k | 0 <= k < |actions| && OnlyResolution(actions, k, index)
        ensures ResolutionsOf(actions, index) == [actions[k]]
      {
        if k > 0 { assert OnlyResolution(rest, k - 1, index); }
      }
    }
  }

  lemma ResolvedIff(s: RunState, contract: Id)
    ensures CheckpointAuthorized(s, Some(contract)) <==> ResolvedFor(s, contract)
  {
    CheckpointIsLast(s.interrupts);
    var last := LastDriverCheckpoint(s.interrupts);
    if last.Some? {
      assert LastCheckpointAt(s.interrupts, last.value);
      OneResolution(s.actions, last.value);
    }
  }

  lemma KnocksIff(s: RunState, node: Node, current: Option<Observation>)
    ensures Knocks(s, node, current) <==>
      !(s.HandoffCancelled() || s.Terminal() || current.None? || !current.value.projectMatches
        || !CreatedAttemptStillFits(s, node))
  {
    if s.progress.Some? && s.progress.value.stage.AttemptCreated? && s.handoff.Some? {
      assert (exists i :: 0 <= i < |s.attempts| && Fits(s, s.attempts[i], node)) <==>
        exists i :: 0 <= i < |s.attempts| && s.progress.value.execution == Some(s.attempts[i].id)
          && s.attempts[i].node == node && s.attempts[i].contract == s.handoff.value.active;
    }
  }

  lemma FirstIff(s: RunState, obs: Observation, c: Contract)
    ensures FirstContract(s, obs, c) <==> c.supersedes.None? && SealedFor(s, obs, c)
  {
    LatestIsLast(s.attempts);
  }

  /** The contract that the reconciliation selects, and whether it finds it stale for its Architect. */
  lemma SelectedIs(s: RunState, obs: Observation)
    requires ValidHistory(s.History()) && !s.Terminal()
    ensures match ContractAt(s, obs)
      case Some(c) =>
        SelectContract(s, obs, false, None) ==
          Ok(Selection(c, s.History().contracts != [] && !NamesLastArchitect(s, c)))
      case None =>
        SelectContract(s, obs, false, None).Ok? ==>
          s.History().contracts == [] && SelectContract(s, obs, false, None).value.contract.supersedes.Some?
  {
    var h := s.History();
    if h.contracts != [] {
      NamesLastIff(s, h.contracts[|h.contracts| - 1]);
    } else if obs.candidate.Some? {
      FirstIff(s, obs, obs.candidate.value);
    }
  }

  lemma ReasonsAre(s: RunState, obs: Observation, c: Contract, id: Id, now: nat)
    ensures var h := s.History();
      Assess(Selection(c, h.contracts != [] && !NamesLastArchitect(s, c)), obs,
             if h.reconciliations != [] then Some(h.reconciliations[|h.reconciliations| - 1]) else None, id, now)
        == Reconciliation(id, c.id, now, GateReasons(s, obs, c), obs.snapshot, obs.references)
  {
  }

  lemma NoReasonsIff(s: RunState, obs: Observation, c: Contract)
    ensures GateReasons(s, obs, c) == {} <==> EvidenceHolds(s, obs, c)
  {
    assert MissingEvidence in {MissingEvidence} && StaleEvidence in {StaleEvidence};
  }

  lemma NoRecordsYet(h: Handoff)
    requires ReconciliationsValid(h.contracts, h.reconciliations) && h.contracts == []
    ensures h.reconciliations == []
  {
    assert h.reconciliations == [] || RecordKnown(h.contracts, h.reconciliations[0]);
  }

  lemma AssessedValidIff(s: RunState, obs: Observation, c: Contract, id: Id, now: nat)
    requires ValidHistory(s.History()) && Timely(s.History(), now) && ContractAt(s, obs) == Some(c)
    requires !Known(s, obs, c)
    ensures ValidHistory(Assessed(s, obs, c, id, now).History()) <==>
      |s.History().reconciliations| < MAX_RECONCILIATIONS
      && forall k :: 0 <= k < |s.History().reconciliations| ==> s.History().reconciliations[k].id != id
  {
    var h, g := s.History(), Assessed(s, obs, c, id, now).History();
    var n := |h.reconciliations|;
    NoReasonsIff(s, obs, c);
    if h.contracts == [] { NoRecordsYet(h); }
    assert g.contracts[|g.contracts| - 1] == c;
    if ValidHistory(g) {
      forall k | 0 <= k < n ensures h.reconciliations[k].id != id {
        assert g.reconciliations[k].id != g.reconciliations[n].id;
      }
    }
    if n < MAX_RECONCILIATIONS && (forall k :: 0 <= k < n ==> h.reconciliations[k].id != id) {
      RecordFits(h, g, c);
    }
  }

  lemma RecordFits(h: Handoff, g: Handoff, c: Contract)
    requires ValidHistory(h) && g.contracts == (if h.contracts != [] then h.contracts else [c])
    requires g.contracts[|g.contracts| - 1] == c && g.active == Some(c.id) && g.corrections == h.corrections
    requires h.contracts == [] ==> h.reconciliations == [] && h.corrections == [] && c.supersedes.None?
    requires |g.reconciliations| == |h.reconciliations| + 1 && h.reconciliations <= g.reconciliations
    requires |g.reconciliations| <= MAX_RECONCILIATIONS
    requires var r := g.reconciliations[|h.reconciliations|];
      && r.contract == c.id && (r.Ready() ==> r.snapshot.sourceRevision == Some(c.sourceRevision))
      && forall k :: 0 <= k < |h.reconciliations| ==> h.reconciliations[k].id != r.id && h.reconciliations[k].at <= r.at
    ensures ValidHistory(g)
  {
    var r := g.reconciliations[|h.reconciliations|];
    assert g.reconciliations == h.reconciliations + [r];
    assert RecordKnown(g.contracts, r) by { assert g.contracts[|g.contracts| - 1].id == r.contract; }
    if h.contracts != [] {
      forall x | x in h.reconciliations ensures x.id != r.id {
        var k :| 0 <= k < |h.reconciliations| && h.reconciliations[k] == x;
      }
      ExtendReconciliations(h.contracts, h.reconciliations, r);
    }
  }

  // ----- the outcome -----

  lemma RecordedIs(s: RunState, obs: Observation, id: Id, now: nat)
    requires ValidHistory(s.History()) && Timely(s.History(), now) && !s.Terminal()
    ensures ReconcileRun(s, obs, false, None, id, now) ==
      match ContractAt(s, obs)
      case None => Refused
      case Some(c) =>
        if Known(s, obs, c) || MayRecord(s.History(), id) then Ok(Assessed(s, obs, c, id, now)) else Refused
  {
    SelectedIs(s, obs);
    match ContractAt(s, obs)
    case None => NoFirstContract(s, obs, id, now);
    case Some(c) =>
      ReasonsAre(s, obs, c, id, now);
      if !Known(s, obs, c) { AssessedValidIff(s, obs, c, id, now); }
  }

  lemma NoFirstContract(s: RunState, obs: Observation, id: Id, now: nat)
    requires ValidHistory(s.History()) && !s.Terminal() && ContractAt(s, obs).None?
    ensures ReconcileRun(s, obs, false, None, id, now) == Refused
  {
    SelectedIs(s, obs);
    var h := s.History();
    var selected := SelectContract(s, obs, false, None);
    if selected.Ok? {
      NoRecordsYet(h);
      var result := Assess(selected.value, obs, None, id, now);
      var grown := Handoff([selected.value.contract], h.reconciliations + [result], h.corrections,
                           Some(selected.value.contract.id));
      assert !Linked(grown.contracts, 0);
    }
  }

  /** The gate admits exactly what is admissible, and leaves exactly the document described above. */
  lemma GateOutcome(s: RunState, node: Node, current: Option<Observation>, id: Id, now: nat)
    requires ValidHistory(s.History()) && Timely(s.History(), now)
    ensures AdmitDriver(s, node, current, id, now) ==
      if Admissible(s, node, current, id) then Admitted(GateSaves(s, node, current, id, now))
      else GateRefused(GateSaves(s, node, current, id, now))
  {
    KnocksIff(s, node, current);
    if Knocks(s, node, current) {
      RecordedIs(s, current.value, id, now);
      if Assesses(s, node, current, id) {
        var c := ContractAt(s, current.value).value;
        NoReasonsIff(s, current.value, c);
        ResolvedIff(s, c.id);
        AssessedShape(s, current.value, c, id, now);
      }
    }
  }

  lemma AssessedShape(s: RunState, obs: Observation, c: Contract, id: Id, now: nat)
    requires ValidHistory(s.History()) && ContractAt(s, obs) == Some(c)
    ensures var r := Assessed(s, obs, c, id, now);
      var h := r.History();
      && ActiveContract(h) == Some(c) && h.active == Some(c.id) && h.reconciliations != []
      && h.reconciliations[|h.reconciliations| - 1].reasons == GateReasons(s, obs, c)
      && (ResolvedFor(r, c.id) <==> ResolvedFor(s, c.id))
      && (CheckpointAuthorized(r, Some(c.id)) <==> CheckpointAuthorized(s, Some(c.id)))
  {
    if s.History().contracts == [] { NoRecordsYet(s.History()); }
  }

  // ----- sealing before any Driver -----

  /** An admitted run that is not over, without any Driver attempt or correction. */
  predicate BeforeDriver(s: RunState) {
    && s.admission.Some? && !s.status.DoneStatus? && !s.status.FailedInfra?
    && NoDriverYet(s.attempts) && s.History().corrections == []
  }

  /** The candidate of the last Architect attempt is the first contract, or the one that is already active. */
  predicate ArchitectSeals(s: RunState, obs: Observation, c: Contract) {
    var h := s.History();
    && BeforeDriver(s) && obs.recipeHasArchitecture && obs.candidate == Some(c)
    && FirstContract(s, obs, c.(supersedes := None))
    && (if h.contracts == [] then c.supersedes.None?
        else h.contracts[|h.contracts| - 1] == c && h.active == Some(c.id))
  }

  /** The assessment is known already, or may be recorded. */
  predicate Recordable(s: RunState, obs: Observation, c: Contract, id: Id) {
    Known(s, obs, c) || MayRecord(s.History(), id)
  }

  lemma DriverYetIff(attempts: seq<Attempt>)
    ensures NoDriverYet(attempts) <==> !AnyDriverAttempt(attempts)
  {
  }

  lemma ConstructsIff(s: RunState, obs: Observation, c: Contract)
    ensures ConstructInitial(s, obs, true) == Ok(c) <==>
      && BeforeDriver(s) && obs.recipeHasArchitecture && obs.candidate == Some(c)
      && FirstContract(s, obs, c.(supersedes := None))
      && (s.History().contracts != [] ==>
            s.History().contracts[|s.History().contracts| - 1] == c && s.History().active == Some(c.id))
  {
    DriverYetIff(s.attempts);
    FirstIff(s, obs, c.(supersedes := None));
  }

  /** An initial seal assesses the contract a gate would assess. */
  lemma SealSelects(s: RunState, obs: Observation, c: Contract)
    requires ValidHistory(s.History()) && ArchitectSeals(s, obs, c)
    ensures ContractAt(s, obs) == Some(c)
    ensures SelectContract(s, obs, true, None) == SelectContract(s, obs, false, None)
  {
    ConstructsIff(s, obs, c);
    SelectedIs(s, obs);
  }

  lemma SealRefused(s: RunState, obs: Observation, id: Id, now: nat)
    requires ValidHistory(s.History()) && !exists c :: ArchitectSeals(s, obs, c)
    ensures ReconcileRun(s, obs, true, None, id, now) == Refused
  {
    var constructed := ConstructInitial(s, obs, true);
    if constructed.Ok? {
      var c := constructed.value;
      ConstructsIff(s, obs, c);
      assert !ArchitectSeals(s, obs, c);
      NoRecordsYet(s.History());
      var grown := Handoff([c], [Assess(Selection(c, false), obs, None, id, now)], [], Some(c.id));
      assert !Linked(grown.contracts, 0);
    }
  }

  /** Exactly when an Architect's contract is sealed, and the record that is then saved. */
  lemma ArchitectSealOutcome(s: RunState, obs: Observation, id: Id, now: nat)
    requires ValidHistory(s.History()) && Timely(s.History(), now)
    ensures SealArchitect(s, obs, id, now).Ok? <==>
      obs.projectMatches && exists c :: ArchitectSeals(s, obs, c) && Recordable(s, obs, c, id)
    ensures forall c :: obs.projectMatches && ArchitectSeals(s, obs, c) && Recordable(s, obs, c, id) ==>
      SealArchitect(s, obs, id, now) == Ok(Assessed(s, obs, c, id, now))
  {
    if c :| ArchitectSeals(s, obs, c) {
      SealSelects(s, obs, c);
      RecordedIs(s, obs, id, now);
    } else {
      SealRefused(s, obs, id, now);
    }
  }

  /** The same for a recipe without an Architect. */
  lemma CompactSealOutcome(s: RunState, obs: Observation, id: Id, now: nat)
    requires ValidHistory(s.History()) && Timely(s.History(), now)
    ensures SealCompact(s, obs, id, now) ==
      if obs.projectMatches && !obs.recipeHasArchitecture && !s.status.DoneStatus? && !s.status.FailedInfra?
        && NoDriverYet(s.attempts) && s.History().corrections == [] && ContractAt(s, obs).Some?
        && Recordable(s, obs, ContractAt(s, obs).value, id)
      then Ok(Assessed(s, obs, ContractAt(s, obs).value, id, now)) else Refused
  {
    DriverYetIff(s.attempts);
    if !s.Terminal() { RecordedIs(s, obs, id, now); }
  }

  /** An assessment with reasons is saved as the clarification it is, and admits nothing. */
  lemma ClarificationIsSaved(
    s: RunState, node: Node, current: Option<Observation>, c: Contract, id: Id, now: nat)
    requires ValidHistory(s.History()) && Timely(s.History(), now)
    requires Knocks(s, node, current) && ContractAt(s, current.value) == Some(c) && MayRecord(s.History(), id)
    requires !EvidenceHolds(s, current.value, c)
    ensures var r := AdmitDriver(s, node, current, id, now);
      var h, g := s.History(), r.state.History();
      && r.GateRefused? && r.state == s.(handoff := r.state.handoff)
      && |g.reconciliations| == |h.reconciliations| + 1 && h.reconciliations <= g.reconciliations
      && var record := g.reconciliations[|h.reconciliations|];
         record.contract == c.id && record.reasons != {} && record.snapshot == current.value.snapshot
         && record.references == current.value.references && record.id == id && record.at == now
  {
    GateOutcome(s, node, current, id, now);
    NoReasonsIff(s, current.value, c);
  }

  // ----- a clarification ends its contract -----

  /** Some record of this contract asks for clarification. */
  ghost predicate Clarified(h: Handoff, contract: Id) {
    exists i :: 0 <= i < |h.reconciliations| && h.reconciliations[i].contract == contract &&
      !h.reconciliations[i].Ready()
  }

  lemma ClarifiedStays(h: Handoff, g: Handoff, contract: Id)
    requires Clarified(h, contract) && h.reconciliations <= g.reconciliations
    ensures Clarified(g, contract)
  {
    var i :| 0 <= i < |h.reconciliations| && h.reconciliations[i].contract == contract && !h.reconciliations[i].Ready();
    assert g.reconciliations[i] == h.reconciliations[i];
  }

  /** The latest record of an open gate is ready, and no record of the same contract before it was not. */
  lemma OpenIsNotClarified(s: RunState, node: Node, contract: Id)
    requires HistoryOk(s.History()) && GateOpen(s, node) && Clarified(s.History(), contract)
    ensures s.History().active != Some(contract)
  {
    var h := s.History();
    var i :| 0 <= i < |h.reconciliations| && h.reconciliations[i].contract == contract && !h.reconciliations[i].Ready();
    ClarificationIsSticky(h);
    assert i < |h.reconciliations| - 1 || i == |h.reconciliations| - 1;
  }

  lemma AdmittedIsNotClarified(s: RunState, node: Node, current: Option<Observation>, id: Id, now: nat, contract: Id)
    requires HistoryOk(s.History()) && Clarified(s.History(), contract)
    ensures match AdmitDriver(s, node, current, id, now)
      case GateRefused(_) => true
      case Admitted(r) => r.History().active != Some(contract)
  {
    AdmitKeepsHistory(s, node, current, id, now);
    AdmittedIsOpen(s, node, current, id, now);
    AdmitMoves(s, node, current, id, now);
    var result := AdmitDriver(s, node, current, id, now);
    if result.Admitted? {
      ClarifiedStays(s.History(), result.state.History(), contract);
      OpenIsNotClarified(result.state, node, contract);
    }
  }

  /**
   Once a record of a contract asked for clarification, in no continuation of the run, whatever the
   evidence, does a gate admit that contract again, and no Driver role is entered under it.
   */
  lemma NoDriverAfterClarification(
    limit: int, used: int, admission: Option<Admission>, before: seq<Event>, after: seq<Event>, contract: Id)
    ensures var w := Exec(StartRun(limit, used, admission), before);
      var w' := Exec(w, after);
      Clarified(w.disk.History(), contract) ==>
        && (forall p: Process, current: Option<Observation>, id: Id {:trigger PassGate(w', p, current, id)} ::
              w'.process == Some(p) && p.Looping? && p.node.IsDriver() && PassGate(w', p, current, id).process.Some? ==>
                PassGate(w', p, current, id).process.value.s.History().active != Some(contract))
        && (Enabled(w', Start) && w'.process.value.node.IsDriver() ==>
              w'.disk.attempts != [] && w'.disk.attempts[|w'.disk.attempts| - 1].contract != Some(contract))
  {
    var w := Exec(StartRun(limit, used, admission), before);
    var w' := Exec(w, after);
    if Clarified(w.disk.History(), contract) {
      ClarifiedLater(limit, used, admission, before, after, contract);
      ExecSplits(StartRun(limit, used, admission), before, after);
      EveryDriverStartIsAuthorized(limit, used, admission, before + after);
      if Enabled(w', Start) && w'.process.value.node.IsDriver() {
        OpenIsNotClarified(w'.disk, w'.process.value.node, contract);
      }
      forall p: Process, current: Option<Observation>, id: Id
        | w'.process == Some(p) && p.Looping? && p.node.IsDriver() && PassGate(w', p, current, id).process.Some?
        ensures PassGate(w', p, current, id).process.value.s.History().active != Some(contract)
      {
        PassedIsNotClarified(w', p, current, id, contract, used);
      }
    }
  }

  lemma ClarifiedLater(
    limit: int, used: int, admission: Option<Admission>, before: seq<Event>, after: seq<Event>, contract: Id)
    requires Clarified(Exec(StartRun(limit, used, admission), before).disk.History(), contract)
    ensures var w' := Exec(Exec(StartRun(limit, used, admission), before), after);
      KeepsOrder(w', used) && Clarified(w'.disk.History(), contract)
  {
    var w := Exec(StartRun(limit, used, admission), before);
    StartKeepsOrder(limit, used, admission);
    ExecKeepsOrder(StartRun(limit, used, admission), before, used);
    ExecKeepsOrder(w, after, used);
    HistoryOnlyGrows(w, after, used);
    ClarifiedStays(w.disk.History(), Exec(w, after).disk.History(), contract);
  }

  lemma PassedIsNotClarified(w: World, p: Process, current: Option<Observation>, id: Id, contract: Id, start: int)
    requires KeepsOrder(w, start) && Clarified(w.disk.History(), contract)
    requires w.process == Some(p) && p.Looping? && PassGate(w, p, current, id).process.Some?
    ensures PassGate(w, p, current, id).process.value.s.History().active != Some(contract)
  {
    ProcessHandoff(w);
    AdmittedIsNotClarified(p.s, p.node, current, id, w.clock, contract);
  }

  lemma {:induction false} ExecSplits(w: World, before: seq<Event>, after: seq<Event>)
    ensures Exec(w, before + after) == Exec(Exec(w, before), after)
    decreases |before|
  {
    if before == [] {
      assert before + after == after;
    } else {
      assert (before + after)[0] == before[0] && (before + after)[1..] == before[1..] + after;
      ExecSplits(Step(w, before[0]), before[1..], after);
    }
  }
}

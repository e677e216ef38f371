/**
 The human changes of a handoff: exactly which are accepted, in terms of the document and the command
 alone, and what that means over whole runs for returns to the Architect and approved contracts.
 */
module HandoffChanges {
  import opened Options
  import opened RunModel
  import opened Handoffs
  import opened Engine
  import opened RunRecords
  import opened Decisions
  import opened HandoffRuns

  // ----- what a document and a command must say -----

  predicate LastArchitectAt(attempts: seq<Attempt>, k: nat)
    requires k < |attempts|
  {
    attempts[k].node.Architect? && forall m :: k < m < |attempts| ==> !attempts[m].node.Architect?
  }

  /** The last manual checkpoint that hands off to a Driver. */
  predicate LastCheckpointAt(interrupts: seq<Interrupt>, k: nat)
    requires k < |interrupts|
  {
    interrupts[k].DriverCheckpoint() && forall m :: k < m < |interrupts| ==> !interrupts[m].DriverCheckpoint()
  }

  predicate Recorded(h: Handoff, action: Id) {
    exists i :: 0 <= i < |h.corrections| && h.corrections[i].action == action
  }

  /** The very same change was made before, at some other time. */
  predicate Repeats(h: Handoff, cmd: ChangeCommand) {
    exists i :: 0 <= i < |h.corrections| && h.corrections[i].action == cmd.action
      && h.corrections[i] == CorrectionOf(cmd, h.corrections[i].at)
  }

  predicate WellFormed(cmd: ChangeCommand) {
    && (cmd.kind.ApproveCorrection? <==> cmd.corrected.Some?)
    && (cmd.corrected.Some? ==> cmd.expected != Some(cmd.corrected.value.id))
  }

  /** The run is admitted, neither over nor cancelled, between attempts, and the command knows its tip. */
  predicate Changeable(s: RunState, cmd: ChangeCommand) {
    var h := s.History();
    && s.admission.Some? && !s.status.DoneStatus? && !s.status.FailedInfra?
    && (h.corrections != [] ==> !h.corrections[|h.corrections| - 1].kind.CancelHandoff?)
    && (forall k :: 0 <= k < |s.attempts| ==> !s.attempts[k].outcome.Unfinished?)
    && (forall k :: 0 <= k < |s.actions| ==> s.actions[k].id != cmd.action)
    && cmd.expected == (if h.contracts == [] then None else Some(h.contracts[|h.contracts| - 1].id))
    && |h.corrections| < MAX_CORRECTIONS
  }

  /** A return needs a recipe with an Architect; neither a return nor a cancel looks at evidence. */
  predicate Withdraws(s: RunState, cmd: ChangeCommand) {
    && !cmd.kind.ApproveCorrection? && cmd.current.None?
    && (cmd.kind.ReturnToArchitect? ==> s.admission.Some? && s.admission.value.hasArchitecture)
  }

  /** After a return the Architect has started again, strictly later. */
  predicate ReturnAnswered(s: RunState) {
    var h := s.History();
    h.corrections != [] && h.corrections[|h.corrections| - 1].kind.ReturnToArchitect? ==>
      exists k :: 0 <= k < |s.attempts| && LastArchitectAt(s.attempts, k)
        && s.attempts[k].startedAt > h.corrections[|h.corrections| - 1].at
  }

  /** The contract names no Architect execution, or the last one. */
  predicate NamesLastArchitect(s: RunState, c: Contract) {
    c.architectExecution.Some? ==>
      exists k :: 0 <= k < |s.attempts| && LastArchitectAt(s.attempts, k)
        && s.attempts[k].id == c.architectExecution.value
  }

  /** Once a Driver checkpoint was resolved, a correction may only be made where the run is at a Driver. */
  predicate AtDriverBoundary(s: RunState) {
    forall i :: 0 <= i < |s.interrupts| && LastCheckpointAt(s.interrupts, i) && s.interrupts[i].resolution.Some? ==>
      if s.progress.Some? then s.progress.value.nextNode.IsDriver()
      else s.resumeTarget.Some? ==> s.resumeTarget.value.IsDriver()
  }

  /** A new contract right after the tip, ready on evidence of its own source, with room for its records. */
  predicate Approves(s: RunState, cmd: ChangeCommand) {
    var h := s.History();
    && cmd.kind.ApproveCorrection? && cmd.corrected.Some? && cmd.current.Some?
    && var c, obs := cmd.corrected.value, cmd.current.value;
       && c.supersedes == cmd.expected
       && (forall k :: 0 <= k < |h.contracts| ==> h.contracts[k].id != c.id)
       && (forall k :: 0 <= k < |h.reconciliations| ==> h.reconciliations[k].id != cmd.reconciliation)
       && |h.contracts| < MAX_CONTRACTS && |h.reconciliations| < MAX_RECONCILIATIONS
       && obs.policyReasons == {} && obs.snapshot.sourceRevision == Some(c.sourceRevision)
       && ReturnAnswered(s) && NamesLastArchitect(s, c) && AtDriverBoundary(s)
  }

  /** When a change is accepted. */
  predicate Acceptable(s: RunState, cmd: ChangeCommand) {
    && WellFormed(cmd)
    && if Recorded(s.History(), cmd.action) then Repeats(s.History(), cmd)
       else Changeable(s, cmd) && (Withdraws(s, cmd) || Approves(s, cmd))
  }

  /** Nothing in the history lies in the future. */
  ghost predicate Timely(h: Handoff, now: nat) {
    && (forall i :: 0 <= i < |h.reconciliations| ==> h.reconciliations[i].at <= now)
    && (forall i :: 0 <= i < |h.corrections| ==> h.corrections[i].at <= now)
  }

  // ----- the pieces -----

  lemma {:induction false} LatestIsLast(attempts: seq<Attempt>)
    ensures match LatestArchitect(attempts)
      case None => forall k :: 0 <= k < |attempts| ==> !attempts[k].node.Architect?
      case Some(a) => exists k :: 0 <= k < |attempts| && LastArchitectAt(attempts, k) && attempts[k] == a
    ensures forall j, k :: (0 <= j < |attempts| && 0 <= k < |attempts| && LastArchitectAt(attempts, j)
      && LastArchitectAt(attempts, k)) ==> j == k
  {
    if attempts != [] {
      var n := |attempts| - 1;
      if attempts[n].node.Architect? {
        assert LastArchitectAt(attempts, n);
      } else {
        LatestIsLast(attempts[..n]);
        var earlier := LatestArchitect(attempts[..n]);
        if earlier.Some? {
          var k :| 0 <= k < n && LastArchitectAt(attempts[..n], k) && attempts[..n][k] == earlier.value;
          assert forall m :: k < m < n ==> attempts[m] == attempts[..n][m];
          assert LastArchitectAt(attempts, k);
        } else {
          assert forall k :: 0 <= k < n ==> attempts[k] == attempts[..n][k];
        }
      }
    }
  }

  lemma CheckpointIsLast(interrupts: seq<Interrupt>)
    ensures forall i :: 0 <= i < |interrupts| ==>
      (LastCheckpointAt(interrupts, i) <==> LastDriverCheckpoint(interrupts) == Some(i))
  {
    var last := LastDriverCheckpoint(interrupts);
    if last.Some? { assert LastCheckpointAt(interrupts, last.value); }
  }

  lemma FindIsRecorded(h: Handoff, cmd: ChangeCommand)
    requires CorrectionsValid(h.contracts, h.corrections)
    ensures FindCorrection(h.corrections, cmd.action).Some? <==> Recorded(h, cmd.action)
    ensures match FindCorrection(h.corrections, cmd.action)
      case None => true
      case Some(c) => forall now :: SameRequest(c, CorrectionOf(cmd, now)) <==> Repeats(h, cmd)
  {
    var found := FindCorrection(h.corrections, cmd.action);
    if found.Some? {
      var i :| 0 <= i < |h.corrections| && h.corrections[i] == found.value;
      forall j | 0 <= j < |h.corrections| && j != i ensures h.corrections[j].action != cmd.action {
        assert CorrectionFollows(h.corrections[if j < i then j else i], h.corrections[if j < i then i else j]);
      }
    } else {
      forall i | 0 <= i < |h.corrections| ensures h.corrections[i].action != cmd.action {
        assert h.corrections[i] in h.corrections;
      }
    }
  }

  // ----- when the grown history is valid -----

  lemma KnownStays(contracts: seq<Contract>, c: Contract, r: Reconciliation)
    requires RecordKnown(contracts, r) && forall k :: 0 <= k < |contracts| ==> contracts[k].id != c.id
    ensures RecordKnown(contracts + [c], r)
  {
    var k :| 0 <= k < |contracts| && contracts[k].id == r.contract;
    assert (contracts + [c])[k].id == r.contract;
  }

  lemma LinkedStays(contracts: seq<Contract>, c: Contract, x: Correction)
    requires CorrectionKnown(contracts, x) && forall k :: 0 <= k < |contracts| ==> contracts[k].id != c.id
    ensures CorrectionKnown(contracts + [c], x)
  {
    forall id | HasContract(contracts, id) ensures HasContract(contracts + [c], id) {
      var k :| 0 <= k < |contracts| && contracts[k].id == id;
      assert (contracts + [c])[k].id == id;
    }
    if x.corrected.Some? {
      var k :| 0 <= k < |contracts| && contracts[k].id == x.corrected.value;
      assert x.corrected.value != c.id;
    }
  }

  lemma WithdrawalValidIff(h: Handoff, c: Correction)
    requires ValidHistory(h) && Timely(h, c.at) && c.corrected.None? && c.previous == Tip(h)
    requires forall i :: 0 <= i < |h.corrections| ==> h.corrections[i].action != c.action
    ensures ValidHistory(Handoff(h.contracts, h.reconciliations, h.corrections + [c], None)) <==>
      |h.corrections| < MAX_CORRECTIONS
  {
    if h.contracts != [] { assert h.contracts[|h.contracts| - 1].id == Tip(h).value; }
    forall x | x in h.corrections ensures x.action != c.action {
      var i :| 0 <= i < |h.corrections| && h.corrections[i] == x;
    }
    ExtendCorrections(h.contracts, h.corrections, c);
  }

  function Replaced(h: Handoff, c: Contract, r: Reconciliation, x: Correction): Handoff {
    Handoff(h.contracts + [c], h.reconciliations + [r], h.corrections + [x], Some(c.id))
  }

  lemma ReplacementValid(h: Handoff, c: Contract, r: Reconciliation, x: Correction)
    requires ValidHistory(h) && Timely(h, r.at) && Timely(h, x.at) && c.supersedes == Tip(h) && x.previous == Tip(h)
    requires r.contract == c.id && (r.Ready() ==> r.snapshot.sourceRevision == Some(c.sourceRevision))
    requires x.corrected == Some(c.id)
    requires forall k :: 0 <= k < |h.corrections| ==> h.corrections[k].action != x.action
    requires forall k :: 0 <= k < |h.contracts| ==> h.contracts[k].id != c.id
    requires forall k :: 0 <= k < |h.reconciliations| ==> h.reconciliations[k].id != r.id
    requires |h.contracts| < MAX_CONTRACTS && |h.reconciliations| < MAX_RECONCILIATIONS
    requires |h.corrections| < MAX_CORRECTIONS
    ensures ValidHistory(Replaced(h, c, r, x))
  {
    ExtendChain(h.contracts, c);
    ReplacementRecords(h, c, r);
    ReplacementCorrections(h, c, x);
  }

  lemma ReplacementRecords(h: Handoff, c: Contract, r: Reconciliation)
    requires ValidHistory(h) && Timely(h, r.at)
    requires r.contract == c.id && (r.Ready() ==> r.snapshot.sourceRevision == Some(c.sourceRevision))
    requires forall k :: 0 <= k < |h.contracts| ==> h.contracts[k].id != c.id
    requires forall k :: 0 <= k < |h.reconciliations| ==> h.reconciliations[k].id != r.id
    ensures ReconciliationsValid(h.contracts + [c], h.reconciliations + [r])
  {
    var contracts := h.contracts + [c];
    forall i | 0 <= i < |h.reconciliations| ensures RecordKnown(contracts, h.reconciliations[i]) {
      KnownStays(h.contracts, c, h.reconciliations[i]);
    }
    assert contracts[|h.contracts|].id == r.contract;
    assert RecordKnown(contracts, r);
    forall x | x in h.reconciliations ensures x.id != r.id {
      var i :| 0 <= i < |h.reconciliations| && h.reconciliations[i] == x;
    }
    ExtendReconciliations(contracts, h.reconciliations, r);
  }

  lemma ReplacementCorrections(h: Handoff, c: Contract, x: Correction)
    requires ValidHistory(h) && Timely(h, x.at) && c.supersedes == Tip(h) && x.previous == Tip(h)
    requires x.corrected == Some(c.id)
    requires forall k :: 0 <= k < |h.corrections| ==> h.corrections[k].action != x.action
    requires forall k :: 0 <= k < |h.contracts| ==> h.contracts[k].id != c.id
    ensures CorrectionsValid(h.contracts + [c], h.corrections + [x])
  {
    var contracts := h.contracts + [c];
    forall i | 0 <= i < |h.corrections| ensures CorrectionKnown(contracts, h.corrections[i]) {
      LinkedStays(h.contracts, c, h.corrections[i]);
    }
    if h.contracts != [] { assert contracts[|h.contracts| - 1].id == Tip(h).value; }
    assert contracts[|h.contracts|].id == c.id;
    assert CorrectionKnown(contracts, x);
    forall y | y in h.corrections ensures y.action != x.action && (y.corrected.Some? ==> y.corrected != x.corrected) {
      var i :| 0 <= i < |h.corrections| && h.corrections[i] == y;
      assert CorrectionKnown(h.contracts, y);
    }
    ExtendCorrections(contracts, h.corrections, x);
  }

  /** A valid history tells that the new ids were new. */
  lemma ReplacementIsNew(h: Handoff, c: Contract, r: Reconciliation, x: Correction)
    requires ValidHistory(Replaced(h, c, r, x))
    ensures forall k :: 0 <= k < |h.contracts| ==> h.contracts[k].id != c.id
    ensures forall k :: 0 <= k < |h.reconciliations| ==> h.reconciliations[k].id != r.id
    ensures |h.contracts| < MAX_CONTRACTS && |h.reconciliations| < MAX_RECONCILIATIONS
    ensures |h.corrections| < MAX_CORRECTIONS
  {
    var g := Replaced(h, c, r, x);
    forall k | 0 <= k < |h.contracts| ensures h.contracts[k].id != c.id {
      assert g.contracts[k].id != g.contracts[|h.contracts|].id;
    }
    forall k | 0 <= k < |h.reconciliations| ensures h.reconciliations[k].id != r.id {
      assert g.reconciliations[k].id != g.reconciliations[|h.reconciliations|].id;
    }
  }

  /** The record that an approval would add. */
  function FirstRecord(cmd: ChangeCommand, now: nat): Reconciliation
    requires cmd.corrected.Some? && cmd.current.Some?
  {
    Assess(Selection(cmd.corrected.value, false), cmd.current.value, None, cmd.reconciliation, now)
  }

  lemma ReplacementOutcome(s: RunState, cmd: ChangeCommand, now: nat)
    requires cmd.corrected.Some? && cmd.current.Some?
    ensures var x := CorrectionOf(cmd, now);
      var g := Replaced(s.History(), cmd.corrected.value, FirstRecord(cmd, now), x);
      ReconcileRun(s, cmd.current.value, false, Some((cmd.corrected.value, x)), cmd.reconciliation, now) ==
        if ValidHistory(g) then Ok(s.(handoff := Some(g))) else Refused
  {
  }

  lemma FirstRecordReady(cmd: ChangeCommand, now: nat)
    requires cmd.corrected.Some? && cmd.current.Some?
    ensures FirstRecord(cmd, now).Ready() <==>
      cmd.current.value.policyReasons == {}
      && cmd.current.value.snapshot.sourceRevision == Some(cmd.corrected.value.sourceRevision)
    ensures FirstRecord(cmd, now).contract == cmd.corrected.value.id && FirstRecord(cmd, now).id == cmd.reconciliation
    ensures FirstRecord(cmd, now).at == now && FirstRecord(cmd, now).snapshot == cmd.current.value.snapshot
  {
    assert MissingEvidence in {MissingEvidence} && StaleEvidence in {StaleEvidence};
  }

  /** Whatever is found ready names the last Architect attempt, if it names any. */
  lemma ReadyNamesLast(s: RunState, obs: Observation, id: Id, now: nat)
    ensures match ReconcileRun(s, obs, false, None, id, now)
      case Refused => true
      case Ok(r) =>
        var h := r.History();
        h.reconciliations != [] && h.reconciliations[|h.reconciliations| - 1].Ready() && ActiveContract(h).Some? ==>
          NamesLastArchitect(s, ActiveContract(h).value)
  {
    var selected := SelectContract(s, obs, false, None);
    if selected.Ok? {
      NamesLastIff(s, selected.value.contract);
      assert StaleEvidence in {StaleEvidence};
    }
  }

  // ----- when a change is accepted -----

  lemma LogIsUnused(s: RunState, cmd: ChangeCommand)
    ensures HasAction(s.actions, cmd.action) <==> !forall k :: 0 <= k < |s.actions| ==> s.actions[k].id != cmd.action
    ensures AnyUnfinished(s.attempts) <==> !forall k :: 0 <= k < |s.attempts| ==> !s.attempts[k].outcome.Unfinished?
  {
  }

  /** What the first branches of a change let through. */
  predicate PastGuards(s: RunState, cmd: ChangeCommand) {
    !(HasAction(s.actions, cmd.action) || s.admission.None? || s.Terminal() || s.HandoffCancelled()
      || AnyUnfinished(s.attempts) || cmd.expected != Tip(s.History()))
  }

  lemma ChangeableIsPast(s: RunState, cmd: ChangeCommand)
    ensures Changeable(s, cmd) <==> PastGuards(s, cmd) && |s.History().corrections| < MAX_CORRECTIONS
  {
    LogIsUnused(s, cmd);
  }

  lemma Unrecorded(h: Handoff, action: Id)
    requires !Recorded(h, action)
    ensures forall k :: 0 <= k < |h.corrections| ==> h.corrections[k].action != action
  {
  }

  lemma WithdrawalIff(s: RunState, cmd: ChangeCommand, now: nat)
    requires ValidHistory(s.History()) && Timely(s.History(), now)
    requires PastGuards(s, cmd) && WellFormed(cmd) && !cmd.kind.ApproveCorrection? && !Recorded(s.History(), cmd.action)
    ensures ReturnOrCancel(s, cmd, now).Ok? <==> Withdraws(s, cmd) && |s.History().corrections| < MAX_CORRECTIONS
  {
    Unrecorded(s.History(), cmd.action);
    WithdrawalValidIff(s.History(), CorrectionOf(cmd, now));
  }

  // The two rules about the last Architect attempt, and the rule about the boundary.

  lemma AnsweredIff(s: RunState)
    ensures var h, latest := s.History(), LatestArchitect(s.attempts);
      ReturnAnswered(s) <==>
        !(h.corrections != [] && h.corrections[|h.corrections| - 1].kind.ReturnToArchitect?
          && (latest.None? || latest.value.startedAt <= h.corrections[|h.corrections| - 1].at))
  {
    LatestIsLast(s.attempts);
  }

  lemma NamesLastIff(s: RunState, c: Contract)
    ensures var latest := LatestArchitect(s.attempts);
      NamesLastArchitect(s, c) <==>
        !(c.architectExecution.Some? && (latest.None? || c.architectExecution.value != latest.value.id))
  {
    LatestIsLast(s.attempts);
  }

  lemma BoundaryIff(s: RunState)
    ensures AtDriverBoundary(s) <==> (ApprovalTarget(s).None? || ApprovalTarget(s).value.IsDriver())
  {
    CheckpointIsLast(s.interrupts);
    var last := LastDriverCheckpoint(s.interrupts);
    if last.Some? { assert LastCheckpointAt(s.interrupts, last.value); }
  }

  /** The branches of an approval, one after the other. */
  lemma ApprovalBranches(s: RunState, cmd: ChangeCommand, now: nat)
    requires cmd.corrected.Some? && cmd.current.Some?
    ensures ApproveChange(s, cmd, now).Ok? <==>
      && cmd.corrected.value.supersedes == Tip(s.History())
      && ReturnAnswered(s) && NamesLastArchitect(s, cmd.corrected.value)
      && ValidHistory(Replaced(s.History(), cmd.corrected.value, FirstRecord(cmd, now), CorrectionOf(cmd, now)))
      && FirstRecord(cmd, now).Ready() && AtDriverBoundary(s)
  {
    AnsweredIff(s);
    NamesLastIff(s, cmd.corrected.value);
    BoundaryIff(s);
    ReplacementOutcome(s, cmd, now);
  }

  lemma ApprovalIff(s: RunState, cmd: ChangeCommand, now: nat)
    requires ValidHistory(s.History()) && Timely(s.History(), now)
    requires PastGuards(s, cmd) && WellFormed(cmd) && cmd.kind.ApproveCorrection? && !Recorded(s.History(), cmd.action)
    ensures ApproveChange(s, cmd, now).Ok? <==> Approves(s, cmd) && |s.History().corrections| < MAX_CORRECTIONS
  {
    if cmd.current.Some? {
      var h, c, r, x := s.History(), cmd.corrected.value, FirstRecord(cmd, now), CorrectionOf(cmd, now);
      Unrecorded(h, cmd.action);
      FirstRecordReady(cmd, now);
      ApprovalBranches(s, cmd, now);
      if ValidHistory(Replaced(h, c, r, x)) {
        ReplacementIsNew(h, c, r, x);
      }
      if Approves(s, cmd) && |h.corrections| < MAX_CORRECTIONS {
        ReplacementValid(h, c, r, x);
      }
    }
  }

  /**
   A change is accepted exactly when it repeats one that was made, or the document and the
   command meet every condition above; the clock has no say.
   */
  lemma AcceptedIff(s: RunState, cmd: ChangeCommand, now: nat)
    requires ValidHistory(s.History()) && Timely(s.History(), now)
    ensures ChangeHandoff(s, cmd, now).Ok? <==> Acceptable(s, cmd)
  {
    FindIsRecorded(s.History(), cmd);
    ChangeableIsPast(s, cmd);
    if WellFormed(cmd) && !Recorded(s.History(), cmd.action) && PastGuards(s, cmd) {
      if cmd.kind.ApproveCorrection? {
        ApprovalIff(s, cmd, now);
      } else {
        WithdrawalIff(s, cmd, now);
      }
    }
  }
}

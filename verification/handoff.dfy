/**
 The artifact-target handoff: its append-only history, the policy that observes
 current files and appends one reconciliation, the gate before every Driver
 attempt, and the human actions that correct, return or cancel it.
 */
module Handoffs {
  import opened Options
  import opened RunModel

  // ----- the history validator -----

  predicate HasContract(contracts: seq<Contract>, id: Id) {
    exists i :: 0 <= i < |contracts| && contracts[i].id == id
  }

  /** Contract `i` supersedes exactly the contract retained before it. */
  predicate Linked(contracts: seq<Contract>, i: nat)
    requires i < |contracts|
  {
    contracts[i].supersedes == if i == 0 then None else Some(contracts[i - 1].id)
  }

  /** The retained contracts form one supersession chain and `active` may only name its end. */
  predicate ChainValid(contracts: seq<Contract>, active: Option<Id>) {
    && (forall i, j :: 0 <= i < j < |contracts| ==> contracts[i].id != contracts[j].id)
    && (forall i :: 0 <= i < |contracts| ==> Linked(contracts, i))
    && (active.Some? ==> contracts != [] && active.value == contracts[|contracts| - 1].id)
  }

  /** A reconciliation names a retained contract and, when ready, that contract's own source. */
  predicate RecordKnown(contracts: seq<Contract>, r: Reconciliation) {
    && HasContract(contracts, r.contract)
    && (forall k | 0 <= k < |contracts| && contracts[k].id == r.contract ::
          r.Ready() ==> r.snapshot.sourceRevision == Some(contracts[k].sourceRevision))
  }

  predicate ReconciliationsValid(contracts: seq<Contract>, records: seq<Reconciliation>) {
    && (forall i, j :: 0 <= i < j < |records| ==> records[i].id != records[j].id && records[i].at <= records[j].at)
    && (forall i :: 0 <= i < |records| ==> RecordKnown(contracts, records[i]))
  }

  /** The shape every single correction record must have. */
  predicate CorrectionWellFormed(c: Correction) {
    && (c.kind.ApproveCorrection? <==> c.corrected.Some?)
    && (c.corrected.Some? ==> c.corrected != c.previous)
  }

  /** A correction names retained contracts, and an approved one supersedes exactly its predecessor. */
  predicate CorrectionKnown(contracts: seq<Contract>, c: Correction) {
    && (c.previous.Some? ==> HasContract(contracts, c.previous.value))
    && (c.corrected.Some? ==> HasContract(contracts, c.corrected.value))
    && (forall k | 0 <= k < |contracts| && c.corrected == Some(contracts[k].id) ::
          contracts[k].supersedes == c.previous)
  }

  /** Two corrections in order: distinct actions, no time travel, no second approval of one contract. */
  predicate CorrectionFollows(earlier: Correction, later: Correction) {
    && earlier.action != later.action
    && earlier.at <= later.at
    && (earlier.corrected.Some? ==> earlier.corrected != later.corrected)
  }

  predicate CorrectionsValid(contracts: seq<Contract>, corrections: seq<Correction>) {
    && (forall i, j :: 0 <= i < j < |corrections| ==> CorrectionFollows(corrections[i], corrections[j]))
    && (forall i :: 0 <= i < |corrections| ==> CorrectionKnown(contracts, corrections[i]))
  }

  const MAX_CONTRACTS := 100
  const MAX_RECONCILIATIONS := 500
  const MAX_CORRECTIONS := 100

  predicate WithinBounds(h: Handoff) {
    |h.contracts| <= MAX_CONTRACTS && |h.reconciliations| <= MAX_RECONCILIATIONS && |h.corrections| <= MAX_CORRECTIONS
  }

  predicate ValidHistory(h: Handoff) {
    && WithinBounds(h)
    && ChainValid(h.contracts, h.active)
    && ReconciliationsValid(h.contracts, h.reconciliations)
    && CorrectionsValid(h.contracts, h.corrections)
  }

  /** `index` is exactly the dictionary of these contracts by id. */
  ghost predicate Indexes(index: map<Id, Contract>, contracts: seq<Contract>) {
    && (forall c :: c in contracts ==> c.id in index && index[c.id] == c)
    && (forall id :: id in index ==> index[id] in contracts && index[id].id == id)
  }

  /**
   The validator as the source runs it: the lengths, then three passes over dictionaries, sets and previous
   values.
   */
  method ValidateHistory(h: Handoff) returns (ok: bool)
    ensures ok <==> ValidHistory(h)
  {
    if |h.contracts| > MAX_CONTRACTS || |h.reconciliations| > MAX_RECONCILIATIONS || |h.corrections| > MAX_CORRECTIONS {
      return false;
    }
    var index, chained := IndexContracts(h.contracts, h.active);
    if !chained { return false; }
    var assessed := ValidateReconciliations(h.contracts, h.reconciliations, index);
    if !assessed { return false; }
    ok := ValidateCorrections(h.contracts, h.corrections, index);
  }

  /** First pass: index the contracts by id, checking the chain and the active reference. */
  method IndexContracts(contracts: seq<Contract>, active: Option<Id>) returns (index: map<Id, Contract>, ok: bool)
    ensures ok <==> ChainValid(contracts, active)
    ensures ok ==> Indexes(index, contracts)
  {
    index := map[];
    var previous: Option<Id> := None;
    for i := 0 to |contracts|
      invariant previous == if i == 0 then None else Some(contracts[i - 1].id)
      invariant Indexes(index, contracts[..i])
      invariant ChainValid(contracts[..i], None)
    {
      var contract := contracts[i];
      assert contracts[..i + 1] == contracts[..i] + [contract];
      if contract.id in index {
        assert index[contract.id] in contracts[..i];
        return index, false;
      }
      if contract.supersedes != previous {
        assert !Linked(contracts, i);
        return index, false;
      }
      ExtendChain(contracts[..i], contract);
      index := index[contract.id := contract];
      previous := Some(contract.id);
    }
    assert contracts[..|contracts|] == contracts;
    ok := active.None? || active == previous;
  }

  lemma ExtendChain(contracts: seq<Contract>, c: Contract)
    requires ChainValid(contracts, None)
    requires forall k :: 0 <= k < |contracts| ==> contracts[k].id != c.id
    requires c.supersedes == Tip(Handoff(contracts, [], [], None))
    ensures ChainValid(contracts + [c], None)
  {
    var longer := contracts + [c];
    forall i | 0 <= i < |longer| ensures Linked(longer, i) {
      if i < |contracts| {
        assert Linked(contracts, i);
      }
    }
  }

  /** Second pass: unique ids, chronological order, known contracts, and the source behind readiness. */
  method ValidateReconciliations(contracts: seq<Contract>, records: seq<Reconciliation>, index: map<Id, Contract>)
    returns (ok: bool)
    requires ChainValid(contracts, None) && Indexes(index, contracts)
    ensures ok <==> ReconciliationsValid(contracts, records)
  {
    var ids: set<Id> := {};
    var previousTime: Option<nat> := None;
    for i := 0 to |records|
      invariant ids == set r | r in records[..i] :: r.id
      invariant previousTime == if i == 0 then None else Some(records[i - 1].at)
      invariant ReconciliationsValid(contracts, records[..i])
    {
      var r := records[i];
      assert records[..i + 1] == records[..i] + [r];
      if r.id in ids {
        var twin :| twin in records[..i] && twin.id == r.id;
        assert twin in records[..i];
        return false;
      }
      if previousTime.Some? && r.at < previousTime.value {
        assert records[i - 1].at > records[i].at;
        return false;
      }
      var known := ValidateRecord(contracts, r, index);
      if !known { return false; }
      ExtendReconciliations(contracts, records[..i], r);
      ids := ids + {r.id};
      previousTime := Some(r.at);
    }
    assert records[..|records|] == records;
    ok := true;
  }

  lemma ExtendReconciliations(contracts: seq<Contract>, records: seq<Reconciliation>, r: Reconciliation)
    requires ReconciliationsValid(contracts, records) && RecordKnown(contracts, r)
    requires r.id !in set x | x in records :: x.id
    requires records != [] ==> records[|records| - 1].at <= r.at
    ensures ReconciliationsValid(contracts, records + [r])
  {
    forall k | 0 <= k < |records| ensures records[k].id != r.id && records[k].at <= r.at {
      assert records[k] in records;
      assert k < |records| - 1 ==> records[k].at <= records[|records| - 1].at;
    }
  }

  /** The dictionary knows exactly the retained ids, and finds the contract at its only position. */
  lemma LookUp(contracts: seq<Contract>, index: map<Id, Contract>, id: Id)
    requires ChainValid(contracts, None) && Indexes(index, contracts)
    ensures id in index <==> HasContract(contracts, id)
    ensures id in index ==> forall k :: 0 <= k < |contracts| && contracts[k].id == id ==> contracts[k] == index[id]
  {
    if id in index {
      assert index[id] in contracts;
    }
    if HasContract(contracts, id) {
      var k :| 0 <= k < |contracts| && contracts[k].id == id;
      assert contracts[k] in contracts;
    }
  }

  method ValidateRecord(contracts: seq<Contract>, r: Reconciliation, index: map<Id, Contract>) returns (ok: bool)
    requires ChainValid(contracts, None) && Indexes(index, contracts)
    ensures ok <==> RecordKnown(contracts, r)
  {
    LookUp(contracts, index, r.contract);
    if r.contract !in index { return false; }
    ok := !r.Ready() || r.snapshot.sourceRevision == Some(index[r.contract].sourceRevision);
  }

  /** Third pass: the human corrections, with the sets of seen action ids and approved contracts. */
  method ValidateCorrections(contracts: seq<Contract>, corrections: seq<Correction>, index: map<Id, Contract>)
    returns (ok: bool)
    requires ChainValid(contracts, None) && Indexes(index, contracts)
    ensures ok <==> CorrectionsValid(contracts, corrections)
  {
    var actions: set<Id> := {};
    var approved: set<Id> := {};
    var previousTime: Option<nat> := None;
    for i := 0 to |corrections|
      invariant actions == set c | c in corrections[..i] :: c.action
      invariant approved == set c | c in corrections[..i] && c.corrected.Some? :: c.corrected.value
      invariant previousTime == if i == 0 then None else Some(corrections[i - 1].at)
      invariant CorrectionsValid(contracts, corrections[..i])
    {
      var c := corrections[i];
      assert corrections[..i + 1] == corrections[..i] + [c];
      if c.action in actions {
        RefusedBy(corrections, i);
        return false;
      }
      if previousTime.Some? && c.at < previousTime.value {
        assert !CorrectionFollows(corrections[i - 1], corrections[i]);
        return false;
      }
      var known := ValidateLinks(contracts, c, index);
      if !known { return false; }
      if c.corrected.Some? {
        if c.corrected.value in approved {
          RefusedBy(corrections, i);
          return false;
        }
        approved := approved + {c.corrected.value};
      }
      ExtendCorrections(contracts, corrections[..i], c);
      actions := actions + {c.action};
      previousTime := Some(c.at);
    }
    assert corrections[..|corrections|] == corrections;
    ok := true;
  }

  /** A repeated action id or a second approval is a pair that does not follow. */
  lemma RefusedBy(corrections: seq<Correction>, i: nat)
    requires i < |corrections|
    requires exists c :: c in corrections[..i] && !CorrectionFollows(c, corrections[i])
    ensures exists k :: 0 <= k < i && !CorrectionFollows(corrections[k], corrections[i])
  {
    var c :| c in corrections[..i] && !CorrectionFollows(c, corrections[i]);
    var k :| 0 <= k < i && corrections[..i][k] == c;
    assert !CorrectionFollows(corrections[k], corrections[i]);
  }

  lemma ExtendCorrections(contracts: seq<Contract>, corrections: seq<Correction>, c: Correction)
    requires CorrectionsValid(contracts, corrections) && CorrectionKnown(contracts, c)
    requires corrections != [] ==> corrections[|corrections| - 1].at <= c.at
    requires forall x :: x in corrections ==> x.action != c.action && (x.corrected.Some? ==> x.corrected != c.corrected)
    ensures CorrectionsValid(contracts, corrections + [c])
  {
    forall k | 0 <= k < |corrections| ensures CorrectionFollows(corrections[k], c) {
      assert corrections[k] in corrections;
      assert k < |corrections| - 1 ==> CorrectionFollows(corrections[k], corrections[|corrections| - 1]);
    }
  }

  method ValidateLinks(contracts: seq<Contract>, c: Correction, index: map<Id, Contract>) returns (ok: bool)
    requires ChainValid(contracts, None) && Indexes(index, contracts)
    ensures ok <==> CorrectionKnown(contracts, c)
  {
    if c.previous.Some? {
      LookUp(contracts, index, c.previous.value);
      if c.previous.value !in index { return false; }
    }
    if c.corrected.Some? {
      LookUp(contracts, index, c.corrected.value);
      if c.corrected.value !in index { return false; }
      if index[c.corrected.value].supersedes != c.previous { return false; }
    }
    ok := true;
  }

  // ----- observation and reconciliation of one run -----

  /**
   What one fresh look at the project supplies.  `policyReasons` are the failures
   `ReconciliationPolicy` derives from the evidence itself, before the comparison with
   the previous record; `candidate` is the contract that initial sealing would construct for the
   recipe and the latest Architect execution.
   */
  datatype Observation = Observation(
    projectMatches: bool,
    policyReasons: set<Reason>,
    snapshot: Snapshot,
    references: set<Id>,
    candidate: Option<Contract>,
    recipeHasArchitecture: bool)

  predicate AnyDriverAttempt(attempts: seq<Attempt>) {
    exists i :: 0 <= i < |attempts| && attempts[i].node.IsDriver()
  }

  predicate AnyUnfinished(attempts: seq<Attempt>) {
    exists i :: 0 <= i < |attempts| && attempts[i].outcome.Unfinished?
  }

  /** The last Architect attempt, finished or not. */
  function LatestArchitect(attempts: seq<Attempt>): Option<Attempt> {
    if attempts == [] then None
    else
      var last := attempts[|attempts| - 1];
      if last.node.Architect? then Some(last) else LatestArchitect(attempts[..|attempts| - 1])
  }

  /** An attempt that handed off: it succeeded, or paused after its writes. */
  predicate HandedOff(a: Attempt) { a.outcome.Succeeded? || a.outcome.Interrupted? }

  /** With an Architecture stage the contract is sealed for the latest Architect execution, else for none. */
  predicate SealedFor(s: RunState, obs: Observation, c: Contract) {
    var latest := LatestArchitect(s.attempts);
    if obs.recipeHasArchitecture
    then latest.Some? && HandedOff(latest.value) && c.architectExecution == Some(latest.value.id)
    else c.architectExecution.None?
  }

  /** Initial sealing may only construct the first contract, or reconstruct it unchanged. */
  function ConstructInitial(s: RunState, obs: Observation, architectOnly: bool): Result<Contract> {
    var h := s.History();
    if s.admission.None? || s.Terminal() || AnyDriverAttempt(s.attempts) || obs.candidate.None?
       || (architectOnly && !obs.recipeHasArchitecture) then Refused
    else
      var c := obs.candidate.value;
      if h.corrections != [] || !SealedFor(s, obs, c) then Refused
      else if h.contracts != [] && (h.active != Some(c.id) || h.contracts[|h.contracts| - 1] != c) then Refused
      else Ok(c)
  }

  /** The retained contract that `active` names. */
  function ActiveContract(h: Handoff): Option<Contract> {
    if h.contracts != [] && h.active == Some(h.contracts[|h.contracts| - 1].id)
    then Some(h.contracts[|h.contracts| - 1]) else None
  }

  datatype Selection = Selection(contract: Contract, staleArchitect: bool)

  function SelectContract(
    s: RunState, obs: Observation, initialOnly: bool, replacement: Option<(Contract, Correction)>): Result<Selection>
  {
    var h := s.History();
    if replacement.Some? then
      if replacement.value.1.corrected != Some(replacement.value.0.id) then Refused
      else Ok(Selection(replacement.value.0, false))
    else if initialOnly || h.contracts == [] then
      match ConstructInitial(s, obs, initialOnly)
      case Ok(c) => Ok(Selection(c, false))
      case Refused => Refused
    else
      match ActiveContract(h)
      case None => Refused
      case Some(c) =>
        var latest := LatestArchitect(s.attempts);
        Ok(Selection(c, c.architectExecution.Some? &&
                        (latest.None? || latest.value.id != c.architectExecution.value)))
  }

  /** One assessment of `contract`: any reason at all means clarification is required. */
  function Assess(
    sel: Selection, obs: Observation, previous: Option<Reconciliation>, id: Id, now: nat): Reconciliation
  {
    var c := sel.contract;
    var reasons := obs.policyReasons
      + (if sel.staleArchitect then {StaleEvidence} else {})
      + (if obs.snapshot.sourceRevision.None? then {MissingEvidence}
         else if obs.snapshot.sourceRevision.value != c.sourceRevision then {StaleEvidence} else {})
      + (if previous.Some? && (previous.value.contract != c.id || previous.value.snapshot != obs.snapshot)
         then {StaleEvidence} else {});
    Reconciliation(id, c.id, now, reasons, obs.snapshot, obs.references)
  }

  /**
   Observe and append at most one reconciliation.  An identical observation changes
   nothing; a recorded clarification can only be left through a human replacement.
   */
  function ReconcileRun(
    s: RunState, obs: Observation, initialOnly: bool,
    replacement: Option<(Contract, Correction)>, id: Id, now: nat): Result<RunState>
  {
    var h := s.History();
    match SelectContract(s, obs, initialOnly, replacement)
    case Refused => Refused
    case Ok(sel) =>
      var previous := if h.reconciliations != [] && replacement.None?
                      then Some(h.reconciliations[|h.reconciliations| - 1]) else None;
      var result := Assess(sel, obs, previous, id, now);
      if previous.Some? && previous.value.SameEvidence(result) then Ok(s)
      else if previous.Some? && !previous.value.Ready() then Refused
      else
        var grown := Handoff(
          if replacement.Some? then h.contracts + [sel.contract]
          else if h.contracts != [] then h.contracts else [sel.contract],
          h.reconciliations + [result],
          if replacement.Some? then h.corrections + [replacement.value.1] else h.corrections,
          Some(sel.contract.id));
        if ValidHistory(grown) then Ok(s.(handoff := Some(grown))) else Refused
  }

  // ----- the gate before every Driver attempt -----

  datatype GateResult = Admitted(state: RunState) | GateRefused(state: RunState)

  /** The index of the last manual checkpoint that hands off to a Driver node. */
  function LastDriverCheckpoint(interrupts: seq<Interrupt>): (r: Option<nat>)
    ensures r.Some? ==> r.value < |interrupts| && interrupts[r.value].DriverCheckpoint()
    ensures forall i :: 0 <= i < |interrupts| && interrupts[i].DriverCheckpoint() ==> r.Some? && i <= r.value
  {
    if interrupts == [] then None
    else if interrupts[|interrupts| - 1].DriverCheckpoint() then Some(|interrupts| - 1)
    else LastDriverCheckpoint(interrupts[..|interrupts| - 1])
  }

  /** The interrupt resolutions recorded for one interrupt. */
  function ResolutionsOf(actions: seq<Action>, index: nat): (r: seq<Action>)
    ensures forall a :: a in r <==> a in actions && a.target == InterruptAt(index) && a.kind.InterruptResolution?
  {
    if actions == [] then []
    else
      (if actions[0].target == InterruptAt(index) && actions[0].kind.InterruptResolution? then [actions[0]] else [])
      + ResolutionsOf(actions[1..], index)
  }

  /** The latest Driver checkpoint, if any, was resolved once, and for exactly `active`. */
  predicate CheckpointAuthorized(s: RunState, active: Option<Id>) {
    var last := LastDriverCheckpoint(s.interrupts);
    last.Some? ==>
      var checkpoint := s.interrupts[last.value];
      var resolutions := ResolutionsOf(s.actions, last.value);
      && checkpoint.resolution.Some?
      && |resolutions| == 1
      && resolutions[0].contract == active
      && resolutions[0].disposition.Applied?
      && resolutions[0].detail == checkpoint.resolution.value
  }

  /** An attempt that was created but never started must keep its contract. */
  predicate CreatedAttemptStillFits(s: RunState, node: Node) {
    s.progress.Some? && s.progress.value.stage.AttemptCreated? ==>
      s.handoff.Some? &&
      exists i :: 0 <= i < |s.attempts| && s.progress.value.execution == Some(s.attempts[i].id)
                  && s.attempts[i].node == node && s.attempts[i].contract == s.handoff.value.active
  }

  function AdmitDriver(s: RunState, node: Node, current: Option<Observation>, id: Id, now: nat): GateResult {
    if s.HandoffCancelled() || s.Terminal() || current.None? || !current.value.projectMatches
       || !CreatedAttemptStillFits(s, node) then GateRefused(s)
    else
      match ReconcileRun(s, current.value, false, None, id, now)
      case Refused => GateRefused(s)
      case Ok(updated) =>
        var h := updated.History();
        if h.reconciliations == [] || !h.reconciliations[|h.reconciliations| - 1].Ready() then GateRefused(updated)
        else if !CheckpointAuthorized(updated, h.active) then GateRefused(updated)
        else if ActiveContract(h).None? || node !in ActiveContract(h).value.driverPhases then GateRefused(s)
        else Admitted(updated)
  }

  // ----- sealing and human changes -----

  function SealArchitect(s: RunState, obs: Observation, id: Id, now: nat): Result<RunState> {
    if !obs.projectMatches then Refused else ReconcileRun(s, obs, true, None, id, now)
  }

  function SealCompact(s: RunState, obs: Observation, id: Id, now: nat): Result<RunState> {
    if !obs.projectMatches || obs.recipeHasArchitecture || s.History().corrections != []
       || s.Terminal() || AnyDriverAttempt(s.attempts) then Refused
    else ReconcileRun(s, obs, false, None, id, now)
  }

  datatype ChangeCommand = ChangeCommand(
    action: Id,
    actor: Id,
    kind: CorrectionKind,
    expected: Option<Id>,
    corrected: Option<Contract>,
    current: Option<Observation>,
    reason: Text,
    reconciliation: Id)

  function CorrectionOf(cmd: ChangeCommand, now: nat): Correction {
    Correction(cmd.action, cmd.actor, now, cmd.kind, cmd.expected,
               if cmd.corrected.Some? then Some(cmd.corrected.value.id) else None, cmd.reason)
  }

  predicate SameRequest(a: Correction, b: Correction) { a == b.(at := a.at) }

  function FindCorrection(corrections: seq<Correction>, action: Id): (r: Option<Correction>)
    ensures r.Some? ==> r.value in corrections && r.value.action == action
    ensures r.None? ==> forall c :: c in corrections ==> c.action != action
  {
    if corrections == [] then None
    else if corrections[0].action == action then Some(corrections[0])
    else FindCorrection(corrections[1..], action)
  }

  predicate HasAction(actions: seq<Action>, id: Id) {
    exists i :: 0 <= i < |actions| && actions[i].id == id
  }

  function Tip(h: Handoff): Option<Id> {
    if h.contracts == [] then None else Some(h.contracts[|h.contracts| - 1].id)
  }

  /** Where an approved correction must be authorized again before a Driver may continue. */
  function ApprovalTarget(s: RunState): (r: Option<Node>) {
    var last := LastDriverCheckpoint(s.interrupts);
    if last.None? || s.interrupts[last.value].resolution.None? then None
    else if s.progress.Some? then Some(s.progress.value.nextNode)
    else if s.resumeTarget.Some? then s.resumeTarget
    else s.interrupts[last.value].next
  }

  function LogInterrupt(s: RunState, trigger: Trigger, next: Node): RunState {
    s.(status := AwaitingHuman, interrupts := s.interrupts + [Interrupt(trigger, None, Some(next))])
  }

  function ApproveChange(s: RunState, cmd: ChangeCommand, now: nat): Result<RunState> {
    var h := s.History();
    if cmd.corrected.None? || cmd.current.None? then Refused
    else
      var contract := cmd.corrected.value;
      var latest := LatestArchitect(s.attempts);
      if contract.supersedes != Tip(h) then Refused
      else if h.corrections != [] && h.corrections[|h.corrections| - 1].kind.ReturnToArchitect?
              && (latest.None? || latest.value.startedAt <= h.corrections[|h.corrections| - 1].at) then Refused
      else if contract.architectExecution.Some?
              && (latest.None? || contract.architectExecution.value != latest.value.id) then Refused
      else
        match ReconcileRun(s, cmd.current.value, false, Some((contract, CorrectionOf(cmd, now))), cmd.reconciliation,
          now)
        case Refused => Refused
        case Ok(updated) =>
          var records := updated.History().reconciliations;
          if records == [] || !records[|records| - 1].Ready() then Refused
          else
            match ApprovalTarget(s)
            case None => Ok(updated)
            case Some(target) =>
              if !target.IsDriver() then Refused
              else Ok(LogInterrupt(updated, ManualCheckpoint, target).(phase := At(PauseNode), intent := None))
  }

  function ReturnOrCancel(s: RunState, cmd: ChangeCommand, now: nat): Result<RunState> {
    var h := s.History();
    if cmd.current.Some? || s.admission.None? then Refused
    else if cmd.kind.ReturnToArchitect? && !s.admission.value.hasArchitecture then Refused
    else
      var grown := Handoff(h.contracts, h.reconciliations, h.corrections + [CorrectionOf(cmd, now)], None);
      if !ValidHistory(grown) then Refused
      else
        var moved := if cmd.kind.ReturnToArchitect?
          then s.(status := NotStarted, phase := At(Architect), resumeTarget := Some(Architect),
                  progress := Some(Progress(BeforeAttempt, Architect, None, None, 0)))
          else s.(status := BlockedStatus, phase := TargetsCancelled, resumeTarget := Some(BlockedNode),
                  progress := None);
        Ok(moved.(intent := None, handoff := Some(grown)))
  }

  /** Compare the expected tip and append exactly one human action; an exact replay changes nothing. */
  function ChangeHandoff(s: RunState, cmd: ChangeCommand, now: nat): Result<RunState> {
    var h := s.History();
    var action := CorrectionOf(cmd, now);
    var previous := FindCorrection(h.corrections, cmd.action);
    if !CorrectionWellFormed(action) then Refused
    else if previous.Some? then (if SameRequest(previous.value, action) then Ok(s) else Refused)
    else if HasAction(s.actions, cmd.action) || s.admission.None? || s.Terminal() || s.HandoffCancelled()
            || AnyUnfinished(s.attempts) || cmd.expected != Tip(h) then Refused
    else if cmd.kind.ApproveCorrection? then ApproveChange(s, cmd, now)
    else ReturnOrCancel(s, cmd, now)
  }
}

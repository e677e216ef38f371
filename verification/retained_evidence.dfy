/**
 The retained evidence of every saved document: each authorization bound to a contract matches the
 Driver checkpoint it resolved, each Driver attempt carries a contract that admits its phase, and
 both rest on ready evidence that was recorded before.
 */
module RetainedEvidence {
  import opened Options
  import opened RunModel
  import opened Handoffs
  import opened Engine
  import opened RunRecords
  import opened Decisions
  import opened HandoffRuns
  import opened DriverGate

  ghost predicate ReadyBy(h: Handoff, contract: Id, time: nat) {
    exists i :: 0 <= i < |h.reconciliations| && h.reconciliations[i].contract == contract
                && h.reconciliations[i].Ready() && h.reconciliations[i].at <= time
  }

  ghost predicate Admits(h: Handoff, contract: Id, node: Node) {
    exists k :: 0 <= k < |h.contracts| && h.contracts[k].id == contract && node in h.contracts[k].driverPhases
  }

  /** A Driver attempt's contract is retained, admits its phase, and had ready evidence before it started. */
  ghost predicate AttemptBacked(h: Handoff, a: Attempt) {
    a.contract.Some? ==> Admits(h, a.contract.value, a.node) && ReadyBy(h, a.contract.value, a.startedAt)
  }

  /**
   A contract-bound decision is the resolution of its Driver checkpoint, with ready evidence of a retained
   contract.
   */
  ghost predicate ActionBacked(s: RunState, a: Action, now: nat) {
    a.contract.Some? ==>
      && HasContract(s.History().contracts, a.contract.value) && ReadyBy(s.History(), a.contract.value, now)
      && a.target.InterruptAt? && a.target.index < |s.interrupts|
      && s.interrupts[a.target.index].DriverCheckpoint()
      && s.interrupts[a.target.index].resolution == Some(a.detail)
  }

  ghost predicate TimesOk(h: Handoff, now: nat) {
    forall i :: 0 <= i < |h.reconciliations| ==> h.reconciliations[i].at <= now
  }

  ghost predicate EvidenceRetained(s: RunState, now: nat) {
    && TimesOk(s.History(), now)
    && (forall k :: 0 <= k < |s.attempts| ==> AttemptBacked(s.History(), s.attempts[k]))
    && (forall k :: 0 <= k < |s.actions| ==> ActionBacked(s, s.actions[k], now))
  }

  // ----- what a step may do to it -----

  /** The lists of the handoff only grow, by records of this moment. */
  ghost predicate Grows(h: Handoff, g: Handoff, now: nat) {
    && h.contracts <= g.contracts && h.reconciliations <= g.reconciliations
    && forall i :: |h.reconciliations| <= i < |g.reconciliations| ==> g.reconciliations[i].at <= now
  }

  /** A resolved interrupt stays as it is. */
  ghost predicate InterruptsKept(before: seq<Interrupt>, after: seq<Interrupt>) {
    && |before| <= |after|
    && forall i :: 0 <= i < |before| && before[i].resolution.Some? ==> after[i] == before[i]
  }

  ghost predicate AttemptsContinue(before: seq<Attempt>, r: RunState) {
    forall k :: 0 <= k < |r.attempts| ==>
      || AttemptBacked(r.History(), r.attempts[k])
      || (k < |before| && SameBinding(before[k], r.attempts[k]))
  }

  predicate SameBinding(a: Attempt, b: Attempt) {
    a.node == b.node && a.contract == b.contract && a.startedAt == b.startedAt
  }

  ghost predicate ActionsContinue(before: seq<Action>, r: RunState, now: nat) {
    forall k :: 0 <= k < |r.actions| ==>
      || ActionBacked(r, r.actions[k], now)
      || (k < |before| && r.actions[k] == before[k].(disposition := r.actions[k].disposition))
  }

  ghost predicate Continues(s: RunState, r: RunState, now: nat) {
    && Grows(s.History(), r.History(), now)
    && InterruptsKept(s.interrupts, r.interrupts)
    && AttemptsContinue(s.attempts, r)
    && ActionsContinue(s.actions, r, now)
  }

  lemma GrowsKeeps(h: Handoff, g: Handoff, contract: Id, node: Node, time: nat, now: nat)
    requires Grows(h, g, now)
    ensures ReadyBy(h, contract, time) ==> ReadyBy(g, contract, time)
    ensures Admits(h, contract, node) ==> Admits(g, contract, node)
    ensures HasContract(h.contracts, contract) ==> HasContract(g.contracts, contract)
  {
    if ReadyBy(h, contract, time) {
      var i :| 0 <= i < |h.reconciliations| && h.reconciliations[i].contract == contract
        && h.reconciliations[i].Ready() && h.reconciliations[i].at <= time;
      assert g.reconciliations[i] == h.reconciliations[i];
    }
    if Admits(h, contract, node) {
      var k :| 0 <= k < |h.contracts| && h.contracts[k].id == contract && node in h.contracts[k].driverPhases;
      assert g.contracts[k] == h.contracts[k];
    }
    if HasContract(h.contracts, contract) {
      var k :| 0 <= k < |h.contracts| && h.contracts[k].id == contract;
      assert g.contracts[k].id == contract;
    }
  }

  lemma ContinuesKeeps(s: RunState, r: RunState, now: nat)
    requires EvidenceRetained(s, now) && Continues(s, r, now)
    ensures EvidenceRetained(r, now)
  {
    var h, g := s.History(), r.History();
    forall i | 0 <= i < |g.reconciliations| ensures g.reconciliations[i].at <= now {
      assert i < |h.reconciliations| ==> g.reconciliations[i] == h.reconciliations[i];
    }
    forall k | 0 <= k < |r.attempts| ensures AttemptBacked(g, r.attempts[k]) {
      AttemptContinues(s, r, k, now);
    }
    forall k | 0 <= k < |r.actions| ensures ActionBacked(r, r.actions[k], now) {
      ActionContinues(s, r, k, now);
    }
  }

  lemma AttemptContinues(s: RunState, r: RunState, k: nat, now: nat)
    requires EvidenceRetained(s, now) && Continues(s, r, now) && k < |r.attempts|
    ensures AttemptBacked(r.History(), r.attempts[k])
  {
    var a := r.attempts[k];
    if a.contract.Some? && !AttemptBacked(r.History(), a) {
      assert AttemptBacked(s.History(), s.attempts[k]);
      GrowsKeeps(s.History(), r.History(), a.contract.value, a.node, a.startedAt, now);
    }
  }

  lemma ActionContinues(s: RunState, r: RunState, k: nat, now: nat)
    requires EvidenceRetained(s, now) && Continues(s, r, now) && k < |r.actions|
    ensures ActionBacked(r, r.actions[k], now)
  {
    var a := r.actions[k];
    if a.contract.Some? && !ActionBacked(r, a, now) {
      assert ActionBacked(s, s.actions[k], now);
      GrowsKeeps(s.History(), r.History(), a.contract.value, DriverRed, now, now);
    }
  }

  // ----- the handoff -----

  lemma ReconcileGrows(
    s: RunState, obs: Observation, initialOnly: bool, replacement: Option<(Contract, Correction)>, id: Id, now: nat)
    ensures match ReconcileRun(s, obs, initialOnly, replacement, id, now)
      case Refused => true
      case Ok(r) => Grows(s.History(), r.History(), now)
  {
  }

  lemma AdmitGrows(s: RunState, node: Node, current: Option<Observation>, id: Id, now: nat)
    ensures match AdmitDriver(s, node, current, id, now)
      case GateRefused(r) => Grows(s.History(), r.History(), now)
      case Admitted(r) => Grows(s.History(), r.History(), now)
  {
    if current.Some? { ReconcileGrows(s, current.value, false, None, id, now); }
  }

  lemma HandoffContinues(s: RunState, r: RunState, now: nat)
    requires Grows(s.History(), r.History(), now)
    requires r.attempts == s.attempts && r.actions == s.actions && InterruptsKept(s.interrupts, r.interrupts)
    ensures Continues(s, r, now)
  {
  }

  lemma GateContinues(w: World, p: Process, current: Option<Observation>, id: Id, start: int)
    requires WorldOk(w, start) && w.process == Some(p) && p.Looping?
    ensures Continues(w.disk, PassGate(w, p, current, id).disk, w.clock)
  {
    ProcessHandoff(w);
    AdmitGrows(p.s, p.node, current, id, w.clock);
    AdmitFrame(p.s, p.node, current, id, w.clock);
    HandoffContinues(w.disk, PassGate(w, p, current, id).disk, w.clock);
  }

  lemma SealContinues(w: World, obs: Observation, id: Id)
    ensures Continues(w.disk, SaveIfOk(w, SealArchitect(w.disk, obs, id, w.clock)).disk, w.clock)
    ensures Continues(w.disk, SaveIfOk(w, SealCompact(w.disk, obs, id, w.clock)).disk, w.clock)
  {
    ReconcileGrows(w.disk, obs, true, None, id, w.clock);
    ReconcileGrows(w.disk, obs, false, None, id, w.clock);
    ReconcileFrame(w.disk, obs, true, None, id, w.clock);
    ReconcileFrame(w.disk, obs, false, None, id, w.clock);
    HandoffContinues(w.disk, SaveIfOk(w, SealArchitect(w.disk, obs, id, w.clock)).disk, w.clock);
    HandoffContinues(w.disk, SaveIfOk(w, SealCompact(w.disk, obs, id, w.clock)).disk, w.clock);
  }

  lemma ChangeGrows(s: RunState, cmd: ChangeCommand, now: nat)
    ensures match ChangeHandoff(s, cmd, now)
      case Refused => true
      case Ok(r) => Grows(s.History(), r.History(), now) && InterruptsKept(s.interrupts, r.interrupts)
  {
    if cmd.corrected.Some? && cmd.current.Some? {
      var replacement := Some((cmd.corrected.value, CorrectionOf(cmd, now)));
      ReconcileGrows(s, cmd.current.value, false, replacement, cmd.reconciliation, now);
      ReconcileFrame(s, cmd.current.value, false, replacement, cmd.reconciliation, now);
    }
  }

  lemma ChangeContinues(w: World, cmd: ChangeCommand)
    ensures Continues(w.disk, ApplyChange(w, cmd).disk, w.clock)
  {
    ChangeGrows(w.disk, cmd, w.clock);
    ChangeShape(w.disk, cmd, w.clock);
    HandoffContinues(w.disk, ApplyChange(w, cmd).disk, w.clock);
  }

  // ----- attempts -----

  /** The contract of a new Driver attempt is the active one, which the gate has just found ready. */
  lemma NewAttemptBacked(s: RunState, node: Node, id: Id, now: nat)
    requires TimesOk(s.History(), now) && (node.IsDriver() ==> GateOpen(s, node))
    ensures AttemptBacked(s.History(), NewAttempt(s, node, id, now))
  {
    if node.IsDriver() {
      var h := s.handoff.value;
      var last := h.reconciliations[|h.reconciliations| - 1];
      assert last.contract == h.active.value && last.Ready() && last.at <= now;
      assert h.contracts[|h.contracts| - 1].id == h.active.value;
    }
  }

  lemma DeliveryContinues(s: RunState, r: RunState, node: Node, id: Id, now: nat)
    requires AttemptsContinue(s.attempts, r) && Grows(s.History(), r.History(), now)
    requires r.interrupts == s.interrupts && r.actions == s.actions
    ensures Continues(s, DeliverInterventions(r, node, id), now)
  {
  }

  lemma CreateContinues(w: World, p: Process, newId: Id, start: int)
    requires Base(w, start) && GateOk(w) && EvidenceRetained(w.disk, w.clock)
    requires w.process == Some(p) && p.Looping? && p.admitted
    ensures Continues(w.disk, CreateAttempt(w, p, newId).disk, w.clock)
  {
    ProcessHandoff(w);
    var s, s' := p.s, CreateAttempt(w, p, newId).disk;
    if s.progress.Some? && s.progress.value.stage.AttemptCreated? {
      var previous := FindAttempt(s.attempts, s.progress.value.execution.value);
      if previous.Some? { SaveContinues(w, p, s, previous.value.id); }
    } else {
      NewAttemptBacked(s, p.node, newId, w.clock);
      SaveContinues(w, p, s.(attempts := s.attempts + [NewAttempt(s, p.node, newId, w.clock)]), newId);
    }
  }

  lemma SaveContinues(w: World, p: Process, s: RunState, id: Id)
    requires ProcessOk(w) && w.process == Some(p) && p.Looping? && s == p.s.(attempts := s.attempts)
    requires AttemptsContinue(w.disk.attempts, s)
    ensures Continues(w.disk, SaveCreated(w, p, s, id).disk, w.clock)
  {
    var stamped := s.(progress := Some(Progress(AttemptCreated, p.node, Some(id), p.correction, p.correctionAttempt)));
    DeliveryContinues(w.disk, stamped, p.node, id, w.clock);
  }

  lemma AfterRoleAppends(s: RunState, node: Node, o: RoleOutcome, correcting: bool)
    requires node.RunsRole()
    ensures s.interrupts <= AfterRole(s, node, o, correcting).interrupts
  {
  }

  lemma FinishContinues(w: World, p: Process, o: RoleOutcome, start: int)
    requires WorldOk(w, start) && w.process == Some(p) && p.Running? && OutcomeFits(p.node, o)
    ensures Continues(w.disk, FinishRole(w, p, o).disk, w.clock)
  {
    AfterRoleFrame(p.s, p.node, o, p.correctionAttempt != 0);
    AfterRoleAppends(p.s, p.node, o, p.correctionAttempt != 0);
    FinishedDisk(w, p, o, start);
    var last := w.disk.attempts[|w.disk.attempts| - 1];
    assert last in w.disk.attempts;
    FindUnique(w.disk.attempts, last);
    FinishedContinues(w.disk, FinishRole(w, p, o).disk, FinishedAttempt(p.s, p, o), w.clock);
  }

  lemma FinishedContinues(s: RunState, r: RunState, f: Attempt, now: nat)
    requires s.attempts != [] && SameBinding(s.attempts[|s.attempts| - 1], f)
    requires r.attempts == s.attempts[|s.attempts| - 1 := f]
    requires r.handoff == s.handoff && r.actions == s.actions && s.interrupts <= r.interrupts
    ensures Continues(s, r, now)
  {
  }

  lemma ProcessContinues(w: World, e: Event, start: int)
    requires Base(w, start) && GateOk(w) && EvidenceRetained(w.disk, w.clock) && Enabled(w, e) && w.process.Some?
    ensures Continues(w.disk, Perform(w, e).disk, w.clock)
  {
    match e
    case Gate(current, id) => GateContinues(w, w.process.value, current, id, start);
    case Create(newId) => CreateContinues(w, w.process.value, newId, start);
    case Finish(o) => FinishContinues(w, w.process.value, o, start);
    case _ => QuietContinues(w, e, start);
  }

  lemma QuietContinues(w: World, e: Event, start: int)
    requires WorldOk(w, start) && Enabled(w, e) && w.process.Some? && !e.Gate? && !e.Create? && !e.Finish?
    ensures Continues(w.disk, Perform(w, e).disk, w.clock)
  {
    QuietFrame(w, e);
    HandoffContinues(w.disk, Perform(w, e).disk, w.clock);
  }

  // ----- decisions -----

  /** At most one decision more, bound to a contract only if that is ready and its checkpoint is resolved. */
  ghost predicate DecidesOnEvidence(s: RunState, r: RunState) {
    && InterruptsKept(s.interrupts, r.interrupts) && r.attempts == s.attempts && r.handoff == s.handoff
    && (r.actions == s.actions
        || (&& |r.actions| == |s.actions| + 1 && s.actions <= r.actions
            && RestsOnEvidence(s, r, r.actions[|s.actions|])))
  }

  ghost predicate RestsOnEvidence(s: RunState, r: RunState, a: Action) {
    a.contract.Some? ==>
      && ReadyFor(s, a.contract)
      && a.target.InterruptAt? && a.target.index < |r.interrupts|
      && r.interrupts[a.target.index].DriverCheckpoint()
      && r.interrupts[a.target.index].resolution == Some(a.detail)
  }

  lemma ResolutionRestsOnEvidence(s: RunState, cmd: ResumeCommand)
    ensures match ResolveLatestInterrupt(s, cmd)
      case Refused => true
      case Ok(r) => DecidesOnEvidence(s, r)
  {
  }

  lemma BlockRestsOnEvidence(s: RunState, cmd: ResumeCommand)
    ensures match ResolveBlockedResult(s, cmd)
      case Refused => true
      case Ok(r) => DecidesOnEvidence(s, r)
  {
  }

  /** From any document, an authorization for a contract is appended only when its ready evidence is already saved. */
  lemma EvidenceComesFirst(s: RunState, cmd: ResumeCommand)
    ensures match PrepareResume(s, cmd)
      case Prepared(r) => DecidesOnEvidence(s, r)
      case _ => true
  {
    var answer := Answered(s, Asked(s, cmd));
    AnswerRestsOnEvidence(s, Asked(s, cmd));
    if answer.Ok? && answer.value.actions != [] {
      PendingRestsOnEvidence(s, answer.value, KeptProgress(answer.value));
      PendingRestsOnEvidence(s, answer.value, None);
    }
    PreparedIsAnswered(s, cmd);
  }

  lemma AnswerRestsOnEvidence(s: RunState, asked: ResumeCommand)
    ensures match Answered(s, asked)
      case Refused => true
      case Ok(r) => DecidesOnEvidence(s, r)
  {
    ResolutionRestsOnEvidence(s, asked);
    BlockRestsOnEvidence(s, asked);
  }

  lemma PendingRestsOnEvidence(s: RunState, resolved: RunState, progress: Option<Progress>)
    requires DecidesOnEvidence(s, resolved) && resolved.actions != []
    ensures DecidesOnEvidence(s, Decided(resolved, progress))
  {
  }

  lemma EvidenceBacks(s: RunState, r: RunState, a: Action, now: nat)
    requires HistoryOk(s.History()) && TimesOk(s.History(), now) && r.handoff == s.handoff && RestsOnEvidence(s, r, a)
    ensures ActionBacked(r, a, now)
  {
    ReadyIsBacked(s.History(), now);
  }

  lemma ReadyIsBacked(h: Handoff, now: nat)
    requires HistoryOk(h) && TimesOk(h, now)
    ensures h.active.Some? ==> HasContract(h.contracts, h.active.value)
    ensures h.reconciliations != [] && h.reconciliations[|h.reconciliations| - 1].Ready() ==>
      ReadyBy(h, h.reconciliations[|h.reconciliations| - 1].contract, now)
  {
    if h.active.Some? { assert h.contracts[|h.contracts| - 1].id == h.active.value; }
  }

  lemma AuthorizationGrows(s: RunState, cmd: ResumeCommand, now: nat)
    ensures match AdmitAuthorization(s, cmd, now)
      case Refused => true
      case Ok(r) => Grows(s.History(), r.History(), now)
  {
    var node := AuthorizedCheckpoint(s, cmd.contract);
    if node.Some? { AdmitGrows(s, node.value, cmd.current, cmd.reconciliation, now); }
  }

  lemma ResumeContinues(w: World, cmd: ResumeCommand, start: int)
    requires Base(w, start) && EvidenceRetained(w.disk, w.clock) && w.process.None?
    ensures Continues(w.disk, ResumeRun(w, cmd).disk, w.clock)
  {
    EvidenceComesFirst(w.disk, cmd);
    match PrepareResume(w.disk, cmd)
    case ResumeRefused =>
    case ReplayCompleted =>
    case Prepared(prepared) =>
      AuthorizationShape(prepared, cmd, w.clock);
      AuthorizationGrows(prepared, cmd, w.clock);
      var r := ResumeRun(w, cmd).disk;
      if r != w.disk { DecidedContinues(w.disk, prepared, r, w.clock); }
  }

  lemma DecidedContinues(s: RunState, prepared: RunState, r: RunState, now: nat)
    requires HistoryOk(s.History()) && TimesOk(s.History(), now) && DecidesOnEvidence(s, prepared)
    requires r == prepared.(handoff := r.handoff) && Grows(prepared.History(), r.History(), now)
    ensures Continues(s, r, now)
  {
    if |prepared.actions| == |s.actions| + 1 {
      var a := prepared.actions[|s.actions|];
      EvidenceBacks(s, prepared, a, now);
      if a.contract.Some? { GrowsKeeps(prepared.History(), r.History(), a.contract.value, DriverRed, now, now); }
    }
  }

  lemma QueueContinues(w: World, cmd: QueueCommand)
    ensures Continues(w.disk, SaveIfOk(w, PersistIntervention(w.disk, cmd)).disk, w.clock)
  {
  }

  // ----- whole runs -----

  lemma PerformContinues(w: World, e: Event, start: int)
    requires Base(w, start) && GateOk(w) && EvidenceRetained(w.disk, w.clock) && Enabled(w, e)
    ensures Continues(w.disk, Perform(w, e).disk, w.clock)
  {
    if w.process.Some? {
      ProcessContinues(w, e, start);
    } else {
      match e
      case Resume(cmd) => ResumeContinues(w, cmd, start);
      case Queue(cmd) => QueueContinues(w, cmd);
      case SealFull(obs, id) => SealContinues(w, obs, id);
      case SealDirect(obs, id) => SealContinues(w, obs, id);
      case Change(cmd) => ChangeContinues(w, cmd);
    }
  }

  lemma LaterRetains(s: RunState, now: nat)
    requires EvidenceRetained(s, now)
    ensures EvidenceRetained(s, now + 1)
  {
    forall k | 0 <= k < |s.actions| ensures ActionBacked(s, s.actions[k], now + 1) {
      assert ActionBacked(s, s.actions[k], now);
    }
  }

  lemma PerformRetains(w: World, e: Event, start: int)
    requires Base(w, start) && GateOk(w) && EvidenceRetained(w.disk, w.clock) && Enabled(w, e)
    ensures EvidenceRetained(Perform(w, e).disk, w.clock + 1)
  {
    PerformContinues(w, e, start);
    ContinuesKeeps(w.disk, Perform(w, e).disk, w.clock);
    LaterRetains(Perform(w, e).disk, w.clock);
  }

  lemma StepKeepsGate(w: World, e: Event, start: int)
    requires Base(w, start) && GateOk(w) && Enabled(w, e)
    ensures Base(Step(w, e), start) && GateOk(Step(w, e))
  {
    PerformKeepsGate(w, e, start);
    ClockKeepsOk(Perform(w, e), w.clock + 1, start);
  }

  lemma PerformKeepsGate(w: World, e: Event, start: int)
    requires Base(w, start) && GateOk(w) && Enabled(w, e)
    ensures Base(Perform(w, e), start) && GateOk(Perform(w, e))
  {
    PerformKeepsOk(w, e, start);
    PerformKeepsBase(w, e, start);
  }

  lemma {:induction false} ExecRetains(w: World, events: seq<Event>, start: int)
    requires Base(w, start) && GateOk(w) && EvidenceRetained(w.disk, w.clock)
    ensures EvidenceRetained(Exec(w, events).disk, Exec(w, events).clock)
    decreases |events|
  {
    if events != [] {
      var e := events[0];
      if Enabled(w, e) {
        PerformRetains(w, e, start);
        StepKeepsGate(w, e, start);
      }
      ExecRetains(Step(w, e), events[1..], start);
    }
  }

  /**
   In every run: each contract-bound action of the saved document is the resolution of the Driver
   checkpoint it names, of a retained contract with ready evidence; each attempt that carries a
   contract carries a retained one that admits its phase and had ready evidence before its start.
   */
  lemma EverySaveRetainsEvidence(limit: int, used: int, admission: Option<Admission>, events: seq<Event>)
    ensures var w := Exec(StartRun(limit, used, admission), events); EvidenceRetained(w.disk, w.clock)
  {
    var w := StartRun(limit, used, admission);
    StartOk(limit, used, admission);
    ExecRetains(w, events, used);
  }
}

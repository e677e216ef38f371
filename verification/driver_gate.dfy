/**
 The Driver gate over whole runs: no Driver role is entered unless the contract active at that
 moment is ready, admits the phase, is the one the attempt carries, and is the one the latest
 Driver checkpoint was resolved for.
 */
module DriverGate {
  import opened Options
  import opened RunModel
  import opened Handoffs
  import opened Engine
  import opened RunRecords
  import opened Decisions
  import opened HandoffChanges
  import opened HandoffRuns

  /** Everything a Driver start relies on, in terms of the document alone. */
  ghost predicate GateOpen(s: RunState, node: Node) {
    && s.handoff.Some? && !s.HandoffCancelled()
    && var h := s.handoff.value;
       && h.active.Some? && h.reconciliations != []
       && h.reconciliations[|h.reconciliations| - 1].Ready()
       && h.reconciliations[|h.reconciliations| - 1].contract == h.active.value
       && ActiveContract(h).Some? && node in ActiveContract(h).value.driverPhases
       && NamesLastArchitect(s, ActiveContract(h).value)
       && CheckpointAuthorized(s, h.active)
  }

  /** The last attempt is at `node` and carries the active contract. */
  ghost predicate CarriesActive(s: RunState) {
    s.attempts != [] && s.handoff.Some? && s.handoff.value.active.Some?
    && s.attempts[|s.attempts| - 1].contract == s.handoff.value.active
  }

  /** A created Driver attempt is always bound to some contract. */
  ghost predicate CreatedIsBound(s: RunState) {
    s.progress.Some? && s.progress.value.stage.AttemptCreated? && s.progress.value.nextNode.IsDriver() &&
      s.attempts != [] ==>
      s.attempts[|s.attempts| - 1].contract.Some?
  }

  /** Every queued or delivered intervention has its own request in the action log. */
  ghost predicate InterventionsLogged(s: RunState) {
    forall i :: 0 <= i < |s.interventions| ==> Requested(s.actions, s.interventions[i].action)
  }

  ghost predicate Requested(actions: seq<Action>, id: Id) {
    exists k :: 0 <= k < |actions| && actions[k].id == id && actions[k].kind.InterventionRequest?
  }

  ghost predicate ProcessAdmitted(w: World) {
    w.process.Some? ==>
      match w.process.value
      case Looping(node, s, _, _, admitted) =>
        node.IsDriver() && admitted ==>
          GateOpen(s, node) && (s.progress.Some? && s.progress.value.stage.AttemptCreated? ==> CarriesActive(s))
      case Created(node, s, _, _, _) => node.IsDriver() ==> GateOpen(s, node) && CarriesActive(s)
      case _ => true
  }

  ghost predicate GateOk(w: World) {
    CreatedIsBound(w.disk) && InterventionsLogged(w.disk) && ProcessAdmitted(w)
  }

  /** The invariants the gate argument stands on. */
  ghost predicate Base(w: World, start: int) {
    WorldOk(w, start) && ActionsOk(w.disk) && HistoryOk(w.disk.History())
  }

  // ----- the gate itself -----

  /** Assessing again never moves the active contract. */
  lemma ReconcileKeepsActive(s: RunState, obs: Observation, id: Id, now: nat)
    requires HistoryOk(s.History()) && s.handoff.Some? && s.handoff.value.active.Some?
    ensures match ReconcileRun(s, obs, false, None, id, now)
      case Refused => true
      case Ok(r) => r.handoff.Some? && r.handoff.value.active == s.handoff.value.active
  {
  }

  /** What the gate itself checked, before the history invariant adds whose record it was. */
  ghost predicate Checked(s: RunState, node: Node) {
    && s.handoff.Some? && !s.HandoffCancelled()
    && var h := s.handoff.value;
       && h.reconciliations != [] && h.reconciliations[|h.reconciliations| - 1].Ready()
       && CheckpointAuthorized(s, h.active)
       && ActiveContract(h).Some? && node in ActiveContract(h).value.driverPhases
       && NamesLastArchitect(s, ActiveContract(h).value)
  }

  lemma AdmittedIsChecked(s: RunState, node: Node, current: Option<Observation>, id: Id, now: nat)
    ensures match AdmitDriver(s, node, current, id, now)
      case GateRefused(_) => true
      case Admitted(r) => Checked(r, node)
  {
    if current.Some? {
      ReconcileFrame(s, current.value, false, None, id, now);
      ReadyNamesLast(s, current.value, id, now);
    }
  }

  lemma CheckedIsOpen(s: RunState, node: Node)
    requires HistoryOk(s.History()) && Checked(s, node)
    ensures GateOpen(s, node)
  {
  }

  lemma AdmittedIsOpen(s: RunState, node: Node, current: Option<Observation>, id: Id, now: nat)
    requires HistoryOk(s.History())
    ensures match AdmitDriver(s, node, current, id, now)
      case GateRefused(_) => true
      case Admitted(r) => GateOpen(r, node)
  {
    AdmitKeepsHistory(s, node, current, id, now);
    AdmittedIsChecked(s, node, current, id, now);
    var result := AdmitDriver(s, node, current, id, now);
    if result.Admitted? { CheckedIsOpen(result.state, node); }
  }

  lemma AdmittedStillCarries(s: RunState, node: Node, current: Option<Observation>, id: Id, now: nat, start: int)
    requires HistoryOk(s.History()) && RecordOk(s, start) && CreatedIsBound(s) && node.IsDriver()
    requires s.progress.Some? && s.progress.value.stage.AttemptCreated? && s.progress.value.nextNode == node
    ensures match AdmitDriver(s, node, current, id, now)
      case GateRefused(_) => true
      case Admitted(r) => CarriesActive(r)
  {
    if AdmitDriver(s, node, current, id, now).Admitted? {
      var i :| 0 <= i < |s.attempts| && s.progress.value.execution == Some(s.attempts[i].id)
               && s.attempts[i].node == node && s.attempts[i].contract == s.handoff.value.active;
      assert i == |s.attempts| - 1;
      ReconcileKeepsActive(s, current.value, id, now);
      ReconcileFrame(s, current.value, false, None, id, now);
    }
  }

  /** The admitted state opens the gate, and a created attempt still carries its contract. */
  ghost predicate AdmitsAttempt(p: Process, r: RunState)
    requires p.Looping?
  {
    GateOpen(r, p.node) && (p.s.progress.Some? && p.s.progress.value.stage.AttemptCreated? ==> CarriesActive(r))
  }

  /** The three worlds a gate can leave behind, judged without looking at the gate again. */
  lemma GateLeavesOk(w: World, p: Process, r: RunState)
    requires GateOk(w) && ProcessOk(w) && w.process == Some(p) && p.Looping? && r == p.s.(handoff := r.handoff)
    ensures GateOk(Halted(w.(disk := r)))
    ensures AdmitsAttempt(p, r) ==> GateOk(Saved(w, r, p.(s := r, admitted := true)))
    ensures r == p.s && AdmitsAttempt(p, r) ==> GateOk(w.(process := Some(p.(admitted := true))))
  {
  }

  lemma GateKeepsOk(w: World, p: Process, current: Option<Observation>, id: Id, start: int)
    requires Base(w, start) && GateOk(w) && w.process == Some(p) && p.Looping? && p.node.IsDriver()
    ensures GateOk(PassGate(w, p, current, id))
  {
    ProcessHandoff(w);
    AdmitFrame(p.s, p.node, current, id, w.clock);
    AdmittedIsOpen(p.s, p.node, current, id, w.clock);
    if p.s.progress.Some? && p.s.progress.value.stage.AttemptCreated? {
      ProcessRecordOk(w, p, start);
      AdmittedStillCarries(p.s, p.node, current, id, w.clock, start);
    }
    match AdmitDriver(p.s, p.node, current, id, w.clock)
    case GateRefused(r) => GateLeavesOk(w, p, r);
    case Admitted(r) => GateLeavesOk(w, p, r);
  }

  /** A Driver's process carries a document with the same record invariants as the disk. */
  lemma ProcessRecordOk(w: World, p: Process, start: int)
    requires WorldOk(w, start) && w.process == Some(p) && p.Looping? && p.node.IsDriver()
    ensures RecordOk(p.s, start) && (CreatedIsBound(w.disk) ==> CreatedIsBound(p.s))
    ensures p.s.progress.Some? && p.s.progress.value.stage.AttemptCreated? ==> p.s.progress.value.nextNode == p.node
  {
  }

  // ----- creation -----

  /** Delivering interventions never touches an interrupt resolution. */
  lemma {:induction false} DeliveryKeepsResolutions(actions: seq<Action>, items: seq<Intervention>, node: Node,
      index: nat)
    requires forall k :: 0 <= k < |actions| && actions[k].kind.InterruptResolution? ==>
      !QueuedFor(items, node, actions[k].id)
    ensures ResolutionsOf(MarkDelivered(actions, items, node), index) == ResolutionsOf(actions, index)
  {
    if actions != [] {
      assert forall k :: 0 <= k < |actions[1..]| ==> actions[1..][k] == actions[k + 1];
      DeliveryKeepsResolutions(actions[1..], items, node, index);
      var marked := MarkDelivered(actions, items, node);
      assert marked[1..] == MarkDelivered(actions[1..], items, node);
    }
  }

  lemma DeliveryKeepsAuthorization(s: RunState, node: Node, execution: Id, active: Option<Id>)
    requires DistinctActions(s.actions) && InterventionsLogged(s) && CheckpointAuthorized(s, active)
    ensures CheckpointAuthorized(DeliverInterventions(s, node, execution), active)
  {
    forall k | 0 <= k < |s.actions| && s.actions[k].kind.InterruptResolution?
      ensures !QueuedFor(s.interventions, node, s.actions[k].id)
    {
    }
    var last := LastDriverCheckpoint(s.interrupts);
    if last.Some? { DeliveryKeepsResolutions(s.actions, s.interventions, node, last.value); }
  }

  lemma DeliveryKeepsLogged(s: RunState, node: Node, execution: Id)
    requires InterventionsLogged(s)
    ensures InterventionsLogged(DeliverInterventions(s, node, execution))
  {
    var r := DeliverInterventions(s, node, execution);
    forall i | 0 <= i < |r.interventions| ensures Requested(r.actions, r.interventions[i].action) {
      var k :| 0 <= k < |s.actions| && s.actions[k].id == s.interventions[i].action &&
        s.actions[k].kind.InterventionRequest?;
      assert r.actions[k].id == r.interventions[i].action;
    }
  }

  lemma AppendKeepsLast(s: RunState, a: Attempt, c: Contract)
    requires NamesLastArchitect(s, c) && !a.node.Architect?
    ensures NamesLastArchitect(s.(attempts := s.attempts + [a]), c)
  {
    if c.architectExecution.Some? {
      var k :| 0 <= k < |s.attempts| && LastArchitectAt(s.attempts, k) &&
        s.attempts[k].id == c.architectExecution.value;
      assert LastArchitectAt(s.attempts + [a], k);
    }
  }

  lemma SaveCreatedKeepsOk(w: World, p: Process, s: RunState, id: Id)
    requires p.Looping? && s.attempts != [] && s == p.s.(attempts := s.attempts)
    requires DistinctActions(s.actions) && InterventionsLogged(s)
    requires p.node.IsDriver() ==> GateOpen(p.s, p.node) && CarriesActive(s)
    requires p.node.IsDriver() ==> NamesLastArchitect(s, ActiveContract(s.handoff.value).value)
    ensures GateOk(SaveCreated(w, p, s, id))
  {
    var stamped := s.(progress := Some(Progress(AttemptCreated, p.node, Some(id), p.correction, p.correctionAttempt)));
    DeliveryKeepsLogged(stamped, p.node, id);
    if p.node.IsDriver() { DeliveryKeepsAuthorization(stamped, p.node, id, p.s.handoff.value.active); }
  }

  lemma CreateKeepsOk(w: World, p: Process, newId: Id, start: int)
    requires Base(w, start) && GateOk(w) && w.process == Some(p) && p.Looping? && p.admitted
    ensures GateOk(CreateAttempt(w, p, newId))
  {
    var s := p.s;
    if s.progress.Some? && s.progress.value.stage.AttemptCreated? {
      var previous := FindAttempt(s.attempts, s.progress.value.execution.value);
      if previous.Some? { SaveCreatedKeepsOk(w, p, s, previous.value.id); }
    } else {
      var a := NewAttempt(s, p.node, newId, w.clock);
      if p.node.IsDriver() { AppendKeepsLast(s, a, ActiveContract(s.handoff.value).value); }
      SaveCreatedKeepsOk(w, p, s.(attempts := s.attempts + [a]), newId);
    }
  }

  // ----- the other steps -----

  lemma OtherStepsKeepOk(w: World, e: Event, start: int)
    requires Base(w, start) && GateOk(w) && Enabled(w, e) && w.process.Some? && !e.Gate? && !e.Create?
    ensures GateOk(Perform(w, e))
  {
    if e.Finish? {
      FinishKeepsOk(w, w.process.value, e.outcome, start);
    } else {
      QuietStepsKeepOk(w, e, start);
    }
  }

  lemma FinishKeepsOk(w: World, p: Process, o: RoleOutcome, start: int)
    requires Base(w, start) && GateOk(w) && w.process == Some(p) && p.Running? && OutcomeFits(p.node, o)
    ensures GateOk(FinishRole(w, p, o))
  {
    AfterRoleFrame(p.s, p.node, o, p.correctionAttempt != 0);
  }

  lemma QuietStepsKeepOk(w: World, e: Event, start: int)
    requires Base(w, start) && GateOk(w) && Enabled(w, e) && w.process.Some?
    requires !e.Gate? && !e.Create? && !e.Finish?
    ensures GateOk(Perform(w, e))
  {
  }

  lemma AppendKeepsLogged(s: RunState, r: RunState)
    requires InterventionsLogged(s) && s.actions <= r.actions
    requires forall i :: 0 <= i < |r.interventions| ==>
      (i < |s.interventions| && r.interventions[i] == s.interventions[i]) ||
        Requested(r.actions, r.interventions[i].action)
    ensures InterventionsLogged(r)
  {
    forall i | 0 <= i < |r.interventions| ensures Requested(r.actions, r.interventions[i].action) {
      if i < |s.interventions| && r.interventions[i] == s.interventions[i] {
        var k :| 0 <= k < |s.actions| && s.actions[k].id == s.interventions[i].action &&
          s.actions[k].kind.InterventionRequest?;
        assert r.actions[k].id == r.interventions[i].action;
      }
    }
  }

  lemma ResumeKeepsOk(w: World, cmd: ResumeCommand, start: int)
    requires Base(w, start) && GateOk(w) && w.process.None?
    ensures GateOk(ResumeRun(w, cmd))
  {
    PreparedShape(w.disk, cmd, start);
    PreparedAppends(w.disk, cmd);
    match PrepareResume(w.disk, cmd)
    case ResumeRefused =>
    case ReplayCompleted =>
    case Prepared(prepared) =>
      AuthorizationShape(prepared, cmd, w.clock);
      AppendKeepsLogged(w.disk, prepared);
  }

  lemma QueueKeepsOk(w: World, cmd: QueueCommand)
    requires GateOk(w) && w.process.None?
    ensures GateOk(SaveIfOk(w, PersistIntervention(w.disk, cmd)))
  {
    match PersistIntervention(w.disk, cmd)
    case Refused =>
    case Ok(r) =>
      if r != w.disk {
        assert r.actions[|w.disk.actions|].kind.InterventionRequest?;
        AppendKeepsLogged(w.disk, r);
      }
  }

  lemma SealKeepsOk(w: World, obs: Observation, id: Id)
    requires GateOk(w) && w.process.None?
    ensures GateOk(SaveIfOk(w, SealArchitect(w.disk, obs, id, w.clock)))
    ensures GateOk(SaveIfOk(w, SealCompact(w.disk, obs, id, w.clock)))
  {
    ReconcileFrame(w.disk, obs, true, None, id, w.clock);
    ReconcileFrame(w.disk, obs, false, None, id, w.clock);
    var full := SealArchitect(w.disk, obs, id, w.clock);
    var compact := SealCompact(w.disk, obs, id, w.clock);
    if full.Ok? { HandoffKeepsOk(w, full.value.handoff); }
    if compact.Ok? { HandoffKeepsOk(w, compact.value.handoff); }
  }

  lemma HandoffKeepsOk(w: World, h: Option<Handoff>)
    requires GateOk(w) && w.process.None?
    ensures GateOk(w.(disk := w.disk.(handoff := h)))
  {
  }

  lemma ChangeKeepsOk(w: World, cmd: ChangeCommand)
    requires GateOk(w) && w.process.None?
    ensures GateOk(ApplyChange(w, cmd))
  {
    ChangeShape(w.disk, cmd, w.clock);
  }

  lemma PerformKeepsOk(w: World, e: Event, start: int)
    requires Base(w, start) && GateOk(w) && Enabled(w, e)
    ensures GateOk(Perform(w, e))
  {
    match e
    case Gate(current, id) =>
      if w.process.value.node.IsDriver() { GateKeepsOk(w, w.process.value, current, id, start); }
      else { NonDriverGate(w, w.process.value, current, id); }
    case Create(newId) => CreateKeepsOk(w, w.process.value, newId, start);
    case Resume(cmd) => ResumeKeepsOk(w, cmd, start);
    case Queue(cmd) => QueueKeepsOk(w, cmd);
    case SealFull(obs, id) => SealKeepsOk(w, obs, id);
    case SealDirect(obs, id) => SealKeepsOk(w, obs, id);
    case Change(cmd) => ChangeKeepsOk(w, cmd);
    case _ => OtherStepsKeepOk(w, e, start);
  }

  lemma NonDriverGate(w: World, p: Process, current: Option<Observation>, id: Id)
    requires GateOk(w) && ProcessOk(w) && w.process == Some(p) && p.Looping? && !p.node.IsDriver()
    ensures GateOk(PassGate(w, p, current, id))
  {
    AdmitFrame(p.s, p.node, current, id, w.clock);
  }

  lemma {:induction false} ExecKeepsOk(w: World, events: seq<Event>, start: int)
    requires Base(w, start) && GateOk(w)
    ensures Base(Exec(w, events), start) && GateOk(Exec(w, events))
    decreases |events|
  {
    if events != [] {
      var e := events[0];
      if Enabled(w, e) {
        PerformKeepsOk(w, e, start);
        PerformKeepsBase(w, e, start);
        ClockKeepsOk(Perform(w, e), w.clock + 1, start);
      }
      ExecKeepsOk(Step(w, e), events[1..], start);
    }
  }

  lemma PerformKeepsBase(w: World, e: Event, start: int)
    requires Base(w, start) && Enabled(w, e)
    ensures Base(Perform(w, e), start)
  {
    PerformKeepsHistory(w, e, start);
    PerformKeepsActions(w, e, start);
    PerformKeeps(w, e, start);
  }

  lemma ClockKeepsOk(w: World, clock: nat, start: int)
    requires GateOk(w) && Base(w, start)
    ensures GateOk(w.(clock := clock)) && Base(w.(clock := clock), start)
  {
    HaltKeeps(w, clock, start);
  }

  // ----- the results -----

  /**
   Whenever a Driver role can be entered, in any run: its attempt carries the contract active at
   that moment, whose latest reconciliation is ready, which admits the phase, and which the
   latest Driver checkpoint, if any, was resolved for exactly once.
   */
  lemma EveryDriverStartIsAuthorized(limit: int, used: int, admission: Option<Admission>, events: seq<Event>)
    ensures var w := Exec(StartRun(limit, used, admission), events);
      Enabled(w, Start) && w.process.value.node.IsDriver() ==>
        GateOpen(w.disk, w.process.value.node) && CarriesActive(w.disk)
  {
    var w := StartRun(limit, used, admission);
    StartOk(limit, used, admission);
    ExecKeepsOk(w, events, used);
  }

  /** After a return to the Architect no Driver role can be entered until a correction is approved. */
  lemma NoDriverAfterReturn(limit: int, used: int, admission: Option<Admission>, events: seq<Event>)
    ensures var w := Exec(StartRun(limit, used, admission), events);
      Withdrawn(w.disk.History()) ==> !(Enabled(w, Start) && w.process.value.node.IsDriver())
  {
    EveryDriverStartIsAuthorized(limit, used, admission, events);
    ReachableHistoryOk(limit, used, admission, events);
  }

  ghost predicate Cancelled(w: World) { w.process.None? && w.disk.HandoffCancelled() }

  lemma CancelledStep(w: World, e: Event)
    requires Cancelled(w) && Enabled(w, e)
    ensures Cancelled(Perform(w, e)) && Perform(w, e).entered == w.entered
  {
    match e
    case SealFull(obs, id) => ReconcileFrame(w.disk, obs, true, None, id, w.clock);
    case SealDirect(obs, id) => ReconcileFrame(w.disk, obs, false, None, id, w.clock);
    case Change(cmd) => CancelledChange(w.disk, cmd, w.clock);
    case _ =>
  }

  /** A cancelled history accepts nothing but the replay of one of its own actions. */
  lemma CancelledChange(s: RunState, cmd: ChangeCommand, now: nat)
    requires s.HandoffCancelled()
    ensures ChangeHandoff(s, cmd, now).Ok? ==> ChangeHandoff(s, cmd, now).value == s
  {
  }

  /** After a cancel no role is ever entered again, whatever is tried. */
  lemma {:induction false} CancelIsFinal(w: World, events: seq<Event>)
    requires Cancelled(w)
    ensures Cancelled(Exec(w, events)) && Exec(w, events).entered == w.entered
    decreases |events|
  {
    if events != [] {
      if Enabled(w, events[0]) { CancelledStep(w, events[0]); }
      CancelIsFinal(Step(w, events[0]), events[1..]);
    }
  }
}

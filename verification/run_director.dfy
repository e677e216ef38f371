/**
 The imperative side of the engine: the durable run file that the application loads and
 overwrites, and the attempt loop of a role node.  Every method is proved to save and return
 exactly what the step machine of `Engine` does, so the results about its runs hold of these.
 */
module RunDirectors {
  import opened Options
  import opened RunModel
  import opened Handoffs
  import opened Engine
  import opened RunRecords
  import opened Transparency
  import opened Decisions
  import opened HandoffChanges
  import opened HandoffRuns
  import opened ChangeRuns
  import opened GateOutcomes
  import opened ResumeOutcomes

  /** Kept by every step of the engine; the class below is correct for any such predicate. */
  ghost predicate KeptBySteps(reached: World -> bool) {
    forall w, e :: reached(w) ==> reached(Step(w, e))
  }

  /** The records, the history, the decisions and their order in time are sound. */
  ghost predicate InOrder(w: World, start: int) { KeepsOrder(w, start) && ActionsOk(w.disk) }

  /** Good order is one predicate that every step keeps and every run starts with. */
  lemma InOrderIsKept(limit: int, used: int, admission: Option<Admission>)
    ensures KeptBySteps(w => InOrder(w, used)) && InOrder(StartRun(limit, used, admission), used)
  {
    StartKeepsOrder(limit, used, admission);
    forall w, e | InOrder(w, used) ensures InOrder(Step(w, e), used) {
      StepKeepsOrder(w, e, used);
      if Enabled(w, e) { PerformKeepsActions(w, e, used); }
    }
  }

  /** What the world outside supplies to one attempt: evidence, fresh ids, and the role's outcome. */
  datatype Choice = Choice(current: Option<Observation>, reconciliation: Id, execution: Id, outcome: RoleOutcome)

  /** How one round of the attempt loop ends, and the process it leaves. */
  datatype Round = Gone | Ended(s: RunState) | Again(s: RunState, context: Text)

  function Left(round: Round, node: Node): Option<Process> {
    match round
    case Gone => None
    case Ended(s) => Some(Returned(node, s))
    case Again(s, context) => Some(Looping(node, s, Some(context), 1, !node.IsDriver()))
  }

  /** A gate finds or makes no execution id. */
  lemma GateUsesNone(w: World, p: Process, current: Option<Observation>, id: Id, spare: Id)
    requires ProcessOk(w) && w.process == Some(p) && p.Looping? && FreshExecution(w, spare)
    ensures FreshExecution(PassGate(w, p, current, id), spare)
  {
    var h := GateShapes(w, p, current, id);
  }

  lemma CreateUsesOnlyNew(w: World, p: Process, newId: Id, spare: Id)
    requires ProcessOk(w) && w.process == Some(p) && p.Looping? && FreshExecution(w, spare) && spare != newId
    ensures FreshExecution(CreateAttempt(w, p, newId), spare)
  {
  }

  /** The id that starts is one that was recorded. */
  lemma StartUsesKnown(w: World, p: Process, spare: Id, start: int)
    requires WorldOk(w, start) && w.process == Some(p) && p.Created? && FreshExecution(w, spare)
    ensures FreshExecution(StartRole(w, p), spare)
  {
    assert w.disk.attempts[|w.disk.attempts| - 1] in w.disk.attempts;
  }

  lemma FinishUsesNone(w: World, p: Process, o: RoleOutcome, spare: Id, start: int)
    requires WorldOk(w, start) && w.process == Some(p) && p.Running? && OutcomeFits(p.node, o)
    requires FreshExecution(w, spare)
    ensures FreshExecution(FinishRole(w, p, o), spare)
  {
    FinishedDisk(w, p, o, start);
  }

  // ----- what one saved change of a human operation amounts to -----

  /** What no human operation touches: the attempts and what they used. */
  predicate SameWork(before: RunState, after: RunState) {
    && after.attempts == before.attempts && after.budget == before.budget
    && after.rejections == before.rejections && after.admission == before.admission
  }

  /** One correction more, over finished attempts, under an id that neither log knew. */
  predicate OneCorrection(before: RunState, after: RunState, c: Correction) {
    && after.History().corrections == before.History().corrections + [c]
    && FindCorrection(before.History().corrections, c.action).None? && !HasAction(before.actions, c.action)
    && !AnyUnfinished(before.attempts) && c.previous == Tip(before.History())
    && SameWork(before, after) && after.actions == before.actions && after.interventions == before.interventions
  }

  /** The history with one correction more and no active contract. */
  function WithdrawnHistory(h: Handoff, cmd: ChangeCommand, now: nat): Handoff {
    Handoff(h.contracts, h.reconciliations,
            h.corrections + [Correction(cmd.action, cmd.actor, now, cmd.kind, cmd.expected, None, cmd.reason)], None)
  }

  /** The history with the approved contract, its first ready record, and the approval. */
  function ApprovedHistory(h: Handoff, cmd: ChangeCommand, c: Contract, obs: Observation, now: nat): Handoff {
    Handoff(h.contracts + [c],
            h.reconciliations + [Reconciliation(cmd.reconciliation, c.id, now, {}, obs.snapshot, obs.references)],
            h.corrections +
              [Correction(cmd.action, cmd.actor, now, ApproveCorrection, cmd.expected, Some(c.id), cmd.reason)],
            Some(c.id))
  }

  /** The run stood at this node when its last Driver checkpoint had already been resolved. */
  predicate StoodAt(s: RunState, node: Node) {
    exists i :: 0 <= i < |s.interrupts| && LastCheckpointAt(s.interrupts, i) && s.interrupts[i].resolution.Some?
      && Some(node) == (if s.progress.Some? then Some(s.progress.value.nextNode)
                        else if s.resumeTarget.Some? then s.resumeTarget else s.interrupts[i].next)
  }

  /** What the three kinds of change come to. */
  ghost predicate ChangeTakesEffect(before: RunState, after: RunState, cmd: ChangeCommand, now: nat) {
    var h := before.History();
    match cmd.kind
    case ReturnToArchitect =>
      after == before.(status := NotStarted, phase := At(Architect), resumeTarget := Some(Architect), intent := None,
                       progress := Some(Progress(BeforeAttempt, Architect, None, None, 0)),
                       handoff := Some(WithdrawnHistory(h, cmd, now)))
    case CancelHandoff =>
      after == before.(status := BlockedStatus, phase := TargetsCancelled, resumeTarget := Some(BlockedNode),
                       intent := None, progress := None, handoff := Some(WithdrawnHistory(h, cmd, now)))
    case ApproveCorrection =>
      && cmd.corrected.Some? && cmd.current.Some?
      && var approved := before.(
           handoff := Some(ApprovedHistory(h, cmd, cmd.corrected.value, cmd.current.value, now)));
         && (forall node :: StoodAt(before, node) ==>
               after == approved.(status := AwaitingHuman, phase := At(PauseNode), intent := None,
                 interrupts := before.interrupts + [Interrupt(ManualCheckpoint, None, Some(node))]))
         && ((forall node :: !StoodAt(before, node)) ==> after == approved)
  }

  lemma ChangeAppendsOne(s: RunState, cmd: ChangeCommand, now: nat)
    ensures match ChangeHandoff(s, cmd, now)
      case Refused => true
      case Ok(r) =>
        if FindCorrection(s.History().corrections, cmd.action).Some? then r == s
        else OneCorrection(s, r, CorrectionOf(cmd, now))
  {
    ChangeAppends(s, cmd, now);
    ChangeShape(s, cmd, now);
  }

  lemma StoodIff(s: RunState, node: Node)
    ensures StoodAt(s, node) <==> ApprovalTarget(s) == Some(node)
  {
    CheckpointIsLast(s.interrupts);
    var last := LastDriverCheckpoint(s.interrupts);
    if last.Some? { assert LastCheckpointAt(s.interrupts, last.value); }
  }

  lemma ChangeLeads(s: RunState, cmd: ChangeCommand, now: nat)
    ensures match ChangeHandoff(s, cmd, now)
      case Refused => true
      case Ok(r) => FindCorrection(s.History().corrections, cmd.action).None? ==> ChangeTakesEffect(s, r, cmd, now)
  {
    if cmd.kind.ApproveCorrection? {
      if ApproveChange(s, cmd, now).Ok? { ApprovalLeads(s, cmd, now); }
    } else if ReturnOrCancel(s, cmd, now).Ok? && cmd.corrected.None? {
      WithdrawalLeads(s, cmd, now);
    }
  }

  lemma ApprovalLeads(s: RunState, cmd: ChangeCommand, now: nat)
    requires cmd.kind.ApproveCorrection? && ApproveChange(s, cmd, now).Ok?
    ensures ChangeTakesEffect(s, ApproveChange(s, cmd, now).value, cmd, now)
  {
    ReplacementOutcome(s, cmd, now);
    ApprovalBranches(s, cmd, now);
    assert ApprovedHistory(s.History(), cmd, cmd.corrected.value, cmd.current.value, now) ==
      Replaced(s.History(), cmd.corrected.value, FirstRecord(cmd, now), CorrectionOf(cmd, now));
    forall node ensures StoodAt(s, node) <==> ApprovalTarget(s) == Some(node) {
      StoodIff(s, node);
    }
  }

  lemma WithdrawalLeads(s: RunState, cmd: ChangeCommand, now: nat)
    requires !cmd.kind.ApproveCorrection? && cmd.corrected.None? && ReturnOrCancel(s, cmd, now).Ok?
    ensures ChangeTakesEffect(s, ReturnOrCancel(s, cmd, now).value, cmd, now)
  {
  }

  /** One queued request more, under an id that neither log knew, and nothing else. */
  predicate OneRequest(before: RunState, after: RunState, cmd: QueueCommand) {
    && !HasAction(before.actions, cmd.action)
    && FindCorrection(before.History().corrections, cmd.action).None?
    && after.interventions == before.interventions + [Intervention(cmd.action, cmd.target, cmd.text, None)]
    && |after.actions| == |before.actions| + 1 && after.actions[..|before.actions|] == before.actions
    && after.actions[|before.actions|].id == cmd.action && after.actions[|before.actions|].disposition.Queued?
    && after == before.(interventions := after.interventions, actions := after.actions)
  }

  /** A repeated request says the same; a new one has a text and goes to a role that writes. */
  predicate Queueable(s: RunState, cmd: QueueCommand) {
    && (forall i :: 0 <= i < |s.History().corrections| ==> s.History().corrections[i].action != cmd.action)
    && if HasAction(s.actions, cmd.action) then
         exists k :: 0 <= k < |s.actions| && s.actions[k].id == cmd.action && SameQueued(s.actions[k], cmd)
       else
         cmd.text != "" && (cmd.target == Architect || cmd.target == DriverRed || cmd.target == DriverGreen
                            || cmd.target == Refactorer)
  }

  predicate SameQueued(a: Action, cmd: QueueCommand) {
    a.kind.InterventionRequest? && a.actor == cmd.actor && a.target == TargetNode(cmd.target) && a.detail == cmd.text
  }

  lemma QueueableIff(s: RunState, cmd: QueueCommand)
    requires ActionsOk(s)
    ensures PersistIntervention(s, cmd).Ok? <==> Queueable(s, cmd)
  {
    FoundIs(s.actions, cmd.action);
    var c := s.History().corrections;
    var found := FindCorrection(c, cmd.action);
    if found.Some? {
      var i :| 0 <= i < |c| && c[i] == found.value;
    } else {
      forall i | 0 <= i < |c| ensures c[i].action != cmd.action { assert c[i] in c; }
    }
  }

  /** A gate saves nothing but assessments and routing labels. */
  predicate GateLeaves(before: RunState, after: RunState) {
    && SameWork(before, after) && after.actions == before.actions && after.interventions == before.interventions
    && after.interrupts == before.interrupts && after.intent == before.intent
    && after.History().corrections == before.History().corrections
  }

  /** The created attempt is the last one, unfinished, and named by the saved cursor. */
  predicate CreatedIn(s: RunState, node: Node, id: Id) {
    && s.attempts != [] && s.progress.Some? && s.progress.value.execution == Some(id)
    && s.progress.value.nextNode == node
    && var last := s.attempts[|s.attempts| - 1];
       last.id == id && last.node == node && last.outcome.Unfinished?
  }

  /** At most one decision more: what the command says, under an unused id, and pending. */
  predicate OneDecision(before: RunState, after: RunState, cmd: ResumeCommand) {
    && SameWork(before, after) && after.interventions == before.interventions
    && after.History().corrections == before.History().corrections
    && (|| after.actions == before.actions
        || (&& |after.actions| == |before.actions| + 1 && after.actions[..|before.actions|] == before.actions
            && Decides(before, after, after.actions[|before.actions|], cmd)))
  }

  predicate Decides(before: RunState, after: RunState, decision: Action, cmd: ResumeCommand) {
    && decision.kind.InterruptResolution? && decision.actor == cmd.actor && decision.detail == cmd.resolution
    && !HasAction(before.actions, decision.id) && after.intent == Some(Intent(decision.id, false))
  }

  /** The contract the decision names is the one that was asked for. */
  predicate NamesContract(before: RunState, after: RunState, cmd: ResumeCommand) {
    after.actions != before.actions && after.actions != [] ==>
      after.actions[|after.actions| - 1].contract == cmd.contract
  }

  lemma PreparedDecidesOnce(s: RunState, cmd: ResumeCommand)
    requires !HasAction(s.actions, cmd.generated)
    ensures match PrepareResume(s, cmd)
      case Prepared(r) =>
        OneDecision(s, r, cmd) && (cmd.contract.None? || r.actions == s.actions ==> NamesContract(s, r, cmd))
      case _ => true
  {
  }

  /** An authorization for a contract is only admitted when the decision it rests on names that contract. */
  lemma AdmittedNamesContract(s: RunState, r: RunState, cmd: ResumeCommand, now: nat)
    requires OneDecision(s, r, cmd) && r.actions != s.actions && cmd.contract.Some?
    requires AdmitAuthorization(r, cmd, now).Ok?
    ensures NamesContract(s, r, cmd)
  {
    var decision := r.actions[|s.actions|];
    assert r.actions == s.actions + [decision];
    assert forall i :: 0 <= i < |s.actions| ==> s.actions[i].id != decision.id;
    assert FindAction(r.actions, decision.id).Some?;
  }

  lemma ResumeDecidesOnce(w: World, cmd: ResumeCommand)
    requires !HasAction(w.disk.actions, cmd.generated)
    ensures var w' := ResumeRun(w, cmd);
      OneDecision(w.disk, w'.disk, cmd) && NamesContract(w.disk, w'.disk, cmd) && w'.entered == w.entered
  {
    PreparedDecidesOnce(w.disk, cmd);
    match PrepareResume(w.disk, cmd)
    case ResumeRefused =>
    case ReplayCompleted =>
    case Prepared(prepared) =>
      AuthorizationShape(prepared, cmd, w.clock);
      if prepared.actions != w.disk.actions && cmd.contract.Some? && AdmitAuthorization(prepared, cmd, w.clock).Ok? {
        AdmittedNamesContract(w.disk, prepared, cmd, w.clock);
      }
  }

  /** An exhausted budget stops a correction, unless a human decision is waiting to go on. */
  predicate OutOfBudget(s: RunState, correction: Option<Text>) {
    correction.Some? && s.budget.used >= s.budget.limit && !(s.intent.Some? && !s.intent.value.completed)
  }

  /** Where the graph goes from a node that runs a role: paused and blocked runs wait, the others go on. */
  function EdgeFrom(s: RunState, node: Node): Node {
    if s.status.AwaitingHuman? then PauseNode
    else if s.status.BlockedStatus? then BlockedNode
    else if node.IsReviewer() && s.phase != At(Onward(node)) then Reviewed(node)
    else Onward(node)
  }

  /** Whether the graph is invoked, and with what, and at most one decision. */
  ghost predicate ResumedAs(w: World, w': World, cmd: ResumeCommand) {
    && (w'.process.Some? <==> exists r :: GoesOnWith(w.disk, cmd, r) && MayEnter(r, cmd))
    && (forall r :: GoesOnWith(w.disk, cmd, r) && MayEnter(r, cmd) ==> ResumedWith(w, w', cmd, r))
    && OneDecision(w.disk, w'.disk, cmd) && NamesContract(w.disk, w'.disk, cmd) && w'.entered == w.entered
  }

  lemma ResumeLeaves(w: World, cmd: ResumeCommand, start: int)
    requires InOrder(w, start) && w.process.None? && FreshAction(w, cmd.generated)
    ensures ResumedAs(w, ResumeRun(w, cmd), cmd)
  {
    ResumeDecidesOnce(w, cmd);
    ResumeOutcome(w, cmd);
  }

  lemma ResumeSteps(w: World, cmd: ResumeCommand, start: int)
    requires InOrder(w, start) && w.process.None? && FreshAction(w, cmd.generated)
    ensures Step(w, Event.Resume(cmd)) == ResumeRun(w, cmd).(clock := w.clock + 1)
    ensures ResumedAs(w, Step(w, Event.Resume(cmd)), cmd)
  {
    ResumeLeaves(w, cmd, start);
    ClockAside(w, ResumeRun(w, cmd), cmd, w.clock + 1);
    ResumeIsStep(w, cmd);
  }

  lemma ResumeIsStep(w: World, cmd: ResumeCommand)
    requires w.process.None? && FreshAction(w, cmd.generated)
    ensures Step(w, Event.Resume(cmd)) == ResumeRun(w, cmd).(clock := w.clock + 1)
  {
    ResumePerforms(w, cmd);
    StepIs(w, Event.Resume(cmd), ResumeRun(w, cmd));
  }

  lemma ResumePerforms(w: World, cmd: ResumeCommand)
    requires w.process.None? && FreshAction(w, cmd.generated)
    ensures Enabled(w, Event.Resume(cmd)) && Perform(w, Event.Resume(cmd)) == ResumeRun(w, cmd)
  {
  }

  lemma StepIs(w: World, e: Event, r: World)
    requires Enabled(w, e) && Perform(w, e) == r
    ensures Step(w, e) == r.(clock := w.clock + 1)
  {
  }

  lemma ClockAside(w: World, w': World, cmd: ResumeCommand, clock: nat)
    requires ResumedAs(w, w', cmd)
    ensures ResumedAs(w, w'.(clock := clock), cmd)
  {
    forall r | GoesOnWith(w.disk, cmd, r) && MayEnter(r, cmd) ensures ResumedWith(w, w'.(clock := clock), cmd, r) {
      assert ResumedWith(w, w', cmd, r);
    }
  }

  // ----- what one saved step of an attempt amounts to -----

  /** The contract a seal assesses now. */
  predicate SealsNow(s: RunState, obs: Observation, c: Contract, architect: bool) {
    obs.projectMatches &&
    if architect then ArchitectSeals(s, obs, c)
    else
      && !obs.recipeHasArchitecture && !s.status.DoneStatus? && !s.status.FailedInfra?
      && NoDriverYet(s.attempts) && s.History().corrections == [] && ContractAt(s, obs) == Some(c)
  }

  lemma SealDecides(w: World, obs: Observation, id: Id, architect: bool, start: int)
    requires InOrder(w, start)
    ensures
      var r := if architect then SealArchitect(w.disk, obs, id, w.clock) else SealCompact(w.disk, obs, id, w.clock);
      && (r.Ok? <==> exists c :: SealsNow(w.disk, obs, c, architect) && Recordable(w.disk, obs, c, id))
      && forall c :: SealsNow(w.disk, obs, c, architect) && Recordable(w.disk, obs, c, id) ==>
           r == Ok(Assessed(w.disk, obs, c, id, w.clock))
  {
    if architect {
      ArchitectSealOutcome(w.disk, obs, id, w.clock);
      forall c ensures SealsNow(w.disk, obs, c, true) <==> obs.projectMatches && ArchitectSeals(w.disk, obs, c) {}
    } else {
      CompactSealOutcome(w.disk, obs, id, w.clock);
      var c := ContractAt(w.disk, obs);
      assert c.Some? && Recordable(w.disk, obs, c.value, id) ==>
        (SealsNow(w.disk, obs, c.value, false) <==> SealCompact(w.disk, obs, id, w.clock).Ok?);
    }
  }

  lemma GateDecides(w: World, p: Process, current: Option<Observation>, id: Id, start: int)
    requires InOrder(w, start) && w.process == Some(p)
    ensures var r := AdmitDriver(p.s, p.node, current, id, w.clock);
      r.state == GateSaves(p.s, p.node, current, id, w.clock) && (r.Admitted? <==> Admissible(p.s, p.node, current, id))
  {
    ProcessHandoff(w);
    GateOutcome(p.s, p.node, current, id, w.clock);
  }

  /** The world behind the gate: the admitted state is saved when it changed, a refused one always. */
  function Passed(w: World, p: Process, current: Option<Observation>, id: Id): World
    requires p.Looping?
  {
    var s := GateSaves(p.s, p.node, current, id, w.clock);
    if !Admissible(p.s, p.node, current, id) then Halted(w.(disk := s))
    else if s == p.s then w.(process := Some(p.(admitted := true)))
    else Saved(w, s, p.(s := s, admitted := true))
  }

  lemma PassIs(w: World, p: Process, current: Option<Observation>, id: Id, start: int)
    requires InOrder(w, start) && w.process == Some(p) && p.Looping?
    ensures PassGate(w, p, current, id) == Passed(w, p, current, id)
  {
    GateDecides(w, p, current, id, start);
  }

  lemma GateLeavesWork(w: World, p: Process, current: Option<Observation>, id: Id, start: int)
    requires WorldOk(w, start) && w.process == Some(p) && p.Looping?
    ensures GateLeaves(w.disk, PassGate(w, p, current, id).disk)
  {
    var h := GateShapes(w, p, current, id);
  }

  lemma CreateLeaves(w: World, p: Process, newId: Id, start: int)
    requires WorldOk(w, start) && w.process == Some(p) && p.Looping?
    requires !MustPauseForBudget(p.s, p.correction) && FreshExecution(w, newId)
    ensures var w' := CreateAttempt(w, p, newId);
      if w'.process.None? then w' == Halted(w)
      else w'.process.value.Created? && CreatesIn(w.disk, w'.disk, p.node, w'.process.value.id, newId)
  {
    CreateKeeps(w, p, newId, start);
  }

  predicate HasCreated(s: RunState) { s.progress.Some? && s.progress.value.stage.AttemptCreated? }

  /** The created attempt the cursor names is one of this node, still unfinished. */
  predicate Reusable(s: RunState, node: Node) {
    && HasCreated(s)
    && exists k :: 0 <= k < |s.attempts| && s.progress.value.execution == Some(s.attempts[k].id)
         && s.attempts[k].node == node && s.attempts[k].outcome.Unfinished?
  }

  lemma ReusableIff(w: World, p: Process, start: int)
    requires WorldOk(w, start) && w.process == Some(p) && p.Looping?
    ensures HasCreated(p.s) ==>
      p.s.progress.value.execution.Some? &&
      var previous := FindAttempt(p.s.attempts, p.s.progress.value.execution.value);
      Reusable(p.s, p.node) <==> previous.Some? && previous.value.node == p.node && previous.value.outcome.Unfinished?
  {
    if HasCreated(p.s) { TheCreatedOne(w, p, start); }
  }

  lemma TheCreatedOne(w: World, p: Process, start: int)
    requires WorldOk(w, start) && w.process == Some(p) && p.Looping? && HasCreated(p.s)
    ensures p.s.progress.value.execution.Some?
    ensures var previous := FindAttempt(p.s.attempts, p.s.progress.value.execution.value);
      Reusable(p.s, p.node) <==> previous.Some? && previous.value.node == p.node && previous.value.outcome.Unfinished?
  {
    var previous := FindAttempt(p.s.attempts, p.s.progress.value.execution.value);
    forall k | 0 <= k < |p.s.attempts| && p.s.progress.value.execution == Some(p.s.attempts[k].id)
      ensures previous == Some(p.s.attempts[k])
    {
      FindUnique(p.s.attempts, p.s.attempts[k]);
    }
  }

  /** Queued for this node, and never for a Reviewer. */
  predicate Waits(i: Intervention, node: Node) {
    i.target == node && i.deliveredTo.None? && node != ReviewerRed && node != ReviewerGreen && node != ReviewerRefactor
  }

  /** Every waiting request is bound to the attempt and its action marked, and no other is touched. */
  ghost predicate DeliveredIn(before: RunState, after: RunState, node: Node, id: Id) {
    && |after.interventions| == |before.interventions| && |after.actions| == |before.actions|
    && (forall k :: 0 <= k < |before.interventions| ==>
          var i := before.interventions[k];
          after.interventions[k] == if Waits(i, node) then i.(deliveredTo := Some(id)) else i)
    && (forall k :: 0 <= k < |before.actions| ==>
          after.actions[k] == if WaitedFor(before, node, before.actions[k].id)
                              then before.actions[k].(disposition := Delivered) else before.actions[k])
  }

  ghost predicate WaitedFor(s: RunState, node: Node, action: Id) {
    exists m :: 0 <= m < |s.interventions| && Waits(s.interventions[m], node) && s.interventions[m].action == action
  }

  /** The document of the created save. */
  ghost predicate CreatedAs(
    before: RunState, after: RunState, node: Node, correction: Option<Text>, attempt: nat, id: Id, newId: Id, now: nat)
  {
    && DeliveredIn(before, after, node, id)
    && after == before.(
         progress := Some(Progress(AttemptCreated, node, Some(id), correction, attempt)),
         interventions := after.interventions, actions := after.actions, attempts := after.attempts)
    && (if HasCreated(before) then after.attempts == before.attempts && before.progress.value.execution == Some(id)
        else id == newId && after.attempts == before.attempts + [Attempt(
               newId, node, Unfinished, false,
               if node == DriverRed || node == DriverGreen then before.History().active else None, now)])
  }

  /** Whether there is a created save, and with which document. */
  ghost predicate CreatedBy(w: World, w': World, p: Process, newId: Id)
    requires p.Looping?
  {
    && (w'.process.Some? <==> Reusable(p.s, p.node) || !HasCreated(p.s))
    && (w'.process.Some? ==>
          && w'.process.value.Created? && w'.process.value.s == w'.disk
          && CreatedAs(p.s, w'.disk, p.node, p.correction, p.correctionAttempt, w'.process.value.id, newId, w.clock))
  }

  lemma CreateIs(w: World, p: Process, newId: Id, start: int)
    requires WorldOk(w, start) && w.process == Some(p) && p.Looping?
    ensures CreatedBy(w, CreateAttempt(w, p, newId), p, newId)
  {
    ReusableIff(w, p, start);
    if HasCreated(p.s) {
      SavedIs(w, p, p.s, p.s.progress.value.execution.value);
    } else {
      SavedIs(w, p, p.s.(attempts := p.s.attempts + [NewAttempt(p.s, p.node, newId, w.clock)]), newId);
    }
  }

  lemma SavedIs(w: World, p: Process, s: RunState, id: Id)
    requires p.Looping? && s == p.s.(attempts := s.attempts)
    ensures var w' := SaveCreated(w, p, s, id);
      && DeliveredIn(p.s, w'.disk, p.node, id)
      && w'.disk == s.(
           progress := Some(Progress(AttemptCreated, p.node, Some(id), p.correction, p.correctionAttempt)),
           interventions := w'.disk.interventions, actions := w'.disk.actions)
  {
    var stamped := s.(progress := Some(Progress(AttemptCreated, p.node, Some(id), p.correction, p.correctionAttempt)));
    DeliveryIs(stamped, p.node, id);
    assert forall action :: WaitedFor(stamped, p.node, action) <==> WaitedFor(p.s, p.node, action);
  }

  lemma DeliveryIs(s: RunState, node: Node, id: Id)
    ensures DeliveredIn(s, DeliverInterventions(s, node, id), node, id)
  {
    forall action ensures !node.IsReviewer() ==>
      (WaitedFor(s, node, action) <==> QueuedFor(s.interventions, node, action))
    {
    }
  }

  /** A new attempt is appended, or the created one is taken over. */
  predicate CreatesIn(before: RunState, after: RunState, node: Node, id: Id, newId: Id) {
    && CreatedIn(after, node, id) && after.progress.value.stage.AttemptCreated? && after.budget == before.budget
    && (if id == newId then after.attempts[..|after.attempts| - 1] == before.attempts
        else after.attempts == before.attempts)
  }

  /** The created attempt is now started and charged. */
  predicate StartsIn(before: RunState, after: RunState, node: Node, id: Id) {
    && CreatedIn(after, node, id) && after.progress.value.stage.AttemptStarted?
    && after.attempts == before.attempts && after.budget.used == before.budget.used + 1
  }

  lemma StartLeaves(w: World, p: Process, start: int)
    requires WorldOk(w, start) && w.process == Some(p) && p.Created?
    ensures StartsIn(w.disk, StartRole(w, p).disk, p.node, p.id)
  {
  }

  // ----- what finishing an attempt amounts to, node by node and outcome by outcome -----

  /** Where the saved cursor leads. */
  function CursorAfter(node: Node, o: RoleOutcome, first: bool): Node {
    match o
    case Advanced(trigger) => if trigger.Some? then PauseNode else Onward(node)
    case ReviewRejected(trigger) => if trigger.Some? then PauseNode else Reviewed(node)
    case ContractViolation(_) => if first then node else PauseNode
    case RoleFailure(_) => PauseNode
    case TypedBlocked => BlockedNode
    case Escalated => PauseNode
  }

  /** The interrupt that is logged, and the node a resume goes on at. */
  function InterruptAfter(node: Node, o: RoleOutcome, first: bool): Option<Interrupt> {
    match o
    case Advanced(trigger) =>
      if trigger.None? then None
      else Some(Interrupt(trigger.value, None, Some(if node.IsReviewer() then Reviewed(node) else Onward(node))))
    case ReviewRejected(trigger) =>
      if trigger.None? then None else Some(Interrupt(trigger.value, None, Some(Reviewed(node))))
    case ContractViolation(_) => if first then None else Some(Interrupt(InfraFailure, None, Some(node)))
    case RoleFailure(cause) => Some(Interrupt(cause, None, Some(node)))
    case TypedBlocked => None
    case Escalated => Some(Interrupt(RoleEscalation, None, Some(node)))
  }

  function StatusAfter(before: Status, node: Node, o: RoleOutcome, first: bool): Status {
    if InterruptAfter(node, o, first).Some? then AwaitingHuman
    else
      match o
      case Advanced(_) => if node.ReviewerRefactor? then DoneStatus else InProgress
      case ReviewRejected(_) => InProgress
      case TypedBlocked => BlockedStatus
      case _ => before
  }

  /** What the attempt is remembered as. */
  function LabelAfter(o: RoleOutcome): AttemptOutcome {
    match o
    case Advanced(trigger) => if trigger.Some? then Interrupted else Succeeded
    case ReviewRejected(trigger) => if trigger.Some? then Interrupted else Rejected
    case ContractViolation(_) => Rejected
    case RoleFailure(_) => Interrupted
    case TypedBlocked => Succeeded
    case Escalated => Succeeded
  }

  function PhaseAfter(node: Node, o: RoleOutcome, first: bool): Phase {
    if InterruptAfter(node, o, first).Some? then At(PauseNode)
    else
      match o
      case Advanced(_) =>
        if node.Architect? then DriverPhase else if node.IsReviewer() then At(Onward(node)) else ReviewerPhase
      case ReviewRejected(_) => At(Reviewed(node))
      case _ => At(node)
  }

  function TargetAfter(before: Option<Node>, node: Node, o: RoleOutcome, first: bool): Option<Node> {
    if o.TypedBlocked? || o.Escalated? || (o.ContractViolation? && first) then Some(node) else before
  }

  /** The document after the role's outcome, but for its cursor, its attempts and the authorization. */
  function RoleDone(before: RunState, node: Node, o: RoleOutcome, first: bool): RunState {
    before.(
      status := StatusAfter(before.status, node, o, first),
      phase := PhaseAfter(node, o, first),
      resumeTarget := TargetAfter(before.resumeTarget, node, o, first),
      interrupts := before.interrupts +
        (if InterruptAfter(node, o, first).Some? then [InterruptAfter(node, o, first).value] else []),
      rejections := before.rejections + (if o.ReviewRejected? then [node] else []))
  }

  /** The last attempt is finished as itself, the cursor follows from the outcome, the authorization is spent. */
  predicate FinishedWith(before: RunState, after: RunState, node: Node, id: Id, o: RoleOutcome, first: bool) {
    && FinishedAttempts(before.attempts, after.attempts, id, o) && !AnyUnfinished(after.attempts)
    && after == RoleDone(before, node, o, first).(
         attempts := after.attempts,
         progress := Some(Progress(
           AttemptCompleted, CursorAfter(node, o, first), Some(id),
           if o.ContractViolation? && first then Some(o.context) else None,
           if o.ContractViolation? && first then 1 else 0)),
         intent := if before.intent.Some? then Some(Intent(before.intent.value.action, true)) else None)
  }

  predicate FinishedAttempts(before: seq<Attempt>, after: seq<Attempt>, id: Id, o: RoleOutcome) {
    && before != [] && |after| == |before|
    && after[..|before| - 1] == before[..|before| - 1]
    && before[|before| - 1].id == id
    && after[|before| - 1] == before[|before| - 1].(outcome := LabelAfter(o), blocked := o.TypedBlocked?)
  }

  lemma FinishedAttemptsShape(w: World, p: Process, o: RoleOutcome, start: int)
    requires WorldOk(w, start) && w.process == Some(p) && p.Running? && OutcomeFits(p.node, o)
    ensures FinishedAttempts(w.disk.attempts, FinishRole(w, p, o).disk.attempts, p.id, o)
    ensures !AnyUnfinished(FinishRole(w, p, o).disk.attempts)
  {
    FinishedDisk(w, p, o, start);
    LastIsLabelled(w, p, o, start);
    ReplacedStaysOk(p.s.attempts, FinishedAttempt(p.s, p, o));
  }

  lemma LastIsLabelled(w: World, p: Process, o: RoleOutcome, start: int)
    requires WorldOk(w, start) && w.process == Some(p) && p.Running?
    ensures w.disk.attempts != [] && w.disk.attempts[|w.disk.attempts| - 1].id == p.id
    ensures FinishedAttempt(p.s, p, o) ==
      w.disk.attempts[|w.disk.attempts| - 1].(outcome := LabelAfter(o), blocked := o.TypedBlocked?)
  {
    var last := w.disk.attempts[|w.disk.attempts| - 1];
    assert last in w.disk.attempts;
    FindUnique(w.disk.attempts, last);
  }

  lemma RoleLeaves(s: RunState, node: Node, o: RoleOutcome, first: bool)
    requires node.RunsRole() && OutcomeFits(node, o) && Active(s)
    ensures AfterRole(s, node, o, !first) == RoleDone(s, node, o, first)
    ensures !(o.ContractViolation? && first) ==>
      Successor(AfterRole(s, node, o, !first), node) == CursorAfter(node, o, first)
  {
  }

  lemma FinishLeaves(w: World, p: Process, o: RoleOutcome, start: int)
    requires WorldOk(w, start) && w.process == Some(p) && p.Running? && OutcomeFits(p.node, o)
    ensures FinishedWith(w.disk, FinishRole(w, p, o).disk, p.node, p.id, o, p.correctionAttempt == 0)
  {
    FinishedAttemptsShape(w, p, o, start);
    RoleLeaves(p.s, p.node, o, p.correctionAttempt == 0);
  }

  class RunDirector {
    /** The durable run file. */
    var stored: RunState
    var clock: nat

    /** The run as the step machine sees it, and what is known of every world it can reach. */
    ghost var here: World
    ghost const reached: World -> bool
    ghost const start: int

    ghost predicate Valid()
      reads this
    {
      && here.disk == stored && here.clock == clock
      && KeptBySteps(reached) && reached(here)
      && (forall w {:trigger InOrder(w, start)} :: reached(w) ==> InOrder(w, start))
    }

    ghost method Took(e: Event)
      requires KeptBySteps(reached) && reached(here)
      modifies this`here
      ensures here == Step(old(here), e) && reached(here)
    {
      here := Step(here, e);
    }

    // The steps of a process, each with what is known of the world it leads to.

    ghost method TookGate(current: Option<Observation>, id: Id, spare: Id, other: Id)
      requires Valid() && Enabled(here, Event.Gate(current, id))
      modifies this`here
      ensures reached(here)
      ensures here == Passed(old(here), old(here.process.value), current, id).(clock := old(here.clock) + 1)
      ensures GateLeaves(stored, here.disk) && here.entered == old(here.entered)
      ensures FreshExecution(old(here), spare) ==> FreshExecution(here, spare)
      ensures FreshExecution(old(here), other) ==> FreshExecution(here, other)
    {
      assert InOrder(here, start);
      var p := here.process.value;
      GateLeavesWork(here, p, current, id, start);
      if FreshExecution(here, spare) { GateUsesNone(here, p, current, id, spare); }
      if FreshExecution(here, other) { GateUsesNone(here, p, current, id, other); }
      PassIs(here, p, current, id, start);
      Took(Event.Gate(current, id));
    }

    ghost method TookResume(cmd: ResumeCommand)
      requires Valid() && here.process.None? && FreshAction(here, cmd.generated)
      modifies this`here
      ensures reached(here) && here == Step(old(here), Event.Resume(cmd))
      ensures here == ResumeRun(old(here), cmd).(clock := old(here.clock) + 1)
      ensures ResumedAs(old(here), here, cmd)
    {
      ResumeSteps(here, cmd, start);
      Took(Event.Resume(cmd));
    }

    ghost method TookSeal(obs: Observation, id: Id, architect: bool)
      requires Valid() && here.process.None?
      modifies this`here
      ensures reached(here)
      ensures here == Step(old(here), if architect then SealFull(obs, id) else SealDirect(obs, id))
      ensures here == SaveIfOk(old(here),
        if architect then SealArchitect(stored, obs, id, clock) else SealCompact(stored, obs, id, clock)).(
          clock := clock + 1)
    {
      Took(if architect then SealFull(obs, id) else SealDirect(obs, id));
    }

    ghost method TookCreate(newId: Id, spare: Id)
      requires Valid() && Enabled(here, Event.Create(newId))
      modifies this`here
      ensures reached(here)
      ensures here == CreateAttempt(old(here), old(here.process.value), newId).(clock := old(here.clock) + 1)
      ensures here.process.None? ==> here.disk == stored
      ensures here.process.Some? ==>
        && here.process.value.Created?
        && CreatesIn(stored, here.disk, old(here.process.value.node), here.process.value.id, newId)
      ensures CreatedBy(old(here), here, old(here.process.value), newId)
      ensures FreshExecution(old(here), spare) && spare != newId ==> FreshExecution(here, spare)
    {
      assert InOrder(here, start);
      CreateLeaves(here, here.process.value, newId, start);
      CreateIs(here, here.process.value, newId, start);
      if FreshExecution(here, spare) && spare != newId { CreateUsesOnlyNew(here, here.process.value, newId, spare); }
      Took(Event.Create(newId));
    }

    ghost method TookStart(spare: Id)
      requires Valid() && Enabled(here, Event.Start)
      modifies this`here
      ensures reached(here)
      ensures here == StartRole(old(here), old(here.process.value)).(clock := old(here.clock) + 1)
      ensures StartsIn(stored, here.disk, old(here.process.value.node), old(here.process.value.id))
      ensures FreshExecution(old(here), spare) ==> FreshExecution(here, spare)
    {
      assert InOrder(here, start);
      StartLeaves(here, here.process.value, start);
      if FreshExecution(here, spare) { StartUsesKnown(here, here.process.value, spare, start); }
      Took(Event.Start);
    }

    ghost method TookFinish(o: RoleOutcome, spare: Id)
      requires Valid() && Enabled(here, Event.Finish(o))
      modifies this`here
      ensures reached(here)
      ensures here == FinishRole(old(here), old(here.process.value), o).(clock := old(here.clock) + 1)
      ensures FinishedWith(stored, here.disk, old(here.process.value.node), old(here.process.value.id), o,
        old(here.process.value.correctionAttempt) == 0)
      ensures FreshExecution(old(here), spare) ==> FreshExecution(here, spare)
    {
      assert InOrder(here, start);
      FinishLeaves(here, here.process.value, o, start);
      if FreshExecution(here, spare) { FinishUsesNone(here, here.process.value, o, spare, start); }
      Took(Event.Finish(o));
    }

    /** `start_run`: save the first document and invoke the graph at its entry. */
    constructor (limit: int, used: int, admission: Option<Admission>, ghost reached: World -> bool)
      requires KeptBySteps(reached) && reached(StartRun(limit, used, admission))
      requires forall w {:trigger InOrder(w, used)} :: reached(w) ==> InOrder(w, used)
      ensures Valid() && here == StartRun(limit, used, admission) && this.reached == reached && start == used
      ensures stored == RunState(NotStarted, At(Architect), None, Budget(limit, used), [], [],
        Some(Progress(BeforeAttempt, Architect, None, None, 0)), None, [], [], [], admission, None)
      ensures here.process == Some(Entering(Architect, stored.(progress := None)))
    {
      stored := StartRun(limit, used, admission).disk;
      clock := 0;
      here := StartRun(limit, used, admission);
      this.reached := reached;
      start := used;
    }

    /** `resume_run`: load, prepare, admit an authorization, save, and hand the graph its state. */
    method Resume(cmd: ResumeCommand) returns (invoked: Option<(Node, RunState)>)
      requires Valid() && here.process.None? && FreshAction(here, cmd.generated)
      modifies this
      ensures Valid() && here == Step(old(here), Event.Resume(cmd))
      ensures invoked == match here.process
        case None => None
        case Some(p) => Some((p.node, p.s))
      ensures invoked.Some? <==> exists r :: GoesOnWith(old(stored), cmd, r) && MayEnter(r, cmd)
      ensures forall r :: GoesOnWith(old(stored), cmd, r) && MayEnter(r, cmd) ==> ResumedWith(old(here), here, cmd, r)
      ensures invoked.None? ==> stored == old(stored)
      ensures OneDecision(old(stored), stored, cmd) && NamesContract(old(stored), stored, cmd)
      ensures here.entered == old(here.entered)
    {
      var state := stored;
      var now := clock;
      TookResume(cmd);
      clock := clock + 1;
      invoked := None;
      match PrepareResume(state, cmd) {
        case ResumeRefused =>
        case ReplayCompleted =>
        case Prepared(prepared) =>
          match AdmitAuthorization(prepared, cmd, now) {
            case Refused =>
            case Ok(admitted) =>
              if !Unsafe(admitted) {
                stored := admitted;
                var resumed := ResumeState(admitted, InferResumeTarget(admitted));
                invoked := Some((EntryRouter(resumed), resumed));
              }
          }
      }
    }

    /** `change_artifact_target_handoff`: load, validate, append one action, overwrite. */
    method Change(cmd: ChangeCommand) returns (accepted: bool)
      requires Valid() && here.process.None?
      modifies this
      ensures Valid() && here == Step(old(here), Event.Change(cmd))
      ensures accepted <==> Acceptable(old(stored), cmd)
      ensures !accepted || Recorded(old(stored).History(), cmd.action) ==> stored == old(stored)
      ensures accepted && !Recorded(old(stored).History(), cmd.action) ==>
        && OneCorrection(old(stored), stored, CorrectionOf(cmd, old(clock)))
        && ChangeTakesEffect(old(stored), stored, cmd, old(clock))
      ensures here.entered == old(here.entered)
    {
      var state := stored;
      var now := clock;
      assert InOrder(here, start);
      AcceptedIff(state, cmd, now);
      FindIsRecorded(state.History(), cmd);
      ChangeAppendsOne(state, cmd, now);
      ChangeLeads(state, cmd, now);
      Took(Event.Change(cmd));
      clock := clock + 1;
      match ChangeHandoff(state, cmd, now) {
        case Refused => accepted := false;
        case Ok(updated) =>
          stored := updated;
          accepted := true;
      }
    }

    /** `_persist_intervention`: load, append the request and its audit record, overwrite. */
    method Queue(cmd: QueueCommand) returns (accepted: bool)
      requires Valid() && here.process.None?
      modifies this
      ensures Valid() && here == Step(old(here), Event.Queue(cmd))
      ensures accepted <==> Queueable(old(stored), cmd)
      ensures !accepted || HasAction(old(stored).actions, cmd.action) ==> stored == old(stored)
      ensures accepted && !HasAction(old(stored).actions, cmd.action) ==> OneRequest(old(stored), stored, cmd)
      ensures here.entered == old(here.entered)
    {
      var state := stored;
      assert InOrder(here, start);
      QueueableIff(state, cmd);
      Took(Event.Queue(cmd));
      clock := clock + 1;
      match PersistIntervention(state, cmd) {
        case Refused => accepted := false;
        case Ok(updated) =>
          stored := updated;
          accepted := true;
      }
    }

    /** The gate, before anything of the attempt exists: refused states are saved and end the call. */
    method Gate(node: Node, s: RunState, correction: Option<Text>, attempt: nat, current: Option<Observation>, id: Id,
                ghost spare: Id, ghost other: Id)
      returns (admitted: Option<RunState>)
      requires Valid() && here.process == Some(Looping(node, s, correction, attempt, false))
      modifies this
      ensures Valid()
      ensures here.process ==
        if admitted.Some? then Some(Looping(node, admitted.value, correction, attempt, true)) else None
      ensures here.entered == old(here.entered)
      ensures GateLeaves(old(stored), stored)
      ensures admitted.Some? <==> Admissible(s, node, current, id)
      ensures admitted.Some? ==> admitted.value == GateSaves(s, node, current, id, old(clock))
      ensures stored ==
        if admitted.Some? && GateSaves(s, node, current, id, old(clock)) == s then old(stored)
        else GateSaves(s, node, current, id, old(clock))
      ensures FreshExecution(old(here), spare) ==> FreshExecution(here, spare)
      ensures FreshExecution(old(here), other) ==> FreshExecution(here, other)
    {
      var now := clock;
      GateDecides(here, here.process.value, current, id, start);
      TookGate(current, id, spare, other);
      clock := clock + 1;
      match AdmitDriver(s, node, current, id, now) {
        case GateRefused(refused) =>
          stored := refused;
          admitted := None;
        case Admitted(updated) =>
          if updated != s {
            stored := updated;
          }
          admitted := Some(updated);
      }
    }

    /** An exhausted budget pauses a correction before another attempt exists. */
    method Pause(node: Node, s: RunState, correction: Option<Text>, attempt: nat) returns (paused: RunState)
      requires Valid() && here.process == Some(Looping(node, s, correction, attempt, true)) &&
        MustPauseForBudget(s, correction)
      modifies this
      ensures Valid() && here.process == Some(Returned(node, paused)) && here.entered == old(here.entered)
      ensures stored == paused && paused == s.(status := AwaitingHuman, phase := At(PauseNode),
        interrupts := s.interrupts + [Interrupt(BudgetExceeded, None, Some(node))])
    {
      Took(Event.BudgetPause);
      clock := clock + 1;
      paused := PausedBy(s, BudgetExceeded, node);
      stored := paused;
    }

    /** Create or reuse the attempt and deliver interventions, in one save. */
    method Create(node: Node, s: RunState, correction: Option<Text>, attempt: nat, newId: Id, ghost spare: Id)
      returns (created: Option<(RunState, Id)>)
      requires Valid() && here.process == Some(Looping(node, s, correction, attempt, true))
      requires !MustPauseForBudget(s, correction) && FreshExecution(here, newId)
      modifies this
      ensures Valid() && here.entered == old(here.entered)
      ensures here.process ==
        if created.Some? then Some(Created(node, created.value.0, correction, attempt, created.value.1)) else None
      ensures created.None? ==> stored == old(stored)
      ensures created.Some? <==> Reusable(s, node) || !HasCreated(s)
      ensures created.Some? ==>
        && CreatesIn(old(stored), stored, node, created.value.1, newId) && stored == created.value.0
        && CreatedAs(s, stored, node, correction, attempt, created.value.1, newId, old(clock))
      ensures FreshExecution(old(here), spare) && spare != newId ==> FreshExecution(here, spare)
    {
      var id := newId;
      var state := s;
      var now := clock;
      TookCreate(newId, spare);
      clock := clock + 1;
      if s.progress.Some? && s.progress.value.stage.AttemptCreated? {
        var previous :=
          if s.progress.value.execution.Some? then FindAttempt(s.attempts, s.progress.value.execution.value) else None;
        if previous.None? || previous.value.node != node || !previous.value.outcome.Unfinished? {
          return None;
        }
        id := previous.value.id;
      } else {
        state := s.(attempts := s.attempts + [NewAttempt(s, node, newId, now)]);
      }
      state := state.(progress := Some(Progress(AttemptCreated, node, Some(id), correction, attempt)));
      state := DeliverInterventions(state, node, id);
      stored := state;
      created := Some((state, id));
    }

    /** Charge the budget, save the started cursor, and enter the role. */
    method Start(node: Node, s: RunState, correction: Option<Text>, attempt: nat, id: Id, ghost spare: Id)
      returns (running: RunState)
      requires Valid() && here.process == Some(Created(node, s, correction, attempt, id))
      modifies this
      ensures Valid() && here.process == Some(Running(node, running, correction, attempt, id))
      ensures here.entered == old(here.entered) + [RoleEntry(id, node, old(here.visit))]
      ensures StartsIn(old(stored), stored, node, id) && stored == running
      ensures running == s.(budget := Budget(s.budget.limit, s.budget.used + 1),
        progress := Some(Progress(AttemptStarted, node, Some(id), correction, attempt)))
      ensures FreshExecution(old(here), spare) ==> FreshExecution(here, spare)
    {
      TookStart(spare);
      clock := clock + 1;
      running := s.(
        budget := s.budget.(used := s.budget.used + 1),
        progress := Some(Progress(AttemptStarted, node, Some(id), correction, attempt)));
      stored := running;
    }

    /** Finish one attempt in a single save. */
    method Finish(node: Node, s: RunState, correction: Option<Text>, attempt: nat, id: Id, o: RoleOutcome,
        ghost spare: Id)
      returns (finished: RunState)
      requires Valid() && here.process == Some(Running(node, s, correction, attempt, id))
      requires node.RunsRole() && OutcomeFits(node, o)
      modifies this
      ensures Valid() && here.entered == old(here.entered)
      ensures here.process ==
        if o.ContractViolation? && attempt == 0
        then Some(Looping(node, finished, Some(o.context), 1, !node.IsDriver()))
        else Some(Returned(node, finished))
      ensures FinishedWith(old(stored), stored, node, id, o, attempt == 0)
      ensures FreshExecution(old(here), spare) ==> FreshExecution(here, spare)
    {
      TookFinish(o, spare);
      clock := clock + 1;
      var after := AfterRole(s, node, o, attempt != 0);
      var corrects := o.ContractViolation? && attempt == 0;
      var p := Running(node, s, correction, attempt, id);
      finished := after.(
        attempts := WithoutAttempt(after.attempts, id) + [FinishedAttempt(s, p, o)],
        progress := Some(Progress(AttemptCompleted, if corrects then node else Successor(after, node), Some(id),
                                  if corrects then Some(o.context) else None, if corrects then 1 else 0)),
        intent := if after.intent.Some? then Some(after.intent.value.(completed := true)) else None);
      stored := finished;
    }

    /** An admitted round: budget check, create, start, finish. */
    method Run(node: Node, s: RunState, correction: Option<Text>, attempt: nat, choice: Choice, ghost spare: Id)
      returns (round: Round)
      requires Valid() && here.process == Some(Looping(node, s, correction, attempt, true)) && node.RunsRole()
      requires OutcomeFits(node, choice.outcome) && FreshExecution(here, choice.execution)
      modifies this
      ensures Valid() && here.process == Left(round, node)
      ensures round.Again? ==> attempt == 0 && choice.outcome.ContractViolation?
      ensures round.Gone? <==> !OutOfBudget(s, correction) && HasCreated(s) && !Reusable(s, node)
      ensures |here.entered| == |old(here.entered)| + (if round.Gone? || OutOfBudget(s, correction) then 0 else 1)
      ensures OutOfBudget(s, correction) ==> !round.Again?
      ensures FreshExecution(old(here), spare) && spare != choice.execution && round.Again? ==>
        FreshExecution(here, spare)
    {
      if MustPauseForBudget(s, correction) {
        var paused := Pause(node, s, correction, attempt);
        return Ended(paused);
      }
      var created := Create(node, s, correction, attempt, choice.execution, spare);
      if created.None? {
        return Gone;
      }
      var running := Start(node, created.value.0, correction, attempt, created.value.1, spare);
      var finished := Finish(node, running, correction, attempt, created.value.1, choice.outcome, spare);
      round :=
        if choice.outcome.ContractViolation? && attempt == 0 then Again(finished, choice.outcome.context)
        else Ended(finished);
    }

    /** One round of the attempt loop: the gate before a Driver, then the admitted round. */
    method Attempt(node: Node, s: RunState, correction: Option<Text>, attempt: nat, choice: Choice, ghost spare: Id)
      returns (round: Round)
      requires Valid() && here.process == Some(Looping(node, s, correction, attempt, !node.IsDriver())) &&
        node.RunsRole()
      requires OutcomeFits(node, choice.outcome) && FreshExecution(here, choice.execution)
      modifies this
      ensures Valid() && here.process == Left(round, node)
      ensures round.Again? ==> attempt == 0 && choice.outcome.ContractViolation?
      ensures round.Gone? <==>
        || (node.IsDriver() && !Admissible(s, node, choice.current, choice.reconciliation))
        || (!OutOfBudget(s, correction) && HasCreated(s) && !Reusable(s, node))
      ensures |here.entered| == |old(here.entered)| + (if round.Gone? || OutOfBudget(s, correction) then 0 else 1)
      ensures OutOfBudget(s, correction) ==> !round.Again?
      ensures FreshExecution(old(here), spare) && spare != choice.execution && round.Again? ==>
        FreshExecution(here, spare)
    {
      var state := s;
      if node.IsDriver() {
        var admitted :=
          Gate(node, state, correction, attempt, choice.current, choice.reconciliation, choice.execution, spare);
        if admitted.None? {
          return Gone;
        }
        GateSavesRecord(s, node, choice.current, choice.reconciliation, old(clock));
        state := admitted.value;
      }
      round := Run(node, state, correction, attempt, choice, spare);
    }

    /**
     The node function: recovery checks, then attempts until the role finishes, pauses, or the
     call is refused.  A contract violation goes round the loop once.
     */
    method Node(node: Node, s: RunState, choices: seq<Choice>) returns (result: Option<RunState>)
      requires Valid() && here.process == Some(Entering(node, s)) && node.RunsRole()
      requires |choices| == 2 && choices[0].execution != choices[1].execution
      requires forall i :: 0 <= i < 2 ==>
        OutcomeFits(node, choices[i].outcome) && FreshExecution(here, choices[i].execution)
      modifies this
      ensures Valid()
      ensures here.process == if result.Some? then Some(Returned(node, result.value)) else None
      ensures |here.entered| <= |old(here.entered)| + 2
      ensures Started(s) || s.HandoffCancelled() ==> result.None? && stored == old(stored)
    {
      Took(Event.Enter);
      clock := clock + 1;
      if s.HandoffCancelled() || Unsafe(s) {
        return None;
      }
      var state := s;
      var correction := if s.progress.Some? then s.progress.value.correction else None;
      var attempt: nat := if s.progress.Some? then s.progress.value.correctionAttempt else 0;
      var round := 0;
      while true
        invariant 0 <= round <= 1 && (round == 1 ==> attempt == 1)
        invariant Valid()
        invariant here.process == Some(Looping(node, state, correction, attempt, !node.IsDriver()))
        invariant forall i :: round <= i < 2 ==> FreshExecution(here, choices[i].execution)
        invariant |here.entered| <= |old(here.entered)| + round
        decreases 1 - round
      {
        var ended := Attempt(node, state, correction, attempt, choices[round], choices[1].execution);
        match ended {
          case Gone => return None;
          case Ended(finished) => return Some(finished);
          case Again(rejected, context) =>
            state := rejected;
            correction := Some(context);
            attempt := 1;
            round := round + 1;
        }
      }
    }

    /** A terminal node only labels the run it is handed: done, waiting, or blocked. */
    method Terminal(node: Node, s: RunState) returns (result: RunState)
      requires Valid() && here.process == Some(Entering(node, s)) && !node.RunsRole()
      modifies this
      ensures Valid() && here.process == Some(Returned(node, result)) && here.entered == old(here.entered)
      ensures stored == old(stored) && result == s.(status := result.status, phase := result.phase)
      ensures result.status == match node
        case DoneNode => DoneStatus
        case PauseNode => AwaitingHuman
        case _ => BlockedStatus
      ensures result.phase == if node.BlockedNode? then s.phase else At(node)
    {
      Took(Event.Enter);
      clock := clock + 1;
      if node.DoneNode? {
        result := s.(status := DoneStatus, phase := At(DoneNode));
      } else if node.PauseNode? {
        result := s.(status := AwaitingHuman, phase := At(PauseNode));
      } else {
        result := s.(status := BlockedStatus);
      }
    }

    /** The process is lost, wherever it stands; the run file is what it last saved. */
    method Lose()
      requires Valid() && here.process.Some?
      modifies this
      ensures Valid() && stored == old(stored) && here.process.None? && here.entered == old(here.entered)
    {
      Took(Event.Crash);
      clock := clock + 1;
    }

    // The graph around the nodes.

    /** The wrapper around every node: the outcome is marked as checkpointed and saved. */
    method Checkpoint(node: Node, s: RunState) returns (checked: RunState)
      requires Valid() && here.process == Some(Returned(node, s))
      modifies this
      ensures Valid() && here.process == Some(Checkpointed(node, checked)) && here.entered == old(here.entered)
      ensures stored == checked && checked == s.(progress := checked.progress)
      ensures checked.progress ==
        if s.progress.None? then None else Some(s.progress.value.(stage := OutcomeCheckpointed))
    {
      Took(Event.Checkpoint);
      clock := clock + 1;
      checked := s;
      if s.progress.Some? {
        checked := s.(progress := Some(s.progress.value.(stage := OutcomeCheckpointed)));
      }
      stored := checked;
    }

    /** The graph follows the edge of a role, or ends and the result is saved once more. */
    method Follow(node: Node, s: RunState) returns (next: Option<Node>)
      requires Valid() && here.process == Some(Checkpointed(node, s))
      modifies this
      ensures Valid() && here.entered == old(here.entered)
      ensures next == if node.RunsRole() then Some(EdgeFrom(s, node)) else None
      ensures here.process == if next.Some? then Some(Entering(next.value, s)) else None
      ensures stored == if next.Some? then old(stored) else s
    {
      Took(Event.Follow);
      clock := clock + 1;
      if node.RunsRole() {
        next := Some(LiveEdge(s, node));
      } else {
        next := None;
        stored := s;
      }
    }

    /** The recursion limit: a run that waits, is blocked or done stays as it is, any other is blocked. */
    method StopAtLimit()
      requires Valid() && here.process.Some? && here.process.value.Checkpointed?
      modifies this
      ensures Valid() && here.process.None? && here.entered == old(here.entered)
      ensures stored ==
        if old(stored).status.AwaitingHuman? || old(stored).status.BlockedStatus? || old(stored).status.DoneStatus?
        then old(stored) else old(stored).(status := BlockedStatus, phase := RecursionLimitExceeded)
    {
      Took(Event.LimitReached);
      clock := clock + 1;
      if !stored.status.AwaitingHuman? && !stored.status.BlockedStatus? && !stored.status.DoneStatus? {
        stored := stored.(status := BlockedStatus, phase := RecursionLimitExceeded);
      }
    }

    /** `seal_architect_target_handoff` and `seal_compact_target_handoff`: load, assess, overwrite. */
    method Seal(obs: Observation, id: Id, architect: bool) returns (accepted: bool)
      requires Valid() && here.process.None?
      modifies this
      ensures Valid() && here.entered == old(here.entered)
      ensures here == Step(old(here), if architect then SealFull(obs, id) else SealDirect(obs, id))
      ensures accepted <==> exists c :: SealsNow(old(stored), obs, c, architect) && Recordable(old(stored), obs, c, id)
      ensures forall c :: SealsNow(old(stored), obs, c, architect) && Recordable(old(stored), obs, c, id) ==>
        stored == Assessed(old(stored), obs, c, id, old(clock))
      ensures !accepted ==> stored == old(stored)
    {
      SealDecides(here, obs, id, architect, start);
      var sealed := if architect then SealArchitect(stored, obs, id, clock) else SealCompact(stored, obs, id, clock);
      TookSeal(obs, id, architect);
      clock := clock + 1;
      accepted := sealed.Ok?;
      if accepted {
        stored := sealed.value;
      }
    }
  }
}

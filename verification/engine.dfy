/**
 The crash-safe run engine: one durable document on disk, at most one process in
 memory, and every durable save as one atomic step.  A process may die between any
 two steps; a later resume starts from the document alone.
 */
module Engine {
  import opened Options
  import opened RunModel
  import opened Handoffs

  // ----- recovery classification -----

  /** A role may have begun without a recorded outcome: nothing may run it again. */
  predicate Unsafe(s: RunState) { s.progress.Some? && s.progress.value.stage.AttemptStarted? }

  // ----- routing -----

  /** The nodes with one fixed outgoing edge. */
  function NextNodeOnPause(node: Node): Option<Node> {
    match node
    case Architect => Some(DriverRed)
    case DriverRed => Some(ReviewerRed)
    case DriverGreen => Some(ReviewerGreen)
    case Refactorer => Some(ReviewerRefactor)
    case _ => None
  }

  function AcceptedNode(node: Node): Node
    requires node.IsReviewer()
  {
    if node.ReviewerRed? then DriverGreen else if node.ReviewerGreen? then Refactorer else DoneNode
  }

  /** Where a rejected checkpoint goes back to; also where a paused review resumes. */
  function RetryNode(node: Node): Node
    requires node.IsReviewer()
  {
    if node.ReviewerRed? then DriverRed else if node.ReviewerGreen? then DriverGreen else Refactorer
  }

  /** The successor that `finish` writes into the durable cursor. */
  function Successor(s: RunState, node: Node): Node
    requires node.RunsRole()
  {
    if s.status.AwaitingHuman? then PauseNode
    else if s.status.BlockedStatus? then BlockedNode
    else if NextNodeOnPause(node).Some? then NextNodeOnPause(node).value
    else if s.phase == At(AcceptedNode(node)) then AcceptedNode(node) else RetryNode(node)
  }

  /** The conditional edge that leaves `node` in the live graph. */
  function LiveEdge(s: RunState, node: Node): Node
    requires node.RunsRole()
  {
    match node
    case Architect => PauseGate(s, DriverRed)
    case DriverRed => PauseGate(s, ReviewerRed)
    case DriverGreen => PauseGate(s, ReviewerGreen)
    case Refactorer => PauseGate(s, ReviewerRefactor)
    case _ => Successor(s, node)
  }

  function PauseGate(s: RunState, next: Node): Node {
    if s.status.AwaitingHuman? then PauseNode else if s.status.BlockedStatus? then BlockedNode else next
  }

  /** The graph's conditional entry point. */
  function EntryRouter(s: RunState): Node {
    if s.HandoffCancelled() then BlockedNode
    else if s.resumeTarget.Some? then s.resumeTarget.value else Architect
  }

  function RejectionTarget(rejecting: Node): Node {
    if rejecting.IsReviewer() then RetryNode(rejecting) else DriverRed
  }

  /** What a resume falls back on when no usable cursor and no typed block names a node. */
  function FallbackTarget(s: RunState): Option<Node> {
    if s.interrupts != [] && s.interrupts[|s.interrupts| - 1].next.Some? then s.interrupts[|s.interrupts| - 1].next
    else if s.rejections != [] then Some(RejectionTarget(s.rejections[|s.rejections| - 1]))
    else if s.resumeTarget.Some? then s.resumeTarget
    else match s.phase case At(n) => Some(n) case _ => None
  }

  predicate UsableCursor(s: RunState) {
    s.progress.Some? && !s.progress.value.nextNode.PauseNode? && !s.progress.value.nextNode.BlockedNode?
  }

  predicate TypedBlock(s: RunState) {
    s.status.BlockedStatus? && (s.phase == At(DriverRed) || s.phase == At(DriverGreen) || s.phase == At(Refactorer))
  }

  /** The node a resume continues at; `None` is a phase label that names no node. */
  function InferResumeTarget(s: RunState): Option<Node> {
    if UsableCursor(s) then Some(s.progress.value.nextNode)
    else if TypedBlock(s) then Some(s.phase.node)
    else FallbackTarget(s)
  }

  // ----- role outcomes (the oracle) -----

  /**
   What one role invocation and the trigger check after it amount to.  `Advanced` is a
   completed role, or an accepting review; `trigger` is the interrupt that fired after it.
   */
  datatype RoleOutcome =
    | Advanced(trigger: Option<Trigger>)
    | ReviewRejected(trigger: Option<Trigger>)
    | ContractViolation(context: Text)
    | RoleFailure(cause: Trigger)
    | TypedBlocked
    | Escalated

  predicate OutcomeFits(node: Node, o: RoleOutcome) {
    match o
    case ReviewRejected(_) => node.IsReviewer()
    case TypedBlocked => node.IsDriver()
    case Escalated => node.IsDriver()
    case RoleFailure(cause) => cause.InfraFailure? || cause.ScopeViolation?
    case _ => true
  }

  /** Where a paused success resumes. */
  function PauseResumeNode(node: Node): Node
    requires node.RunsRole()
  {
    if NextNodeOnPause(node).Some? then NextNodeOnPause(node).value else RetryNode(node)
  }

  /** The state a role hands back when it completes. */
  function RoleCompleted(s: RunState, node: Node, rejected: bool): RunState
    requires node.RunsRole()
  {
    if node.Architect? then s.(phase := DriverPhase, status := InProgress)
    else if !node.IsReviewer() then s.(phase := ReviewerPhase, status := InProgress)
    else if rejected then
      s.(phase := At(RetryNode(node)), status := InProgress, rejections := s.rejections + [node])
    else
      s.(phase := At(AcceptedNode(node)), status := if AcceptedNode(node).DoneNode? then DoneStatus else InProgress)
  }

  function PausedBy(s: RunState, trigger: Trigger, next: Node): RunState {
    LogInterrupt(s, trigger, next).(phase := At(PauseNode))
  }

  /** The state after the role call and the trigger check, before the attempt is finished. */
  function AfterRole(s: RunState, node: Node, o: RoleOutcome, correcting: bool): RunState
    requires node.RunsRole()
  {
    match o
    case Advanced(t) =>
      var done := RoleCompleted(s, node, false);
      if t.Some? then PausedBy(done, t.value, PauseResumeNode(node)) else done
    case ReviewRejected(t) =>
      var done := RoleCompleted(s, node, true);
      if t.Some? then PausedBy(done, t.value, PauseResumeNode(node)) else done
    case ContractViolation(_) =>
      if correcting then PausedBy(s, InfraFailure, node)
      else s.(phase := At(node), resumeTarget := Some(node))
    case RoleFailure(cause) => PausedBy(s, cause, node)
    case TypedBlocked => s.(status := BlockedStatus, phase := At(node), resumeTarget := Some(node))
    case Escalated => PausedBy(s, RoleEscalation, node).(resumeTarget := Some(node))
  }

  /** The outcome label the finished attempt keeps. */
  function RecordedOutcome(o: RoleOutcome): AttemptOutcome {
    match o
    case Advanced(t) => if t.Some? then Interrupted else Succeeded
    case ReviewRejected(t) => if t.Some? then Interrupted else Rejected
    case ContractViolation(_) => Rejected
    case RoleFailure(_) => Interrupted
    case TypedBlocked => Succeeded
    case Escalated => Succeeded
  }

  // ----- the process in memory -----

  /**
   Where the one live process stands.
   - `Entering`: the graph is about to call the node.
   - `Looping`: at the top of the node's attempt loop; `admitted` once the Driver gate passed.
   - `Created` / `Running`: after the created / started save.
   - `Returned`: the node function returned, its checkpoint wrapper has not saved yet.
   - `Checkpointed`: the wrapper saved; the graph is about to follow an edge.
   */
  datatype Process =
    | Entering(node: Node, s: RunState)
    | Looping(node: Node, s: RunState, correction: Option<Text>, correctionAttempt: nat, admitted: bool)
    | Created(node: Node, s: RunState, correction: Option<Text>, correctionAttempt: nat, id: Id)
    | Running(node: Node, s: RunState, correction: Option<Text>, correctionAttempt: nat, id: Id)
    | Returned(node: Node, s: RunState)
    | Checkpointed(node: Node, s: RunState)

  /** One entry of a role runner: which attempt, at which node, in which node visit. */
  datatype RoleEntry = RoleEntry(execution: Id, node: Node, visit: nat)

  /**
   `disk` is the saved document, `process` the live process if any.  `visit` and `entered`
   only observe the run: `visit` grows whenever a node visit is over, `entered` lists every
   entry into a role runner in order.
   */
  datatype World = World(disk: RunState, process: Option<Process>, clock: nat, visit: nat, entered: seq<RoleEntry>)

  function Halted(w: World): World { w.(process := None) }

  /** The process saves `s`. */
  function Saved(w: World, s: RunState, p: Process): World { w.(disk := s, process := Some(p)) }

  // ----- one node invocation, step by step -----

  /** The node function's first checks, or the whole of a terminal node. */
  function EnterNode(w: World, node: Node, s: RunState): World {
    if node.DoneNode? then w.(process := Some(Returned(node, s.(status := DoneStatus, phase := At(DoneNode)))))
    else if node.PauseNode?
      then w.(process := Some(Returned(node, s.(status := AwaitingHuman, phase := At(PauseNode)))))
    else if node.BlockedNode? then w.(process := Some(Returned(node, s.(status := BlockedStatus))))
    else if s.HandoffCancelled() || Unsafe(s) then Halted(w)
    else
      var correction := if s.progress.Some? then s.progress.value.correction else None;
      var attempt := if s.progress.Some? then s.progress.value.correctionAttempt else 0;
      w.(process := Some(Looping(node, s, correction, attempt, !node.IsDriver())))
  }

  /** The Driver gate: an admitted state is saved when it changed, a refused one always. */
  function PassGate(w: World, p: Process, current: Option<Observation>, id: Id): World
    requires p.Looping?
  {
    match AdmitDriver(p.s, p.node, current, id, w.clock)
    case GateRefused(s) => Halted(w.(disk := s))
    case Admitted(s) =>
      if s == p.s then w.(process := Some(p.(admitted := true)))
      else Saved(w, s, p.(s := s, admitted := true))
  }

  /** A correction may not start on an exhausted budget unless a human is continuing the run. */
  predicate MustPauseForBudget(s: RunState, correction: Option<Text>) {
    correction.Some? && s.budget.Exceeded() && !s.IntentPending()
  }

  function PauseForBudget(w: World, p: Process): World
    requires p.Looping?
  {
    var s := PausedBy(p.s, BudgetExceeded, p.node);
    Saved(w, s, Returned(p.node, s))
  }

  predicate Targeted(i: Intervention, node: Node) { i.target == node && i.deliveredTo.None? }

  function DeliverAll(items: seq<Intervention>, node: Node, execution: Id): (r: seq<Intervention>)
    ensures |r| == |items|
    ensures forall k :: 0 <= k < |items| ==>
      r[k] == if Targeted(items[k], node) then items[k].(deliveredTo := Some(execution)) else items[k]
  {
    if items == [] then []
    else
      var first := if Targeted(items[0], node) then items[0].(deliveredTo := Some(execution)) else items[0];
      [first] + DeliverAll(items[1..], node, execution)
  }

  predicate QueuedFor(items: seq<Intervention>, node: Node, action: Id) {
    exists k :: 0 <= k < |items| && Targeted(items[k], node) && items[k].action == action
  }

  function MarkDelivered(actions: seq<Action>, items: seq<Intervention>, node: Node): (r: seq<Action>)
    ensures |r| == |actions|
    ensures forall k :: 0 <= k < |actions| ==>
      r[k] == if QueuedFor(items, node, actions[k].id) then actions[k].(disposition := Delivered) else actions[k]
  {
    if actions == [] then []
    else
      var first := if QueuedFor(items, node, actions[0].id) then actions[0].(disposition := Delivered) else actions[0];
      [first] + MarkDelivered(actions[1..], items, node)
  }

  /** Bind the queued human context for `node` to one attempt. Reviewers take none. */
  function DeliverInterventions(s: RunState, node: Node, execution: Id): RunState {
    if node.IsReviewer() then s
    else s.(interventions := DeliverAll(s.interventions, node, execution),
            actions := MarkDelivered(s.actions, s.interventions, node))
  }

  function FindAttempt(attempts: seq<Attempt>, id: Id): (r: Option<Attempt>)
    ensures r.Some? ==> r.value in attempts && r.value.id == id
    ensures r.None? ==> forall a :: a in attempts ==> a.id != id
  {
    if attempts == [] then None
    else if attempts[0].id == id then Some(attempts[0])
    else FindAttempt(attempts[1..], id)
  }

  /** Only a Driver attempt carries the active contract. */
  function NewAttempt(s: RunState, node: Node, id: Id, now: nat): Attempt {
    Attempt(id, node, Unfinished, false,
            if node.IsDriver() && s.handoff.Some? then s.handoff.value.active else None, now)
  }

  /** Reuse the created attempt of an interrupted process, or register a new one. */
  function CreateAttempt(w: World, p: Process, newId: Id): World
    requires p.Looping?
  {
    var s := p.s;
    if s.progress.Some? && s.progress.value.stage.AttemptCreated? then
      var previous :=
        if s.progress.value.execution.Some? then FindAttempt(s.attempts, s.progress.value.execution.value) else None;
      if previous.None? || previous.value.node != p.node || !previous.value.outcome.Unfinished? then Halted(w)
      else SaveCreated(w, p, s, previous.value.id)
    else SaveCreated(w, p, s.(attempts := s.attempts + [NewAttempt(s, p.node, newId, w.clock)]), newId)
  }

  /** Creation and delivery are one durable save. */
  function SaveCreated(w: World, p: Process, s: RunState, id: Id): World
    requires p.Looping?
  {
    var created := DeliverInterventions(
      s.(progress := Some(Progress(AttemptCreated, p.node, Some(id), p.correction, p.correctionAttempt))), p.node, id);
    Saved(w, created, Created(p.node, created, p.correction, p.correctionAttempt, id))
  }

  /** Charge the budget, save the started cursor, and enter the role runner. */
  function StartRole(w: World, p: Process): World
    requires p.Created?
  {
    var s := p.s.(
      budget := p.s.budget.(used := p.s.budget.used + 1),
      progress := Some(Progress(AttemptStarted, p.node, Some(p.id), p.correction, p.correctionAttempt)));
    Saved(w, s, Running(p.node, s, p.correction, p.correctionAttempt, p.id))
      .(entered := w.entered + [RoleEntry(p.id, p.node, w.visit)])
  }

  function FinishedAttempt(s: RunState, p: Process, o: RoleOutcome): Attempt
    requires p.Running?
  {
    var a := FindAttempt(s.attempts, p.id);
    Attempt(p.id, p.node, RecordedOutcome(o), o.TypedBlocked?,
            if a.Some? then a.value.contract else None, if a.Some? then a.value.startedAt else 0)
  }

  /** A first contract violation is corrected once inside the same node visit. */
  predicate Corrects(p: Process, o: RoleOutcome)
    requires p.Running?
  {
    o.ContractViolation? && p.correctionAttempt == 0
  }

  /** Finish the attempt: its record, the exact successor, and the spent resume intent in one save. */
  function FinishRole(w: World, p: Process, o: RoleOutcome): World
    requires p.Running? && p.node.RunsRole()
  {
    var after := AfterRole(p.s, p.node, o, p.correctionAttempt != 0);
    var corrects := Corrects(p, o);
    var correction := if corrects then Some(o.context) else None;
    var s := after.(
      attempts := WithoutAttempt(after.attempts, p.id) + [FinishedAttempt(p.s, p, o)],
      progress := Some(Progress(AttemptCompleted, if corrects then p.node else Successor(after, p.node),
                                Some(p.id), correction, if corrects then 1 else 0)),
      intent := if after.intent.Some? then Some(after.intent.value.(completed := true)) else None);
    if corrects then Saved(w, s, Looping(p.node, s, correction, 1, !p.node.IsDriver()))
    else Saved(w, s, Returned(p.node, s)).(visit := w.visit + 1)
  }

  /** The wrapper around every node marks the outcome checkpointed. */
  function CheckpointNode(w: World, p: Process): World
    requires p.Returned?
  {
    var s :=
      if p.s.progress.Some? then p.s.(progress := Some(p.s.progress.value.(stage := OutcomeCheckpointed))) else p.s;
    Saved(w, s, Checkpointed(p.node, s))
  }

  /** The graph ended without raising: the result is saved once more. */
  function FollowEdge(w: World, p: Process): World
    requires p.Checkpointed?
  {
    if p.node.RunsRole() then w.(process := Some(Entering(LiveEdge(p.s, p.node), p.s)))
    else Halted(w.(disk := p.s))
  }

  /** The recursion limit: keep a pause, a block or a finished run as it is, else block the run. */
  function StopAtLimit(w: World): World {
    if w.disk.status.AwaitingHuman? || w.disk.status.BlockedStatus? || w.disk.status.DoneStatus? then Halted(w)
    else Halted(w.(disk := w.disk.(status := BlockedStatus, phase := RecursionLimitExceeded)))
  }

  // ----- resume -----

  datatype ResumeCommand = ResumeCommand(
    action: Option<Id>,
    actor: Id,
    resolution: Text,
    contract: Option<Id>,
    current: Option<Observation>,
    generated: Id,
    reconciliation: Id)

  datatype Preparation = ResumeRefused | ReplayCompleted | Prepared(s: RunState)

  function FindAction(actions: seq<Action>, id: Id): (r: Option<Action>)
    ensures r.Some? ==> r.value in actions && r.value.id == id
    ensures r.None? ==> !HasAction(actions, id)
  {
    if actions == [] then None
    else if actions[0].id == id then Some(actions[0])
    else FindAction(actions[1..], id)
  }

  function LastUnresolved(interrupts: seq<Interrupt>): (r: Option<nat>)
    ensures r.Some? ==> r.value < |interrupts| && interrupts[r.value].resolution.None?
    ensures forall i :: 0 <= i < |interrupts| && interrupts[i].resolution.None? ==> r.Some? && i <= r.value
  {
    if interrupts == [] then None
    else if interrupts[|interrupts| - 1].resolution.None? then Some(|interrupts| - 1)
    else LastUnresolved(interrupts[..|interrupts| - 1])
  }

  function Identifier(cmd: ResumeCommand): Id {
    if cmd.action.Some? then cmd.action.value else cmd.generated
  }

  function ResolutionAction(cmd: ResumeCommand, id: Id, target: ActionTarget, contract: Option<Id>): Action {
    Action(id, InterruptResolution, cmd.actor, target, Applied, cmd.resolution, contract)
  }

  predicate ReadyFor(s: RunState, contract: Option<Id>) {
    var h := s.History();
    contract.Some? && contract == h.active && h.reconciliations != []
    && h.reconciliations[|h.reconciliations| - 1].contract == contract.value
    && h.reconciliations[|h.reconciliations| - 1].Ready()
  }

  /** Resolve exactly the latest unresolved interrupt and append one action. */
  function ResolveLatestInterrupt(s: RunState, cmd: ResumeCommand): Result<RunState> {
    var last := LastUnresolved(s.interrupts);
    if cmd.resolution == "" then Refused
    else if last.Some? then
      var entry := s.interrupts[last.value];
      if entry.DriverCheckpoint() && s.handoff.Some? then
        if !ReadyFor(s, cmd.contract) then Refused else Ok(ApplyResolution(s, cmd, last.value))
      else if cmd.contract.Some? then Refused
      else Ok(ApplyResolution(s, cmd, last.value))
    else if s.interrupts == [] && cmd.contract.None? then
      Ok(s.(actions := s.actions + [ResolutionAction(cmd, Identifier(cmd), LegacyPause, None)]))
    else Refused
  }

  function ApplyResolution(s: RunState, cmd: ResumeCommand, index: nat): RunState
    requires index < |s.interrupts|
  {
    s.(interrupts := s.interrupts[index := s.interrupts[index].(resolution := Some(cmd.resolution))],
       actions := s.actions + [ResolutionAction(cmd, Identifier(cmd), InterruptAt(index), cmd.contract)])
  }

  /** The latest attempt with a typed blocked result. */
  function LatestBlocked(attempts: seq<Attempt>): Option<Id> {
    if attempts == [] then None
    else if attempts[|attempts| - 1].blocked then Some(attempts[|attempts| - 1].id)
    else LatestBlocked(attempts[..|attempts| - 1])
  }

  function ResolveBlockedResult(s: RunState, cmd: ResumeCommand): Result<RunState> {
    var blocked := LatestBlocked(s.attempts);
    if blocked.None? || cmd.resolution == "" then Refused
    else Ok(s.(actions := s.actions + [ResolutionAction(cmd, Identifier(cmd), RoleResult(blocked.value), None)]))
  }

  /** A budget continuation keeps the pending correction; every other decision drops the cursor. */
  function KeptProgress(s: RunState): Option<Progress> {
    if s.interrupts != [] && s.interrupts[|s.interrupts| - 1].trigger.BudgetExceeded? && s.progress.Some?
       && s.progress.value.correction.Some?
       && Some(s.progress.value.nextNode) == s.interrupts[|s.interrupts| - 1].next
    then s.progress else None
  }

  function Decided(s: RunState, progress: Option<Progress>): RunState
    requires s.actions != []
  {
    s.(intent := Some(Intent(s.actions[|s.actions| - 1].id, false)), progress := progress, resumeTarget := None)
  }

  function PrepareResume(s: RunState, cmd: ResumeCommand): Preparation {
    if s.HandoffCancelled() then ResumeRefused
    else if cmd.action.Some? && FindCorrection(s.History().corrections, cmd.action.value).Some? then ResumeRefused
    else
      var identifier := if cmd.action.None? && s.IntentPending() then Some(s.intent.value.action) else cmd.action;
      var previous := if identifier.Some? then FindAction(s.actions, identifier.value) else None;
      if previous.Some? then
        if !previous.value.kind.InterruptResolution? || previous.value.actor != cmd.actor
           || previous.value.detail != cmd.resolution || previous.value.contract != cmd.contract then ResumeRefused
        else if s.IntentPending() && s.intent.value.action == identifier.value then Prepared(s)
        else ReplayCompleted
      else if Unsafe(s) then ResumeRefused
      else if s.status.AwaitingHuman? then
        match ResolveLatestInterrupt(s, cmd.(action := identifier))
        case Refused => ResumeRefused
        case Ok(resolved) =>
          if resolved.actions == [] then ResumeRefused else Prepared(Decided(resolved, KeptProgress(resolved)))
      else if s.status.BlockedStatus? && !s.phase.RecursionLimitExceeded? && LatestBlocked(s.attempts).Some? then
        match ResolveBlockedResult(s, cmd.(action := identifier))
        case Refused => ResumeRefused
        case Ok(resolved) => if resolved.actions == [] then ResumeRefused else Prepared(Decided(resolved, None))
      else Prepared(s)
  }

  /** The Driver checkpoint that a contract-bound authorization resolved. */
  function AuthorizedCheckpoint(s: RunState, contract: Option<Id>): Option<Node> {
    if s.intent.None? then None
    else
      var a := FindAction(s.actions, s.intent.value.action);
      if a.None? || a.value.contract != contract || !a.value.target.InterruptAt? then None
      else if a.value.target.index >= |s.interrupts| || !s.interrupts[a.value.target.index].DriverCheckpoint() then None
      else s.interrupts[a.value.target.index].next
  }

  /** A contract-bound authorization is admitted in memory before anything is saved. */
  function AdmitAuthorization(s: RunState, cmd: ResumeCommand, now: nat): Result<RunState> {
    if cmd.contract.None? then Ok(s)
    else
      match AuthorizedCheckpoint(s, cmd.contract)
      case None => Refused
      case Some(node) =>
        match AdmitDriver(s, node, cmd.current, cmd.reconciliation, now)
        case GateRefused(_) => Refused
        case Admitted(admitted) => Ok(admitted)
  }

  /** The in-memory state a resumed graph is invoked with; a label that names no node enters at the Architect. */
  function ResumeState(s: RunState, target: Option<Node>): RunState {
    s.(resumeTarget := target, status := InProgress, phase := if target.Some? then At(target.value) else s.phase)
  }

  /** A new decision that drops the cursor ends the interrupted node visit. */
  function VisitAfter(w: World, prepared: RunState): nat {
    if prepared.actions != w.disk.actions && prepared.progress.None? then w.visit + 1 else w.visit
  }

  function ResumeRun(w: World, cmd: ResumeCommand): World {
    match PrepareResume(w.disk, cmd)
    case ResumeRefused => w
    case ReplayCompleted => w
    case Prepared(prepared) =>
      match AdmitAuthorization(prepared, cmd, w.clock)
      case Refused => w
      case Ok(s) =>
        if Unsafe(s) then w
        else
          var resumed := ResumeState(s, InferResumeTarget(s));
          w.(disk := s, visit := VisitAfter(w, prepared), process := Some(Entering(EntryRouter(resumed), resumed)))
  }

  // ----- other durable human actions -----

  datatype QueueCommand = QueueCommand(action: Id, actor: Id, target: Node, text: Text)

  /** Design decisions go to the Architect, corrections to a writing role; Reviewers take none. */
  predicate InterventionTarget(node: Node) { node.Architect? || node.IsDriver() || node.Refactorer? }

  function PersistIntervention(s: RunState, cmd: QueueCommand): Result<RunState> {
    var previous := FindAction(s.actions, cmd.action);
    if FindCorrection(s.History().corrections, cmd.action).Some? then Refused
    else if previous.Some? then
      if !previous.value.kind.InterventionRequest? || previous.value.actor != cmd.actor
         || previous.value.target != TargetNode(cmd.target) || previous.value.detail != cmd.text then Refused
      else Ok(s)
    else if !InterventionTarget(cmd.target) || cmd.text == "" then Refused
    else Ok(s.(
      interventions := s.interventions + [Intervention(cmd.action, cmd.target, cmd.text, None)],
      actions :=
        s.actions + [Action(cmd.action, InterventionRequest, cmd.actor, TargetNode(cmd.target), Queued, cmd.text,
          None)]))
  }

  // ----- whole runs -----

  datatype Event =
    | Enter
    | Gate(current: Option<Observation>, id: Id)
    | BudgetPause
    | Create(newId: Id)
    | Start
    | Finish(outcome: RoleOutcome)
    | Checkpoint
    | Follow
    | LimitReached
    | Crash
    | Resume(cmd: ResumeCommand)
    | Queue(request: QueueCommand)
    | SealFull(evidence: Observation, id: Id)
    | SealDirect(evidence: Observation, id: Id)
    | Change(change: ChangeCommand)

  /** Generated identifiers are new. */
  predicate FreshExecution(w: World, id: Id) {
    (forall a :: a in w.disk.attempts ==> a.id != id) && (forall e :: e in w.entered ==> e.execution != id)
  }

  predicate FreshAction(w: World, id: Id) {
    !HasAction(w.disk.actions, id) && FindCorrection(w.disk.History().corrections, id).None?
  }

  /** Whether the event can happen now. The live process excludes every human operation. */
  predicate Enabled(w: World, e: Event) {
    match e
    case Enter => w.process.Some? && w.process.value.Entering?
    case Gate(_, _) => w.process.Some? && w.process.value.Looping? && !w.process.value.admitted
    case BudgetPause =>
      w.process.Some? && w.process.value.Looping? && w.process.value.admitted
      && MustPauseForBudget(w.process.value.s, w.process.value.correction)
    case Create(newId) =>
      w.process.Some? && w.process.value.Looping? && w.process.value.admitted
      && !MustPauseForBudget(w.process.value.s, w.process.value.correction) && FreshExecution(w, newId)
    case Start => w.process.Some? && w.process.value.Created?
    case Finish(o) =>
      w.process.Some? && w.process.value.Running? && w.process.value.node.RunsRole()
      && OutcomeFits(w.process.value.node, o)
    case Checkpoint => w.process.Some? && w.process.value.Returned?
    case Follow => w.process.Some? && w.process.value.Checkpointed?
    case LimitReached => w.process.Some? && w.process.value.Checkpointed?
    case Crash => w.process.Some?
    case Resume(cmd) => w.process.None? && FreshAction(w, cmd.generated)
    case Queue(_) => w.process.None?
    case SealFull(_, _) => w.process.None?
    case SealDirect(_, _) => w.process.None?
    case Change(_) => w.process.None?
  }

  function SaveIfOk(w: World, r: Result<RunState>): World {
    match r case Refused => w case Ok(s) => w.(disk := s)
  }

  /** A handoff change that throws the cursor away also ends the interrupted node visit. */
  function ApplyChange(w: World, cmd: ChangeCommand): World {
    match ChangeHandoff(w.disk, cmd, w.clock)
    case Refused => w
    case Ok(s) => w.(disk := s, visit := if s.progress != w.disk.progress then w.visit + 1 else w.visit)
  }

  function Perform(w: World, e: Event): World
    requires Enabled(w, e)
  {
    match e
    case Enter => EnterNode(w, w.process.value.node, w.process.value.s)
    case Gate(current, id) => PassGate(w, w.process.value, current, id)
    case BudgetPause => PauseForBudget(w, w.process.value)
    case Create(newId) => CreateAttempt(w, w.process.value, newId)
    case Start => StartRole(w, w.process.value)
    case Finish(o) => FinishRole(w, w.process.value, o)
    case Checkpoint => CheckpointNode(w, w.process.value)
    case Follow => FollowEdge(w, w.process.value)
    case LimitReached => StopAtLimit(w)
    case Crash => Halted(w)
    case Resume(cmd) => ResumeRun(w, cmd)
    case Queue(cmd) => SaveIfOk(w, PersistIntervention(w.disk, cmd))
    case SealFull(obs, id) => SaveIfOk(w, SealArchitect(w.disk, obs, id, w.clock))
    case SealDirect(obs, id) => SaveIfOk(w, SealCompact(w.disk, obs, id, w.clock))
    case Change(cmd) => ApplyChange(w, cmd)
  }

  /** One step of the run: the event happens, or is not possible and nothing changes; time passes. */
  function Step(w: World, e: Event): World {
    if Enabled(w, e) then Perform(w, e).(clock := w.clock + 1) else w
  }

  function Exec(w: World, events: seq<Event>): World
    decreases |events|
  {
    if events == [] then w else Exec(Step(w, events[0]), events[1..])
  }

  /** `start_run`: the first durable document, and the graph entered at its entry point. */
  function StartRun(limit: int, used: int, admission: Option<Admission>): World {
    var initial :=
      RunState(NotStarted, At(Architect), None, Budget(limit, used), [], [], None, None, [], [], [], admission, None);
    World(initial.(progress := Some(Progress(BeforeAttempt, Architect, None, None, 0))),
          Some(Entering(EntryRouter(initial), initial)), 0, 0, [])
  }
}

/**
 Crash transparency: whatever crashes, recursion stops, gate refusals and resumes a run
 goes through, its attempts are those of the uninterrupted run fed the same outcomes.
 */
module Transparency {
  import opened Options
  import opened RunModel
  import opened Handoffs
  import opened Engine
  import opened RunRecords

  // ----- the uninterrupted run -----

  type Oracle = nat -> RoleOutcome

  /** Which node runs next, and with which correction; `DoneNode` is the end. */
  datatype Turn = Turn(node: Node, correction: Option<Text>)

  /** The order of the work: the role after one that succeeded, or whose review was accepted. */
  function Onward(node: Node): Node {
    match node
    case Architect => DriverRed
    case DriverRed => ReviewerRed
    case ReviewerRed => DriverGreen
    case DriverGreen => ReviewerGreen
    case ReviewerGreen => Refactorer
    case Refactorer => ReviewerRefactor
    case ReviewerRefactor => DoneNode
    case _ => node
  }

  /** The role whose work a review looks at; any other role stands for itself. */
  function Reviewed(node: Node): Node {
    match node
    case ReviewerRed => DriverRed
    case ReviewerGreen => DriverGreen
    case ReviewerRefactor => Refactorer
    case _ => node
  }

  /** The turn after one outcome. A pause or a block only waits; the human lets the same turn go on. */
  function NextTurn(t: Turn, o: RoleOutcome): Turn
    requires t.node.RunsRole()
  {
    match o
    case Advanced(trigger) =>
      Turn(if trigger.Some? && t.node.IsReviewer() then Reviewed(t.node) else Onward(t.node), None)
    case ReviewRejected(_) => Turn(Reviewed(t.node), None)
    case ContractViolation(context) => Turn(t.node, if t.correction.None? then Some(context) else None)
    case RoleFailure(_) => Turn(t.node, None)
    case TypedBlocked => Turn(t.node, None)
    case Escalated => Turn(t.node, None)
  }

  /** The `k`-th turn of the run that nothing interrupts. */
  function Uninterrupted(o: Oracle, k: nat): Turn {
    if k == 0 then Turn(Architect, None)
    else
      var t := Uninterrupted(o, k - 1);
      if t.node.RunsRole() then NextTurn(t, o(k - 1)) else t
  }

  // ----- the runs the theorem speaks of -----

  /** A gate may save this state without losing where the run was going. */
  predicate GateKeepsTarget(p: Process)
    requires p.Looping?
  {
    UsableCursor(p.s) || FallbackTarget(p.s) == Some(p.node)
  }

  /** Past the gate, over a saved document that does not name the node, and before the created save. */
  predicate Exposed(w: World) {
    && w.process.Some? && w.process.value.Looping? && w.process.value.admitted
    && w.disk == w.process.value.s && !GateKeepsTarget(w.process.value)
  }

  predicate Refuses(w: World, p: Process, current: Option<Observation>, id: Id)
    requires p.Looping?
  {
    AdmitDriver(p.s, p.node, current, id, w.clock).GateRefused?
  }

  /** The process is lost just where the saved document does not name its node. */
  predicate Loses(w: World, e: Event) {
    && Enabled(w, e)
    && match e
       case Crash => Exposed(w)
       case Gate(current, id) => !GateKeepsTarget(w.process.value) && Refuses(w, w.process.value, current, id)
       case _ => false
  }

  /** The handoff change leaves the run at its turn, whatever the human decides next. */
  predicate KeepsTurn(s: RunState, cmd: ChangeCommand, now: nat) {
    match ChangeHandoff(s, cmd, now)
    case Refused => true
    case Ok(r) =>
      || r == s
      || match cmd.kind
         case ApproveCorrection =>
           || ApprovalTarget(s).None?
           || (ApprovalTarget(s) == InferResumeTarget(s) && PendingCorrection(s).None?)
         case ReturnToArchitect => InferResumeTarget(s) == Some(Architect) && PendingCorrection(s).None?
         case CancelHandoff => false
  }

  /** The event feeds the oracle's next outcome, and a handoff change keeps the turn. */
  ghost predicate Fed(w: World, e: Event, o: Oracle) {
    && (e.Change? && Enabled(w, e) ==> KeepsTurn(w.disk, e.change, w.clock))
    && (e.Finish? && w.entered != [] ==> e.outcome == o(|w.entered| - 1))
  }

  /** The event is fed, and does not lose the process at the wrong moment. */
  ghost predicate Regular(w: World, e: Event, o: Oracle) { Fed(w, e, o) && !Loses(w, e) }

  ghost predicate RegularRun(w: World, events: seq<Event>, o: Oracle)
    decreases |events|
  {
    events == [] || (Regular(w, events[0], o) && RegularRun(Step(w, events[0]), events[1..], o))
  }

  // ----- the invariant -----

  function Finished(s: RunState): nat {
    if s.progress.Some? && s.progress.value.Unfinished() && s.attempts != [] then |s.attempts| - 1 else |s.attempts|
  }

  function PendingCorrection(s: RunState): Option<Text> {
    if s.progress.Some? then s.progress.value.correction else None
  }

  /** The recorded attempts are the uninterrupted turns, with their outcomes once finished. */
  ghost predicate AttemptsFollow(attempts: seq<Attempt>, finished: nat, o: Oracle) {
    && (forall k :: 0 <= k < |attempts| ==> attempts[k].node == Uninterrupted(o, k).node && attempts[k].node.RunsRole())
    && (forall k :: 0 <= k < |attempts| && k < finished ==> attempts[k].outcome == RecordedOutcome(o(k)))
  }

  /** A pause names its turn in the last interrupt, so dropping the cursor loses nothing. */
  ghost predicate PauseNamesTurn(s: RunState, t: Turn) {
    s.status.AwaitingHuman? ==>
      && s.interrupts != []
      && s.interrupts[|s.interrupts| - 1].next == Some(t.node)
      && (t.correction.Some? ==> s.interrupts[|s.interrupts| - 1].trigger.BudgetExceeded?)
  }

  /** A block is either the recursion limit over a usable cursor, or a typed role result at its own node. */
  ghost predicate BlockNamesTurn(s: RunState, t: Turn) {
    s.status.BlockedStatus? ==>
      if s.phase.RecursionLimitExceeded? then UsableCursor(s)
      else TypedBlock(s) && s.phase == At(t.node) && t.correction.None? && !UsableCursor(s)
  }

  /** The saved document resumes exactly at turn `t`, now and after the human decides. */
  ghost predicate DiskAt(s: RunState, t: Turn) {
    && InferResumeTarget(s) == Some(t.node)
    && PendingCorrection(s) == t.correction
    && PauseNamesTurn(s, t)
    && BlockNamesTurn(s, t)
    && (t.node.DoneNode? ==> UsableCursor(s) && !s.status.AwaitingHuman?)
    && !t.node.PauseNode? && !t.node.BlockedNode?
  }

  /** After a role node: either the cursor already names the live edge, or the run is waiting. */
  ghost predicate EdgeNamed(node: Node, s: RunState) {
    node.RunsRole() ==>
      || s.status.AwaitingHuman?
      || (s.progress.Some? && s.progress.value.nextNode == LiveEdge(s, node))
  }

  /** A terminal node has set its own status. */
  ghost predicate TerminalLabel(node: Node, s: RunState) {
    && (node.DoneNode? ==> s.status.DoneStatus?)
    && (node.PauseNode? ==> s.status.AwaitingHuman?)
    && (node.BlockedNode? ==> s.status.BlockedStatus?)
  }

  /** A process without a usable cursor was resumed, and carries the target it was resumed at. */
  ghost predicate TargetCarried(node: Node, s: RunState) {
    !UsableCursor(s) && node.RunsRole() && !node.Architect? ==> s.resumeTarget == Some(node)
  }

  /** The live process is at turn `t`. */
  ghost predicate ProcessAt(w: World, t: Turn) {
    w.process.Some? ==>
      match w.process.value
      case Entering(node, s) =>
        && (node.RunsRole() ==> node == t.node)
        && (node.DoneNode? ==> t.node.DoneNode?)
        && (node.PauseNode? ==> s == w.disk && s.status.AwaitingHuman?)
        && (node.BlockedNode? ==> s == w.disk && s.status.BlockedStatus?)
        && TargetCarried(node, s)
      case Looping(node, s, _, _, _) => node == t.node && TargetCarried(node, s)
      case Created(node, _, _, _, _) => node == t.node
      case Running(node, _, _, _, _) => node == t.node
      case Returned(node, s) => EdgeNamed(node, s) && TerminalLabel(node, s) && DiskAt(s, t)
      case Checkpointed(node, s) => EdgeNamed(node, s) && TerminalLabel(node, s)
  }

  /** The run is at turn `t`; only while it is exposed may the saved document name another node. */
  ghost predicate Stands(w: World, t: Turn) {
    && PendingCorrection(w.disk) == t.correction
    && (Exposed(w) || DiskAt(w.disk, t))
    && ProcessAt(w, t)
  }

  ghost predicate RunFollows(w: World, o: Oracle) {
    && AttemptsFollow(w.disk.attempts, Finished(w.disk), o)
    && Stands(w, Uninterrupted(o, Finished(w.disk)))
  }

  /** What the record invariant contributes to each step. */
  ghost predicate Sound(w: World, start: int) { RecordOk(w.disk, start) && ProcessOk(w) }

  ghost predicate SameAttempts(w: World, w': World) {
    w'.disk.attempts == w.disk.attempts && Finished(w'.disk) == Finished(w.disk)
  }

  /** A step that stays at its turn. */
  ghost predicate StaysAt(w: World, w': World, t: Turn) {
    DiskAt(w'.disk, t) && ProcessAt(w', t) && SameAttempts(w, w')
  }

  // ----- one lemma per step -----

  lemma EnterStays(w: World, node: Node, s: RunState, t: Turn, start: int)
    requires Sound(w, start) && DiskAt(w.disk, t) && ProcessAt(w, t) && w.process == Some(Entering(node, s))
    ensures StaysAt(w, EnterNode(w, node, s), t)
  {
  }

  lemma GateSaveStays(w: World, p: Process, h: Option<Handoff>, t: Turn, start: int)
    requires Sound(w, start) && DiskAt(w.disk, t) && ProcessAt(w, t)
    requires w.process == Some(p) && p.Looping? && GateKeepsTarget(p)
    ensures DiskAt(p.s.(handoff := h), t)
  {
  }

  /** A gate keeps the turn, or admits over a save that does not name it. */
  lemma GateStays(w: World, p: Process, current: Option<Observation>, id: Id, t: Turn, start: int)
    requires Sound(w, start) && DiskAt(w.disk, t) && ProcessAt(w, t)
    requires w.process == Some(p) && p.Looping? && (GateKeepsTarget(p) || !Refuses(w, p, current, id))
    ensures Stands(PassGate(w, p, current, id), t)
    ensures SameAttempts(w, PassGate(w, p, current, id))
  {
    var h := GateShapes(w, p, current, id);
    assert p.s.(handoff := h).attempts == w.disk.attempts;
    assert Finished(p.s.(handoff := h)) == Finished(w.disk);
    if GateKeepsTarget(p) { GateSaveStays(w, p, h, t, start); }
  }

  lemma BudgetPauseStays(w: World, p: Process, t: Turn, start: int)
    requires Sound(w, start) && Stands(w, t) && w.process == Some(p) && p.Looping?
    requires MustPauseForBudget(p.s, p.correction)
    ensures StaysAt(w, PauseForBudget(w, p), t)
  {
    assert UsableCursor(p.s);
  }

  lemma SaveCreatedStays(w: World, p: Process, s: RunState, id: Id, t: Turn, start: int)
    requires Sound(w, start) && Stands(w, t) && w.process == Some(p) && p.Looping?
    requires s == p.s.(attempts := s.attempts) && s.attempts != []
    ensures var w' := SaveCreated(w, p, s, id);
      && DiskAt(w'.disk, t) && ProcessAt(w', t)
      && w'.disk.attempts == s.attempts && Finished(w'.disk) == |s.attempts| - 1
  {
  }

  /** Creation appends one attempt at the current turn, or keeps the created one, or gives up. */
  lemma CreateStays(w: World, p: Process, newId: Id, t: Turn, start: int)
    requires Sound(w, start) && Stands(w, t) && w.process == Some(p) && p.Looping?
    ensures var w' := CreateAttempt(w, p, newId);
      && DiskAt(w'.disk, t) && ProcessAt(w', t) && Finished(w'.disk) == Finished(w.disk)
      && (w'.disk.attempts == w.disk.attempts
          || (Finished(w.disk) == |w.disk.attempts|
              && w'.disk.attempts == w.disk.attempts + [NewAttempt(p.s, p.node, newId, w.clock)]))
  {
    var s := p.s;
    if s.progress.Some? && s.progress.value.stage.AttemptCreated? {
      assert UsableCursor(s);
      var previous := FindAttempt(s.attempts, s.progress.value.execution.value);
      if previous.Some? { SaveCreatedStays(w, p, s, previous.value.id, t, start); }
    } else {
      SaveCreatedStays(w, p, s.(attempts := s.attempts + [NewAttempt(s, p.node, newId, w.clock)]), newId, t, start);
    }
  }

  lemma StartStays(w: World, p: Process, t: Turn, start: int)
    requires Sound(w, start) && DiskAt(w.disk, t) && ProcessAt(w, t) && w.process == Some(p) && p.Created?
    ensures StaysAt(w, StartRole(w, p), t)
  {
  }

  lemma CheckpointStays(w: World, p: Process, t: Turn, start: int)
    requires Sound(w, start) && DiskAt(w.disk, t) && ProcessAt(w, t) && w.process == Some(p) && p.Returned?
    ensures StaysAt(w, CheckpointNode(w, p), t)
  {
  }

  lemma FollowStays(w: World, p: Process, t: Turn, start: int)
    requires Sound(w, start) && DiskAt(w.disk, t) && ProcessAt(w, t) && w.process == Some(p) && p.Checkpointed?
    ensures StaysAt(w, FollowEdge(w, p), t)
  {
  }

  lemma LimitStays(w: World, p: Process, t: Turn, start: int)
    requires Sound(w, start) && DiskAt(w.disk, t) && ProcessAt(w, t) && w.process == Some(p) && p.Checkpointed?
    ensures StaysAt(w, StopAtLimit(w), t)
  {
  }

  lemma FinishMoves(w: World, p: Process, r: RoleOutcome, t: Turn, start: int)
    requires Sound(w, start) && DiskAt(w.disk, t) && ProcessAt(w, t)
    requires w.process == Some(p) && p.Running? && OutcomeFits(p.node, r)
    ensures DiskAt(FinishRole(w, p, r).disk, NextTurn(t, r))
    ensures ProcessAt(FinishRole(w, p, r), NextTurn(t, r))
  {
    FinishMovesDisk(w, p, r, t, start);
    if !Corrects(p, r) { FinishNamesEdge(p.s, p, r); }
  }

  lemma FinishMovesDisk(w: World, p: Process, r: RoleOutcome, t: Turn, start: int)
    requires Sound(w, start) && DiskAt(w.disk, t) && ProcessAt(w, t)
    requires w.process == Some(p) && p.Running? && OutcomeFits(p.node, r)
    ensures DiskAt(FinishRole(w, p, r).disk, NextTurn(t, r))
  {
    if r.Advanced? {
      AdvanceMovesDisk(w, p, r, t, start);
    } else if r.ReviewRejected? {
      RejectionMovesDisk(w, p, r, t, start);
    } else {
      OtherMovesDisk(w, p, r, t, start);
    }
  }

  lemma AdvanceMovesDisk(w: World, p: Process, r: RoleOutcome, t: Turn, start: int)
    requires Sound(w, start) && DiskAt(w.disk, t) && ProcessAt(w, t)
    requires w.process == Some(p) && p.Running? && r.Advanced?
    ensures DiskAt(FinishRole(w, p, r).disk, NextTurn(t, r))
  {
  }

  lemma RejectionMovesDisk(w: World, p: Process, r: RoleOutcome, t: Turn, start: int)
    requires Sound(w, start) && DiskAt(w.disk, t) && ProcessAt(w, t)
    requires w.process == Some(p) && p.Running? && OutcomeFits(p.node, r) && r.ReviewRejected?
    ensures DiskAt(FinishRole(w, p, r).disk, NextTurn(t, r))
  {
  }

  lemma OtherMovesDisk(w: World, p: Process, r: RoleOutcome, t: Turn, start: int)
    requires Sound(w, start) && DiskAt(w.disk, t) && ProcessAt(w, t)
    requires w.process == Some(p) && p.Running? && OutcomeFits(p.node, r) && !r.Advanced? && !r.ReviewRejected?
    ensures DiskAt(FinishRole(w, p, r).disk, NextTurn(t, r))
  {
  }

  /** The successor written into the cursor is the edge the live graph would follow. */
  lemma FinishNamesEdge(s: RunState, p: Process, r: RoleOutcome)
    requires p.Running? && p.node.RunsRole() && OutcomeFits(p.node, r) && !Corrects(p, r) && Active(s)
    ensures var after := AfterRole(s, p.node, r, p.correctionAttempt != 0);
      !after.status.AwaitingHuman? ==> Successor(after, p.node) == LiveEdge(after, p.node)
  {
  }

  /** A decision about a pause or a typed block keeps the turn, although it may drop the cursor. */
  lemma DecisionStays(s: RunState, cmd: ResumeCommand, t: Turn, start: int)
    requires RecordOk(s, start) && DiskAt(s, t)
    ensures match PrepareResume(s, cmd)
      case Prepared(r) => DiskAt(r, t) && r.attempts == s.attempts && Finished(r) == Finished(s)
      case _ => true
  {
    PreparedShape(s, cmd, start);
  }

  lemma HandoffStays(s: RunState, h: Option<Handoff>, t: Turn)
    requires DiskAt(s, t)
    ensures DiskAt(s.(handoff := h), t)
  {
  }

  lemma ResumeStays(w: World, cmd: ResumeCommand, t: Turn, start: int)
    requires Sound(w, start) && DiskAt(w.disk, t) && w.process.None?
    ensures StaysAt(w, ResumeRun(w, cmd), t)
  {
    DecisionStays(w.disk, cmd, t, start);
    match PrepareResume(w.disk, cmd)
    case ResumeRefused =>
    case ReplayCompleted =>
    case Prepared(prepared) =>
      AuthorizationShape(prepared, cmd, w.clock);
      NeverCancelled(w.disk, cmd);
      match AdmitAuthorization(prepared, cmd, w.clock)
      case Refused =>
      case Ok(r) => HandoffStays(prepared, r.handoff, t);
  }

  lemma QueueStays(w: World, cmd: QueueCommand, t: Turn)
    requires DiskAt(w.disk, t) && w.process.None?
    ensures StaysAt(w, SaveIfOk(w, PersistIntervention(w.disk, cmd)), t)
  {
  }

  lemma SealStays(w: World, obs: Observation, id: Id, t: Turn)
    requires DiskAt(w.disk, t) && w.process.None?
    ensures StaysAt(w, SaveIfOk(w, SealArchitect(w.disk, obs, id, w.clock)), t)
    ensures StaysAt(w, SaveIfOk(w, SealCompact(w.disk, obs, id, w.clock)), t)
  {
    ReconcileFrame(w.disk, obs, true, None, id, w.clock);
    ReconcileFrame(w.disk, obs, false, None, id, w.clock);
    var full := SealArchitect(w.disk, obs, id, w.clock);
    var compact := SealCompact(w.disk, obs, id, w.clock);
    if full.Ok? { HandoffStays(w.disk, full.value.handoff, t); }
    if compact.Ok? { HandoffStays(w.disk, compact.value.handoff, t); }
  }

  /** A handoff change keeps the turn exactly when its guard says so. */
  lemma ChangeStaysIff(s: RunState, cmd: ChangeCommand, now: nat, t: Turn, start: int)
    requires RecordOk(s, start) && DiskAt(s, t)
    ensures match ChangeHandoff(s, cmd, now)
      case Refused => KeepsTurn(s, cmd, now)
      case Ok(r) => (DiskAt(r, t) <==> KeepsTurn(s, cmd, now)) && r.attempts == s.attempts && Finished(r) == Finished(s)
  {
    ChangeShape(s, cmd, now);
    match ChangeHandoff(s, cmd, now)
    case Refused =>
    case Ok(r) =>
      if r != s && cmd.kind.ApproveCorrection? { ApprovalStaysIff(s, r, cmd, now, t); }
  }

  lemma ApprovalStaysIff(s: RunState, r: RunState, cmd: ChangeCommand, now: nat, t: Turn)
    requires DiskAt(s, t) && ApproveChange(s, cmd, now) == Ok(r)
    ensures DiskAt(r, t) <==>
      ApprovalTarget(s).None? || (ApprovalTarget(s) == InferResumeTarget(s) && PendingCorrection(s).None?)
  {
    ReconcileFrame(s, cmd.current.value, false, Some((cmd.corrected.value, CorrectionOf(cmd, now))),
      cmd.reconciliation, now);
  }

  /** An approval that asks for a new authorization while a correction is pending costs the run that correction. */
  lemma ApprovalDropsCorrection(s: RunState, cmd: ChangeCommand, now: nat, next: ResumeCommand)
    requires cmd.kind.ApproveCorrection? && ApprovalTarget(s).Some? && PendingCorrection(s).Some?
    ensures match ChangeHandoff(s, cmd, now)
      case Refused => true
      case Ok(r) => r != s && PrepareResume(r, next).Prepared? ==> PendingCorrection(PrepareResume(r, next).s).None?
  {
    ApprovalPauses(s, cmd, now);
    match ChangeHandoff(s, cmd, now)
    case Refused =>
    case Ok(r) => if r != s { PausedDropsCorrection(r, next); }
  }

  /** The run waits at a manual checkpoint that only a new decision resolves. */
  predicate WaitsAtCheckpoint(s: RunState) {
    && s.status.AwaitingHuman? && !s.IntentPending() && s.interrupts != []
    && s.interrupts[|s.interrupts| - 1].trigger.ManualCheckpoint?
  }

  lemma ApprovalPauses(s: RunState, cmd: ChangeCommand, now: nat)
    requires cmd.kind.ApproveCorrection? && ApprovalTarget(s).Some?
    ensures match ChangeHandoff(s, cmd, now)
      case Refused => true
      case Ok(r) => r == s || WaitsAtCheckpoint(r)
  {
    if ApproveChange(s, cmd, now).Ok? {
      var change := Some((cmd.corrected.value, CorrectionOf(cmd, now)));
      ReconcileFrame(s, cmd.current.value, false, change, cmd.reconciliation, now);
    }
  }

  lemma PausedDropsCorrection(s: RunState, next: ResumeCommand)
    requires WaitsAtCheckpoint(s)
    ensures PrepareResume(s, next).Prepared? ==> PendingCorrection(PrepareResume(s, next).s).None?
  {
  }

  // ----- whole runs -----

  lemma AppendFollows(attempts: seq<Attempt>, a: Attempt, o: Oracle)
    requires AttemptsFollow(attempts, |attempts|, o) && a.node == Uninterrupted(o, |attempts|).node && a.node.RunsRole()
    ensures AttemptsFollow(attempts + [a], |attempts|, o)
  {
    var longer := attempts + [a];
    forall k | 0 <= k < |longer| ensures longer[k].node == Uninterrupted(o, k).node && longer[k].node.RunsRole() {
      if k < |attempts| { assert longer[k] == attempts[k]; } else { assert longer[k] == a; }
    }
    forall k | 0 <= k < |attempts| ensures longer[k].outcome == RecordedOutcome(o(k)) {
      assert longer[k] == attempts[k];
    }
  }

  lemma ReplaceFollows(attempts: seq<Attempt>, a: Attempt, n: nat, o: Oracle)
    requires n + 1 == |attempts| && AttemptsFollow(attempts, n, o)
    requires a.node == attempts[n].node && a.outcome == RecordedOutcome(o(n))
    ensures AttemptsFollow(attempts[n := a], n + 1, o)
  {
  }

  lemma FinishFollows(w: World, p: Process, r: RoleOutcome, o: Oracle, start: int)
    requires WorldOk(w, start) && RunFollows(w, o) && w.process == Some(p) && p.Running? && OutcomeFits(p.node, r)
    requires r == o(|w.disk.attempts| - 1)
    ensures RunFollows(FinishRole(w, p, r), o)
  {
    var n := |w.disk.attempts| - 1;
    var w' := FinishRole(w, p, r);
    FinishMoves(w, p, r, Uninterrupted(o, n), start);
    FinishedDisk(w, p, r, start);
    FinishedAll(w, p, r);
    ReplaceFollows(w.disk.attempts, FinishedAttempt(p.s, p, r), n, o);
    TurnAfter(o, n, r);
  }

  lemma TurnAfter(o: Oracle, n: nat, r: RoleOutcome)
    requires Uninterrupted(o, n).node.RunsRole() && o(n) == r
    ensures Uninterrupted(o, n + 1) == NextTurn(Uninterrupted(o, n), r)
  {
  }

  lemma FinishedAll(w: World, p: Process, r: RoleOutcome)
    requires p.Running? && p.node.RunsRole()
    ensures Finished(FinishRole(w, p, r).disk) == |FinishRole(w, p, r).disk.attempts|
  {
  }

  lemma CreateFollows(w: World, p: Process, newId: Id, o: Oracle, start: int)
    requires WorldOk(w, start) && RunFollows(w, o) && w.process == Some(p) && p.Looping?
    ensures RunFollows(CreateAttempt(w, p, newId), o)
  {
    CreateStays(w, p, newId, Uninterrupted(o, Finished(w.disk)), start);
    if Finished(w.disk) == |w.disk.attempts| {
      AppendFollows(w.disk.attempts, NewAttempt(p.s, p.node, newId, w.clock), o);
    }
  }

  lemma ChangeStays(w: World, cmd: ChangeCommand, t: Turn, start: int)
    requires Sound(w, start) && DiskAt(w.disk, t) && w.process.None? && KeepsTurn(w.disk, cmd, w.clock)
    ensures StaysAt(w, ApplyChange(w, cmd), t)
  {
    ChangeStaysIff(w.disk, cmd, w.clock, t, start);
  }

  lemma PerformFollows(w: World, e: Event, o: Oracle, start: int)
    requires WorldOk(w, start) && RunFollows(w, o) && Enabled(w, e) && Regular(w, e, o)
    ensures RunFollows(Perform(w, e), o)
  {
    if w.process.Some? {
      ProcessFollows(w, e, w.process.value, o, start);
    } else {
      HumanFollows(w, e, o, start);
    }
  }

  /** A step that stays at its turn goes on following the uninterrupted run. */
  lemma StaysFollows(w: World, w': World, o: Oracle)
    requires RunFollows(w, o) && SameAttempts(w, w') && Stands(w', Uninterrupted(o, Finished(w.disk)))
    ensures RunFollows(w', o)
  {
  }

  lemma ProcessFollows(w: World, e: Event, p: Process, o: Oracle, start: int)
    requires WorldOk(w, start) && RunFollows(w, o) && Enabled(w, e) && Regular(w, e, o) && w.process == Some(p)
    ensures RunFollows(Perform(w, e), o)
  {
    if e.Create? {
      CreateFollows(w, p, e.newId, o, start);
    } else if e.Finish? {
      OutcomeIsFed(w, p, e.outcome, o, start);
      FinishFollows(w, p, e.outcome, o, start);
    } else {
      QuietFollows(w, e, p, o, start);
    }
  }

  /** The role that runs is the one of the last attempt and of the last entry. */
  lemma OutcomeIsFed(w: World, p: Process, r: RoleOutcome, o: Oracle, start: int)
    requires WorldOk(w, start) && w.process == Some(p) && p.Running? && Fed(w, Finish(r), o)
    ensures w.disk.attempts != [] && r == o(|w.disk.attempts| - 1)
  {
  }

  lemma QuietFollows(w: World, e: Event, p: Process, o: Oracle, start: int)
    requires WorldOk(w, start) && RunFollows(w, o) && Enabled(w, e) && Regular(w, e, o) && w.process == Some(p)
    requires !e.Create? && !e.Finish?
    ensures RunFollows(Perform(w, e), o)
  {
    StepStands(w, e, p, Uninterrupted(o, Finished(w.disk)), start);
    StaysFollows(w, Perform(w, e), o);
  }

  /** Every step of a process but a creation and a finish stays at its turn. */
  lemma StepStands(w: World, e: Event, p: Process, t: Turn, start: int)
    requires Sound(w, start) && Stands(w, t) && Enabled(w, e) && w.process == Some(p) && !Loses(w, e)
    requires !e.Create? && !e.Finish?
    ensures SameAttempts(w, Perform(w, e)) && Stands(Perform(w, e), t)
  {
    match e
    case Enter => EnterStays(w, p.node, p.s, t, start);
    case Gate(current, id) => GateStays(w, p, current, id, t, start);
    case BudgetPause => BudgetPauseStays(w, p, t, start);
    case Start => StartStays(w, p, t, start);
    case Checkpoint => CheckpointStays(w, p, t, start);
    case Follow => FollowStays(w, p, t, start);
    case LimitReached => LimitStays(w, p, t, start);
    case Crash =>
  }

  lemma HumanFollows(w: World, e: Event, o: Oracle, start: int)
    requires WorldOk(w, start) && RunFollows(w, o) && Enabled(w, e) && Regular(w, e, o) && w.process.None?
    ensures RunFollows(Perform(w, e), o)
  {
    HumanStands(w, e, Uninterrupted(o, Finished(w.disk)), start);
    StaysFollows(w, Perform(w, e), o);
  }

  lemma HumanStands(w: World, e: Event, t: Turn, start: int)
    requires Sound(w, start) && Stands(w, t) && Enabled(w, e) && w.process.None?
    requires e.Change? ==> KeepsTurn(w.disk, e.change, w.clock)
    ensures SameAttempts(w, Perform(w, e)) && Stands(Perform(w, e), t)
  {
    match e
    case Resume(cmd) => ResumeStays(w, cmd, t, start);
    case Queue(cmd) => QueueStays(w, cmd, t);
    case SealFull(obs, id) => SealStays(w, obs, id, t);
    case SealDirect(obs, id) => SealStays(w, obs, id, t);
    case Change(cmd) => ChangeStays(w, cmd, t, start);
  }

  lemma ClockFollows(w: World, clock: nat, o: Oracle)
    requires RunFollows(w, o)
    ensures RunFollows(w.(clock := clock), o)
  {
  }

  lemma {:induction false} ExecFollows(w: World, events: seq<Event>, o: Oracle, start: int)
    requires WorldOk(w, start) && RunFollows(w, o) && RegularRun(w, events, o)
    ensures RunFollows(Exec(w, events), o) && WorldOk(Exec(w, events), start)
    decreases |events|
  {
    if events != [] {
      var e := events[0];
      if Enabled(w, e) {
        PerformFollows(w, e, o, start);
        ClockFollows(Perform(w, e), w.clock + 1, o);
        PerformKeeps(w, e, start);
        HaltKeeps(Perform(w, e), w.clock + 1, start);
      }
      ExecFollows(Step(w, e), events[1..], o, start);
    }
  }

  // ----- the results -----

  /**
   Crash transparency.  After any regular run, the attempts on disk are the turns of the
   uninterrupted run with the same outcomes, and the saved document resumes exactly at the
   next of those turns, with its pending correction; the document of an exposed process
   names another node, but that process itself is at the turn.
   */
  lemma CrashTransparency(limit: int, used: int, admission: Option<Admission>, events: seq<Event>, o: Oracle)
    requires RegularRun(StartRun(limit, used, admission), events, o)
    ensures var w := Exec(StartRun(limit, used, admission), events);
      var s, t := w.disk, Uninterrupted(o, Finished(w.disk));
      && (forall k :: 0 <= k < |s.attempts| ==> s.attempts[k].node == Uninterrupted(o, k).node)
      && (forall k :: 0 <= k < Finished(s) ==> s.attempts[k].outcome == RecordedOutcome(o(k)))
      && PendingCorrection(s) == t.correction
      && (InferResumeTarget(s) == Some(t.node) <==> !Exposed(w))
      && (Exposed(w) ==> w.process.value.node == t.node)
  {
    var w := StartRun(limit, used, admission);
    StartOk(limit, used, admission);
    assert RunFollows(w, o);
    ExecFollows(w, events, o, used);
    var w' := Exec(w, events);
    if Exposed(w') { ExposedNamesAnother(w', Uninterrupted(o, Finished(w'.disk))); }
  }

  lemma ExposedNamesAnother(w: World, t: Turn)
    requires ProcessAt(w, t) && ProcessOk(w) && Exposed(w)
    ensures InferResumeTarget(w.disk) != Some(t.node)
  {
  }

  /**
   After any regular run, one more event leaves the run without a process and with a document
   that names another node exactly when it loses the process: a crash while exposed, or a refusal
   by a gate whose state does not name its node.
   */
  lemma TurnIsLostIff(
    limit: int, used: int, admission: Option<Admission>, events: seq<Event>, e: Event, o: Oracle)
    requires RegularRun(StartRun(limit, used, admission), events, o)
    requires Fed(Exec(StartRun(limit, used, admission), events), e, o)
    ensures var w := Exec(StartRun(limit, used, admission), events);
      var w' := Step(w, e);
      Loses(w, e) <==>
        w'.process.None? && InferResumeTarget(w'.disk) != Some(Uninterrupted(o, Finished(w'.disk)).node)
  {
    var w := StartRun(limit, used, admission);
    StartOk(limit, used, admission);
    assert RunFollows(w, o);
    ExecFollows(w, events, o, used);
    NextIsLostIff(Exec(w, events), e, o, used);
  }

  lemma NextIsLostIff(w: World, e: Event, o: Oracle, start: int)
    requires WorldOk(w, start) && RunFollows(w, o) && Fed(w, e, o)
    ensures var w' := Step(w, e);
      Loses(w, e) <==>
        w'.process.None? && InferResumeTarget(w'.disk) != Some(Uninterrupted(o, Finished(w'.disk)).node)
  {
    var t := Uninterrupted(o, Finished(w.disk));
    if Loses(w, e) {
      LostIsMisdirected(w, e, t, start);
    } else if Enabled(w, e) {
      PerformFollows(w, e, o, start);
    }
  }

  lemma LostIsMisdirected(w: World, e: Event, t: Turn, start: int)
    requires Sound(w, start) && Stands(w, t) && Loses(w, e)
    ensures Perform(w, e).process.None? && InferResumeTarget(Perform(w, e).disk) != Some(t.node)
    ensures Finished(Perform(w, e).disk) == Finished(w.disk)
  {
    match e
    case Crash => ExposedNamesAnother(w, t);
    case Gate(current, id) => RefusedIsMisdirected(w, w.process.value, current, id, t, start);
    case _ =>
  }

  lemma RefusedIsMisdirected(w: World, p: Process, current: Option<Observation>, id: Id, t: Turn, start: int)
    requires Sound(w, start) && ProcessAt(w, t) && w.process == Some(p) && p.Looping?
    requires !GateKeepsTarget(p) && Refuses(w, p, current, id)
    ensures var w' := PassGate(w, p, current, id);
      w'.process.None? && InferResumeTarget(w'.disk) != Some(t.node) && Finished(w'.disk) == Finished(w.disk)
  {
    AdmitFrame(p.s, p.node, current, id, w.clock);
  }

  /** A saved document whose cursor is at the end. */
  predicate AtEnd(s: RunState) { s.progress.Some? && s.progress.value.nextNode.DoneNode? }

  /** Any two regular runs fed the same outcomes agree on every attempt both have made. */
  lemma CrashesNeverShow(
    limit: int, used: int, admission: Option<Admission>, o: Oracle, plain: seq<Event>, crashing: seq<Event>)
    requires RegularRun(StartRun(limit, used, admission), plain, o)
    requires RegularRun(StartRun(limit, used, admission), crashing, o)
    ensures var v := Exec(StartRun(limit, used, admission), plain);
      var w := Exec(StartRun(limit, used, admission), crashing);
      var a, b := v.disk, w.disk;
      && (forall k :: 0 <= k < |a.attempts| && k < |b.attempts| ==> a.attempts[k].node == b.attempts[k].node)
      && (forall k :: 0 <= k < Finished(a) && k < Finished(b) ==> a.attempts[k].outcome == b.attempts[k].outcome)
      && (Finished(a) == Finished(b) && !Exposed(v) && !Exposed(w) ==> InferResumeTarget(a) == InferResumeTarget(b))
  {
    CrashTransparency(limit, used, admission, plain, o);
    CrashTransparency(limit, used, admission, crashing, o);
  }

  /** Two regular runs that both reach the end have made exactly the same attempts. */
  lemma CompletedRunsAgree(
    limit: int, used: int, admission: Option<Admission>, o: Oracle, plain: seq<Event>, crashing: seq<Event>)
    requires RegularRun(StartRun(limit, used, admission), plain, o)
    requires RegularRun(StartRun(limit, used, admission), crashing, o)
    requires AtEnd(Exec(StartRun(limit, used, admission), plain).disk)
    requires AtEnd(Exec(StartRun(limit, used, admission), crashing).disk)
    ensures var a := Exec(StartRun(limit, used, admission), plain).disk.attempts;
      var b := Exec(StartRun(limit, used, admission), crashing).disk.attempts;
      |a| == |b| && forall k :: 0 <= k < |a| ==> a[k].node == b[k].node && a[k].outcome == b[k].outcome
  {
    var w := StartRun(limit, used, admission);
    StartOk(limit, used, admission);
    assert RunFollows(w, o);
    ExecFollows(w, plain, o, used);
    ExecFollows(w, crashing, o, used);
    EndsOnce(Exec(w, plain), Exec(w, crashing), o, used);
    EndsOnce(Exec(w, crashing), Exec(w, plain), o, used);
  }

  /** A run whose next turn is the end has no unfinished attempt, and no other run makes a further one. */
  lemma EndsOnce(a: World, b: World, o: Oracle, start: int)
    requires WorldOk(a, start) && WorldOk(b, start) && RunFollows(a, o) && RunFollows(b, o) && AtEnd(a.disk)
    ensures Finished(a.disk) == |a.disk.attempts| && |b.disk.attempts| <= |a.disk.attempts|
  {
    var n := Finished(a.disk);
    assert Uninterrupted(o, n).node == DoneNode;
    assert forall k: nat :: k < |a.disk.attempts| ==> Uninterrupted(o, k).node.RunsRole();
    assert forall k: nat :: k < |b.disk.attempts| ==> Uninterrupted(o, k).node.RunsRole();
  }
}

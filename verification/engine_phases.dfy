/**
 The order of the work, over every run: whatever crashes, returns, corrections and replays happen,
 no phase is entered before the review it builds on was accepted, and a review directly follows
 an attempt of the role it looks at.
 */
module Phases {
  import opened Options
  import opened RunModel
  import opened Handoffs
  import opened Engine
  import opened RunRecords
  import opened Transparency

  // ----- what a node needs -----

  /** The review was accepted in one of these attempts. */
  ghost predicate Accepted(attempts: seq<Attempt>, review: Node) {
    exists k :: 0 <= k < |attempts| && attempts[k].node == review && attempts[k].outcome.Succeeded?
  }

  /** The reviews that must have been accepted before work reaches the node. */
  ghost predicate Earned(attempts: seq<Attempt>, node: Node) {
    match node
    case DriverGreen => Accepted(attempts, ReviewerRed)
    case ReviewerGreen => Accepted(attempts, ReviewerRed)
    case Refactorer => Accepted(attempts, ReviewerGreen)
    case ReviewerRefactor => Accepted(attempts, ReviewerGreen)
    case DoneNode => Accepted(attempts, ReviewerRefactor)
    case _ => true
  }

  /** The last attempt ended in a typed block. */
  predicate EndsBlocked(attempts: seq<Attempt>) { attempts != [] && attempts[|attempts| - 1].blocked }

  /** A review comes directly after its role, after itself, or after a typed block. */
  predicate Adjacent(attempts: seq<Attempt>, node: Node) {
    node.IsReviewer() ==>
      && attempts != []
      && var last := attempts[|attempts| - 1];
         last.node == node || last.node == Reviewed(node) || last.blocked
  }

  /** A role node, or the end, that may come next after these attempts. */
  ghost predicate May(attempts: seq<Attempt>, node: Node) {
    !node.PauseNode? && !node.BlockedNode? && Earned(attempts, node) && Adjacent(attempts, node)
  }

  // ----- the invariant -----

  /** The attempts that are over. */
  function Over(s: RunState): seq<Attempt> { s.attempts[..Finished(s)] }

  /** Every node an old record names, unless it is cancelled, was earned. */
  ghost predicate NamesEarned(s: RunState, attempts: seq<Attempt>) {
    && (forall i :: 0 <= i < |s.interrupts| ==> NameEarned(s.interrupts[i].next, attempts))
    && (forall i :: 0 <= i < |s.rejections| ==> s.rejections[i].IsReviewer() && Earned(attempts, s.rejections[i]))
    && (s.resumeTarget.Some? && s.resumeTarget.value.RunsRole() ==> Earned(attempts, s.resumeTarget.value))
    && (s.progress.Some? ==> Earned(attempts, s.progress.value.nextNode))
  }

  ghost predicate NameEarned(name: Option<Node>, attempts: seq<Attempt>) {
    name.Some? && name.value.RunsRole() && Earned(attempts, name.value)
  }

  /** Where the document goes on may come next, now and after a human decides about it. */
  ghost predicate NextOk(s: RunState, over: seq<Attempt>) {
    s.HandoffCancelled()
    || (&& (InferResumeTarget(s).Some? ==> May(over, InferResumeTarget(s).value))
        && (s.status.AwaitingHuman? ==>
              && s.interrupts != [] && s.interrupts[|s.interrupts| - 1].next.Some?
              && May(over, s.interrupts[|s.interrupts| - 1].next.value))
        && (s.status.BlockedStatus? ==>
              s.phase.RecursionLimitExceeded?
              || (TypedBlock(s) && EndsBlocked(over) && May(over, s.phase.node))))
  }

  /** The state, judged against the attempts on disk. */
  ghost predicate StateOk(s: RunState, attempts: seq<Attempt>, over: seq<Attempt>) {
    NamesEarned(s, attempts) && NextOk(s, over)
  }

  ghost predicate AttemptsInOrder(attempts: seq<Attempt>) {
    forall k :: 0 <= k < |attempts| ==> attempts[k].node.RunsRole() && May(attempts[..k], attempts[k].node)
  }

  ghost predicate StepOk(w: World) {
    w.process.Some? ==>
      var over := Over(w.disk);
      match w.process.value
      case Entering(node, s) =>
        && StateOk(s, w.disk.attempts, over)
        && (node.RunsRole() || node.DoneNode? ==> May(over, node))
        && (node.BlockedNode? ==> s.status.BlockedStatus?)
        && (node.PauseNode? ==> s.status.AwaitingHuman?)
        && (node.DoneNode? ==> !s.status.BlockedStatus?)
      case Looping(node, s, _, _, _) => StateOk(s, w.disk.attempts, over) && May(over, node)
      case Created(node, _, _, _, _) => May(over, node)
      case Running(node, _, _, _, _) => May(over, node)
      case Returned(node, s) => StateOk(s, w.disk.attempts, over) && LeadsOn(node, s, over)
      case Checkpointed(node, s) => StateOk(s, w.disk.attempts, over) && LeadsOn(node, s, over)
  }

  /** The edge the graph is about to follow leads to a node that may come next, or stops. */
  ghost predicate LeadsOn(node: Node, s: RunState, over: seq<Attempt>) {
    node.RunsRole() ==>
      || (LiveEdge(s, node).PauseNode? && s.status.AwaitingHuman?)
      || (LiveEdge(s, node).BlockedNode? && s.status.BlockedStatus?)
      || May(over, LiveEdge(s, node))
  }

  ghost predicate PhasesOk(w: World) {
    && AttemptsInOrder(w.disk.attempts)
    && StateOk(w.disk, w.disk.attempts, Over(w.disk))
    && StepOk(w)
  }

  // ----- attempts that grow -----

  /** Each attempt is still there, or is an unfinished one that was finished. */
  ghost predicate Continues(before: seq<Attempt>, after: seq<Attempt>) {
    && |before| <= |after|
    && forall k :: 0 <= k < |before| ==>
         after[k].node == before[k].node && (before[k].outcome.Unfinished? || after[k] == before[k])
  }

  lemma EarnedStays(before: seq<Attempt>, after: seq<Attempt>, node: Node)
    requires Continues(before, after) && Earned(before, node)
    ensures Earned(after, node)
  {
    forall review | Accepted(before, review) ensures Accepted(after, review) {
      var k :| 0 <= k < |before| && before[k].node == review && before[k].outcome.Succeeded?;
      assert after[k] == before[k];
    }
  }

  lemma NamesStay(s: RunState, before: seq<Attempt>, after: seq<Attempt>)
    requires NamesEarned(s, before) && Continues(before, after)
    ensures NamesEarned(s, after)
  {
    forall i | 0 <= i < |s.interrupts| ensures NameEarned(s.interrupts[i].next, after) {
      EarnedStays(before, after, s.interrupts[i].next.value);
    }
    forall i | 0 <= i < |s.rejections| ensures Earned(after, s.rejections[i]) {
      EarnedStays(before, after, s.rejections[i]);
    }
    if s.resumeTarget.Some? && s.resumeTarget.value.RunsRole() { EarnedStays(before, after, s.resumeTarget.value); }
    if s.progress.Some? { EarnedStays(before, after, s.progress.value.nextNode); }
  }

  /** What a finished attempt leads to. */
  lemma OnwardMay(over: seq<Attempt>, a: Attempt)
    requires May(over, a.node) && a.node.RunsRole()
    ensures May(over + [a], a.node) && May(over + [a], Reviewed(a.node))
    ensures !a.node.IsReviewer() || a.outcome.Succeeded? ==> May(over + [a], Onward(a.node))
    ensures a.blocked ==> EndsBlocked(over + [a])
  {
    var longer := over + [a];
    assert longer[|over|] == a;
    assert Continues(over, longer);
    EarnedStays(over, longer, a.node);
    assert Accepted(longer, a.node) <== a.outcome.Succeeded?;
  }

  // ----- the steps of a process -----

  /** The labels and records a state is judged by. */
  ghost predicate SameLabels(a: RunState, b: RunState) {
    && b == a.(handoff := b.handoff)
    && b.HandoffCancelled() == a.HandoffCancelled()
  }

  lemma LabelsKeep(a: RunState, b: RunState, attempts: seq<Attempt>, over: seq<Attempt>)
    requires StateOk(a, attempts, over) && SameLabels(a, b)
    ensures StateOk(b, attempts, over)
  {
  }

  lemma EnterOrder(w: World, node: Node, s: RunState)
    requires PhasesOk(w) && ProcessOk(w) && w.process == Some(Entering(node, s))
    ensures PhasesOk(EnterNode(w, node, s))
  {
    if !node.RunsRole() { TerminalOrder(node, s, w.disk.attempts, Over(w.disk)); }
  }

  /** A terminal node only sets its label. */
  lemma TerminalOrder(node: Node, s: RunState, attempts: seq<Attempt>, over: seq<Attempt>)
    requires StateOk(s, attempts, over) && !node.RunsRole() && (node.BlockedNode? ==> s.status.BlockedStatus?)
    requires node.DoneNode? ==> May(over, DoneNode) && !s.status.BlockedStatus?
    requires node.PauseNode? ==> s.status.AwaitingHuman?
    ensures node.DoneNode? ==> StateOk(s.(status := DoneStatus, phase := At(DoneNode)), attempts, over)
    ensures node.PauseNode? ==> StateOk(s.(status := AwaitingHuman, phase := At(PauseNode)), attempts, over)
    ensures node.BlockedNode? ==> StateOk(s.(status := BlockedStatus), attempts, over)
  {
    assert node.BlockedNode? ==> s.(status := BlockedStatus) == s;
  }

  lemma GateOrder(w: World, p: Process, current: Option<Observation>, id: Id)
    requires PhasesOk(w) && ProcessOk(w) && w.process == Some(p) && p.Looping?
    ensures PhasesOk(PassGate(w, p, current, id))
  {
    var h := GateShapes(w, p, current, id);
    var s := p.s.(handoff := h);
    SameCancelled(p.s, s);
    LabelsKeep(p.s, s, w.disk.attempts, Over(w.disk));
    assert Over(s) == Over(w.disk) && s.attempts == w.disk.attempts;
  }

  lemma SameCancelled(a: RunState, b: RunState)
    requires b == a.(handoff := b.handoff) && b.History().corrections == a.History().corrections
    ensures SameLabels(a, b)
  {
  }

  lemma BudgetPauseOrder(w: World, p: Process)
    requires PhasesOk(w) && ProcessOk(w) && w.process == Some(p) && p.Looping?
    ensures PhasesOk(PauseForBudget(w, p))
  {
    var s := PausedBy(p.s, BudgetExceeded, p.node);
    assert Over(s) == Over(w.disk);
  }

  /** The created save continues the attempts with one at a node that may come next. */
  lemma CreateOrder(w: World, p: Process, newId: Id, start: int)
    requires PhasesOk(w) && WorldOk(w, start) && w.process == Some(p) && p.Looping?
    requires !MustPauseForBudget(p.s, p.correction) && FreshExecution(w, newId)
    ensures PhasesOk(CreateAttempt(w, p, newId))
  {
    if p.s.progress.Some? && p.s.progress.value.stage.AttemptCreated? {
      ReuseOrder(w, p, newId, start);
    } else {
      NewOrder(w, p, newId, start);
    }
  }

  lemma ReuseOrder(w: World, p: Process, newId: Id, start: int)
    requires PhasesOk(w) && WorldOk(w, start) && w.process == Some(p) && p.Looping?
    requires p.s.progress.Some? && p.s.progress.value.stage.AttemptCreated?
    ensures PhasesOk(CreateAttempt(w, p, newId))
  {
    var previous := FindAttempt(p.s.attempts, p.s.progress.value.execution.value);
    if previous.Some? { SavedOrder(w, p, p.s, previous.value.id); }
  }

  lemma NewOrder(w: World, p: Process, newId: Id, start: int)
    requires PhasesOk(w) && WorldOk(w, start) && w.process == Some(p) && p.Looping?
    requires !(p.s.progress.Some? && p.s.progress.value.stage.AttemptCreated?)
    ensures PhasesOk(CreateAttempt(w, p, newId))
  {
    var a := NewAttempt(p.s, p.node, newId, w.clock);
    NotYetUnfinished(w, p, start);
    AppendOrder(p.s.attempts, a);
    assert (p.s.attempts + [a])[..|p.s.attempts|] == Over(w.disk);
    SavedOrder(w, p, p.s.(attempts := p.s.attempts + [a]), newId);
  }

  lemma NotYetUnfinished(w: World, p: Process, start: int)
    requires WorldOk(w, start) && w.process == Some(p) && p.Looping?
    requires !(p.s.progress.Some? && p.s.progress.value.stage.AttemptCreated?)
    ensures p.s.attempts == w.disk.attempts && Finished(w.disk) == |w.disk.attempts|
  {
  }

  lemma AppendOrder(attempts: seq<Attempt>, a: Attempt)
    requires AttemptsInOrder(attempts) && a.node.RunsRole() && May(attempts, a.node)
    ensures AttemptsInOrder(attempts + [a]) && Continues(attempts, attempts + [a])
  {
    var longer := attempts + [a];
    forall k | 0 <= k < |longer| ensures longer[k].node.RunsRole() && May(longer[..k], longer[k].node) {
      if k < |attempts| { assert longer[..k] == attempts[..k]; } else { assert longer[..k] == attempts; }
    }
  }

  /** The created save, whether the attempt is new or taken over. */
  lemma SavedOrder(w: World, p: Process, s: RunState, id: Id)
    requires PhasesOk(w) && ProcessOk(w) && w.process == Some(p) && p.Looping?
    requires s == p.s.(attempts := s.attempts) && s.attempts != []
    requires AttemptsInOrder(s.attempts) && Continues(w.disk.attempts, s.attempts)
    requires s.attempts[..|s.attempts| - 1] == Over(w.disk)
    ensures PhasesOk(SaveCreated(w, p, s, id))
  {
    NamesStay(p.s, w.disk.attempts, s.attempts);
    var w' := SaveCreated(w, p, s, id);
    assert Over(w'.disk) == Over(w.disk);
  }

  lemma StartOrder(w: World, p: Process)
    requires PhasesOk(w) && ProcessOk(w) && w.process == Some(p) && p.Created?
    ensures PhasesOk(StartRole(w, p))
  {
    assert Over(StartRole(w, p).disk) == Over(w.disk);
  }

  lemma CheckpointOrder(w: World, p: Process)
    requires PhasesOk(w) && ProcessOk(w) && w.process == Some(p) && p.Returned?
    ensures PhasesOk(CheckpointNode(w, p))
  {
    assert Over(CheckpointNode(w, p).disk) == Over(w.disk);
  }

  lemma FollowOrder(w: World, p: Process)
    requires PhasesOk(w) && ProcessOk(w) && w.process == Some(p) && p.Checkpointed?
    ensures PhasesOk(FollowEdge(w, p))
  {
  }

  lemma LimitOrder(w: World, p: Process)
    requires PhasesOk(w) && ProcessOk(w) && w.process == Some(p) && p.Checkpointed?
    ensures PhasesOk(StopAtLimit(w))
  {
    assert Over(StopAtLimit(w).disk) == Over(w.disk);
    LimitedOk(w.disk, w.disk.attempts, Over(w.disk));
  }

  /** A run that neither waits nor is blocked may be blocked by the limit wherever it goes on. */
  lemma LimitedOk(s: RunState, attempts: seq<Attempt>, over: seq<Attempt>)
    requires StateOk(s, attempts, over)
    ensures !s.status.AwaitingHuman? && !s.status.BlockedStatus? ==>
      StateOk(s.(status := BlockedStatus, phase := RecursionLimitExceeded), attempts, over)
  {
  }

  // ----- finishing an attempt -----

  /** The finished attempt joins those that are over. */
  lemma FinishedOver(w: World, p: Process, o: RoleOutcome, start: int)
    requires WorldOk(w, start) && w.process == Some(p) && p.Running? && OutcomeFits(p.node, o)
    ensures var w', f := FinishRole(w, p, o), FinishedAttempt(p.s, p, o);
      && w'.disk.attempts == Over(w.disk) + [f] && Over(w'.disk) == w'.disk.attempts
      && Continues(w.disk.attempts, w'.disk.attempts)
      && f.node == p.node && f.outcome == RecordedOutcome(o) && f.blocked == o.TypedBlocked?
  {
    FinishedDisk(w, p, o, start);
    FinishedAll(w, p, o);
    FinishedIs(w, p, o, start);
    ReplacedContinues(w.disk.attempts, Finished(w.disk), FinishedAttempt(p.s, p, o));
  }

  lemma ReplacedContinues(attempts: seq<Attempt>, n: nat, f: Attempt)
    requires n + 1 == |attempts| && attempts[n].outcome.Unfinished? && f.node == attempts[n].node
    ensures attempts[n := f] == attempts[..n] + [f] && attempts[n := f][..n + 1] == attempts[n := f]
    ensures Continues(attempts, attempts[n := f])
  {
  }

  lemma FinishedIs(w: World, p: Process, o: RoleOutcome, start: int)
    requires WorldOk(w, start) && w.process == Some(p) && p.Running? && OutcomeFits(p.node, o)
    ensures Finished(w.disk) + 1 == |w.disk.attempts| && w.disk.attempts[Finished(w.disk)].outcome.Unfinished?
    ensures w.disk.attempts[Finished(w.disk)].node == p.node
  {
  }

  lemma FinishedInOrder(w: World, p: Process, o: RoleOutcome, start: int)
    requires PhasesOk(w) && WorldOk(w, start) && w.process == Some(p) && p.Running? && OutcomeFits(p.node, o)
    ensures AttemptsInOrder(FinishRole(w, p, o).disk.attempts)
  {
    FinishedOver(w, p, o, start);
    var over, f := Over(w.disk), FinishedAttempt(p.s, p, o);
    forall k | 0 <= k < |over| ensures over[k].node.RunsRole() && May(over[..k], over[k].node) {
      assert over[..k] == w.disk.attempts[..k];
    }
    AppendOrder(over, f);
  }

  /** The records of a finished role still name only what was earned. */
  lemma FinishNames(s: RunState, node: Node, o: RoleOutcome, correcting: bool, attempts: seq<Attempt>)
    requires NamesEarned(s, attempts) && node.RunsRole() && OutcomeFits(node, o)
    requires Earned(attempts, node) && Earned(attempts, Reviewed(node))
    requires !node.IsReviewer() ==> Earned(attempts, Onward(node))
    ensures NamesEarned(AfterRole(s, node, o, correcting), attempts)
  {
    FinishLogs(s, node, o, correcting, attempts);
    FinishLabels(s, node, o, correcting);
    LoggedNames(s, AfterRole(s, node, o, correcting), node, attempts);
  }

  lemma FinishLabels(s: RunState, node: Node, o: RoleOutcome, correcting: bool)
    requires node.RunsRole() && OutcomeFits(node, o)
    ensures var after := AfterRole(s, node, o, correcting);
      && (after.rejections == s.rejections || (after.rejections == s.rejections + [node] && node.IsReviewer()))
      && (after.resumeTarget == s.resumeTarget || after.resumeTarget == Some(node)) && after.progress == s.progress
  {
  }

  lemma LoggedNames(s: RunState, r: RunState, node: Node, attempts: seq<Attempt>)
    requires NamesEarned(s, attempts) && node.RunsRole() && Earned(attempts, node) && r.progress == s.progress
    requires r.rejections == s.rejections || (r.rejections == s.rejections + [node] && node.IsReviewer())
    requires r.resumeTarget == s.resumeTarget || r.resumeTarget == Some(node)
    requires r.interrupts == s.interrupts
      || exists i :: r.interrupts == s.interrupts + [i] && NameEarned(i.next, attempts)
    ensures NamesEarned(r, attempts)
  {
  }

  lemma FinishLogs(s: RunState, node: Node, o: RoleOutcome, correcting: bool, attempts: seq<Attempt>)
    requires node.RunsRole() && OutcomeFits(node, o)
    requires Earned(attempts, node) && Earned(attempts, Reviewed(node))
    requires !node.IsReviewer() ==> Earned(attempts, Onward(node))
    ensures var after := AfterRole(s, node, o, correcting);
      || after.interrupts == s.interrupts
      || exists i :: after.interrupts == s.interrupts + [i] && NameEarned(i.next, attempts)
  {
    var after := AfterRole(s, node, o, correcting);
    if after.interrupts != s.interrupts {
      assert after.interrupts == s.interrupts + [after.interrupts[|s.interrupts|]];
    }
  }

  /** What finishing makes of the role's state, but for the attempt and the spent authorization. */
  function Routed(p: Process, o: RoleOutcome): RunState
    requires p.Running? && p.node.RunsRole()
  {
    var after := AfterRole(p.s, p.node, o, p.correctionAttempt != 0);
    if Corrects(p, o) then after.(progress := Some(Progress(AttemptCompleted, p.node, Some(p.id), Some(o.context), 1)))
    else after.(progress := Some(Progress(AttemptCompleted, Successor(after, p.node), Some(p.id), None, 0)))
  }

  lemma RoutedNext(p: Process, o: RoleOutcome, over: seq<Attempt>)
    requires p.Running? && p.node.RunsRole() && OutcomeFits(p.node, o) && Active(p.s)
    requires May(over, p.node) && May(over, Reviewed(p.node))
    requires !p.node.IsReviewer() || o == Advanced(None) ==> May(over, Onward(p.node))
    requires o.TypedBlocked? ==> EndsBlocked(over)
    ensures NextOk(Routed(p, o), over) && (!Corrects(p, o) ==> LeadsOn(p.node, Routed(p, o), over))
  {
  }

  lemma FinishIsRouted(w: World, p: Process, o: RoleOutcome)
    requires p.Running? && p.node.RunsRole() && OutcomeFits(p.node, o)
    ensures var w' := FinishRole(w, p, o);
      && w'.disk == Routed(p, o).(attempts := w'.disk.attempts, intent := w'.disk.intent)
      && w'.process == Some(if Corrects(p, o) then Looping(p.node, w'.disk, Some(o.context), 1, !p.node.IsDriver())
                            else Returned(p.node, w'.disk))
  {
  }

  lemma RoutesKeep(a: RunState, b: RunState, node: Node, attempts: seq<Attempt>, over: seq<Attempt>)
    requires b == a.(attempts := b.attempts, intent := b.intent)
    ensures StateOk(a, attempts, over) ==> StateOk(b, attempts, over)
    ensures LeadsOn(node, a, over) ==> LeadsOn(node, b, over)
  {
  }

  lemma FinishOrder(w: World, p: Process, o: RoleOutcome, start: int)
    requires PhasesOk(w) && WorldOk(w, start) && w.process == Some(p) && p.Running? && OutcomeFits(p.node, o)
    ensures PhasesOk(FinishRole(w, p, o))
  {
    FinishedInOrder(w, p, o, start);
    FinishStateOk(w, p, o, start);
    FinishIsRouted(w, p, o);
    FinishedOver(w, p, o, start);
  }

  lemma FinishedMay(w: World, p: Process, o: RoleOutcome, start: int)
    requires PhasesOk(w) && WorldOk(w, start) && w.process == Some(p) && p.Running? && OutcomeFits(p.node, o)
    ensures var attempts := FinishRole(w, p, o).disk.attempts;
      && May(attempts, p.node) && May(attempts, Reviewed(p.node))
      && (!p.node.IsReviewer() || o == Advanced(None) ==> May(attempts, Onward(p.node)))
      && (o.TypedBlocked? ==> EndsBlocked(attempts))
  {
    FinishedOver(w, p, o, start);
    OnwardMay(Over(w.disk), FinishedAttempt(p.s, p, o));
  }

  lemma FinishStateOk(w: World, p: Process, o: RoleOutcome, start: int)
    requires PhasesOk(w) && WorldOk(w, start) && w.process == Some(p) && p.Running? && OutcomeFits(p.node, o)
    ensures var s := FinishRole(w, p, o).disk;
      && StateOk(s, s.attempts, s.attempts) && (!Corrects(p, o) ==> LeadsOn(p.node, s, s.attempts))
      && May(s.attempts, p.node)
  {
    var s := FinishRole(w, p, o).disk;
    FinishedMay(w, p, o, start);
    RoutedNames(w, p, o, start);
    RoutedNext(p, o, s.attempts);
    FinishIsRouted(w, p, o);
    RoutesKeep(Routed(p, o), s, p.node, s.attempts, s.attempts);
  }

  lemma RoutedNames(w: World, p: Process, o: RoleOutcome, start: int)
    requires PhasesOk(w) && WorldOk(w, start) && w.process == Some(p) && p.Running? && OutcomeFits(p.node, o)
    ensures NamesEarned(Routed(p, o), FinishRole(w, p, o).disk.attempts)
  {
    var attempts := FinishRole(w, p, o).disk.attempts;
    FinishedOver(w, p, o, start);
    FinishedMay(w, p, o, start);
    NamesStay(w.disk, w.disk.attempts, attempts);
    FinishNames(p.s, p.node, o, p.correctionAttempt != 0, attempts);
    RoutedProgress(p, o, attempts);
  }

  lemma RoutedProgress(p: Process, o: RoleOutcome, attempts: seq<Attempt>)
    requires p.Running? && p.node.RunsRole() && OutcomeFits(p.node, o) && Active(p.s)
    requires Earned(attempts, p.node) && Earned(attempts, Reviewed(p.node))
    requires !p.node.IsReviewer() || o == Advanced(None) ==> Earned(attempts, Onward(p.node))
    requires NamesEarned(AfterRole(p.s, p.node, o, p.correctionAttempt != 0), attempts)
    ensures NamesEarned(Routed(p, o), attempts)
  {
  }

  // ----- human operations -----

  /** A decision names no new node; it may only drop the cursor. */
  lemma DecisionNames(s: RunState, cmd: ResumeCommand, attempts: seq<Attempt>)
    requires NamesEarned(s, attempts)
    ensures match PrepareResume(s, cmd)
      case Prepared(r) => NamesEarned(r, attempts)
      case _ => true
  {
  }

  lemma DecisionNext(s: RunState, cmd: ResumeCommand, over: seq<Attempt>)
    requires NextOk(s, over)
    ensures match PrepareResume(s, cmd)
      case Prepared(r) => NextOk(r, over)
      case _ => true
  {
  }

  /** The resumed state goes on where the saved one names, and a typed block may go anywhere earned. */
  lemma ResumedOk(s: RunState, attempts: seq<Attempt>, over: seq<Attempt>)
    requires StateOk(s, attempts, over) && !s.HandoffCancelled() && SameEarned(attempts, over)
    ensures var r := ResumeState(s, InferResumeTarget(s));
      StateOk(r, attempts, over) && May(over, EntryRouter(r))
  {
  }

  /** An unfinished attempt earns nothing yet. */
  ghost predicate SameEarned(attempts: seq<Attempt>, over: seq<Attempt>) {
    forall node :: Earned(attempts, node) <==> Earned(over, node)
  }

  lemma OverEarns(s: RunState, start: int)
    requires RecordOk(s, start)
    ensures SameEarned(s.attempts, Over(s))
  {
    forall review | Accepted(s.attempts, review) ensures Accepted(Over(s), review) {
      var k :| 0 <= k < |s.attempts| && s.attempts[k].node == review && s.attempts[k].outcome.Succeeded?;
      assert Over(s)[k] == s.attempts[k];
    }
    LaterEarns(s);
  }

  lemma DecisionKeepsOver(s: RunState, cmd: ResumeCommand, start: int)
    requires RecordOk(s, start)
    ensures match PrepareResume(s, cmd)
      case Prepared(r) => r.attempts == s.attempts && Finished(r) == Finished(s)
      case _ => true
  {
    PreparedShape(s, cmd, start);
  }

  lemma ResumeOrder(w: World, cmd: ResumeCommand, start: int)
    requires PhasesOk(w) && WorldOk(w, start) && w.process.None?
    ensures PhasesOk(ResumeRun(w, cmd))
  {
    var over := Over(w.disk);
    DecisionNames(w.disk, cmd, w.disk.attempts);
    DecisionNext(w.disk, cmd, over);
    DecisionKeepsOver(w.disk, cmd, start);
    NeverCancelled(w.disk, cmd);
    OverEarns(w.disk, start);
    match PrepareResume(w.disk, cmd)
    case ResumeRefused =>
    case ReplayCompleted =>
    case Prepared(prepared) =>
      AuthorizationShape(prepared, cmd, w.clock);
      match AdmitAuthorization(prepared, cmd, w.clock)
      case Refused =>
      case Ok(r) =>
        SameCancelled(prepared, r);
        LabelsKeep(prepared, r, w.disk.attempts, over);
        ResumedOk(r, w.disk.attempts, over);
  }

  lemma HandoffOrder(w: World, h: Option<Handoff>)
    requires PhasesOk(w) && w.process.None?
    requires w.disk.(handoff := h).History().corrections == w.disk.History().corrections
    ensures PhasesOk(w.(disk := w.disk.(handoff := h)))
  {
    var s := w.disk.(handoff := h);
    SameCancelled(w.disk, s);
    LabelsKeep(w.disk, s, w.disk.attempts, Over(w.disk));
    assert Over(s) == Over(w.disk);
  }

  lemma SealOrder(w: World, obs: Observation, id: Id)
    requires PhasesOk(w) && w.process.None?
    ensures PhasesOk(SaveIfOk(w, SealArchitect(w.disk, obs, id, w.clock)))
    ensures PhasesOk(SaveIfOk(w, SealCompact(w.disk, obs, id, w.clock)))
  {
    ReconcileFrame(w.disk, obs, true, None, id, w.clock);
    ReconcileFrame(w.disk, obs, false, None, id, w.clock);
    var full := SealArchitect(w.disk, obs, id, w.clock);
    var compact := SealCompact(w.disk, obs, id, w.clock);
    if full.Ok? { HandoffOrder(w, full.value.handoff); }
    if compact.Ok? { HandoffOrder(w, compact.value.handoff); }
  }

  lemma QueueOrder(w: World, cmd: QueueCommand)
    requires PhasesOk(w) && w.process.None?
    ensures PhasesOk(SaveIfOk(w, PersistIntervention(w.disk, cmd)))
  {
    var r := SaveIfOk(w, PersistIntervention(w.disk, cmd)).disk;
    assert Over(r) == Over(w.disk);
  }

  lemma ChangeOrder(w: World, cmd: ChangeCommand, start: int)
    requires PhasesOk(w) && WorldOk(w, start) && w.process.None?
    ensures PhasesOk(ApplyChange(w, cmd))
  {
    ChangeShape(w.disk, cmd, w.clock);
    match ChangeHandoff(w.disk, cmd, w.clock)
    case Refused =>
    case Ok(r) => if r != w.disk { ChangedOrder(w.disk, r, cmd, w.clock, start); }
  }

  lemma ChangedOrder(s: RunState, r: RunState, cmd: ChangeCommand, now: nat, start: int)
    requires RecordOk(s, start) && StateOk(s, s.attempts, Over(s)) && ChangeHandoff(s, cmd, now) == Ok(r) && r != s
    ensures StateOk(r, s.attempts, Over(s)) && r.attempts == s.attempts && Over(r) == Over(s)
  {
    ChangeShape(s, cmd, now);
    if cmd.kind.ApproveCorrection? {
      ApprovedOrder(s, r, cmd, now, start);
    }
  }

  /** An approval only changes the handoff, or also waits for a new authorization at a Driver. */
  lemma ApprovalShape(s: RunState, r: RunState, cmd: ChangeCommand, now: nat)
    requires ApproveChange(s, cmd, now) == Ok(r)
    ensures !r.HandoffCancelled() || cmd.kind.CancelHandoff?
    ensures ApprovalTarget(s).None? ==> r == s.(handoff := r.handoff)
    ensures ApprovalTarget(s).Some? ==>
      && ApprovalTarget(s).value.IsDriver()
      && r == WaitingAt(s.(handoff := r.handoff), ApprovalTarget(s).value)
  {
    var change := Some((cmd.corrected.value, CorrectionOf(cmd, now)));
    ReconcileFrame(s, cmd.current.value, false, change, cmd.reconciliation, now);
  }

  function WaitingAt(s: RunState, node: Node): RunState {
    LogInterrupt(s, ManualCheckpoint, node).(phase := At(PauseNode), intent := None)
  }

  lemma TargetEarned(s: RunState)
    requires StateOk(s, s.attempts, Over(s)) && !s.HandoffCancelled()
    ensures ApprovalTarget(s).Some? && ApprovalTarget(s).value.IsDriver() ==>
      Earned(s.attempts, ApprovalTarget(s).value)
  {
  }

  lemma WaitingOk(s: RunState, node: Node, attempts: seq<Attempt>, over: seq<Attempt>)
    requires StateOk(s, attempts, over) && !s.HandoffCancelled()
    requires node.IsDriver() && Earned(attempts, node) && SameEarned(attempts, over)
    ensures StateOk(WaitingAt(s, node), attempts, over)
  {
  }

  lemma ApprovedOrder(s: RunState, r: RunState, cmd: ChangeCommand, now: nat, start: int)
    requires RecordOk(s, start) && StateOk(s, s.attempts, Over(s)) && !s.HandoffCancelled()
    requires ApproveChange(s, cmd, now) == Ok(r) && cmd.kind.ApproveCorrection?
    ensures StateOk(r, s.attempts, Over(s))
  {
    ApprovalShape(s, r, cmd, now);
    HandoffKeepsState(s, r.handoff, s.attempts, Over(s));
    if ApprovalTarget(s).Some? {
      OverEarns(s, start);
      TargetEarned(s);
      WaitingOk(s.(handoff := r.handoff), ApprovalTarget(s).value, s.attempts, Over(s));
    }
  }

  lemma HandoffKeepsState(s: RunState, h: Option<Handoff>, attempts: seq<Attempt>, over: seq<Attempt>)
    requires StateOk(s, attempts, over) && !s.HandoffCancelled()
    ensures StateOk(s.(handoff := h), attempts, over)
  {
  }

  lemma LaterEarns(s: RunState)
    ensures forall node :: Earned(Over(s), node) ==> Earned(s.attempts, node)
  {
    forall review | Accepted(Over(s), review) ensures Accepted(s.attempts, review) {
      var k :| 0 <= k < |Over(s)| && Over(s)[k].node == review && Over(s)[k].outcome.Succeeded?;
      assert s.attempts[k] == Over(s)[k];
    }
  }

  // ----- whole runs -----

  lemma ProcessOrder(w: World, e: Event, p: Process, start: int)
    requires PhasesOk(w) && WorldOk(w, start) && Enabled(w, e) && w.process == Some(p)
    ensures PhasesOk(Perform(w, e))
  {
    if e.Gate? {
      GateOrder(w, p, e.current, e.id);
    } else if e.Create? {
      CreateOrder(w, p, e.newId, start);
    } else if e.Finish? {
      FinishOrder(w, p, e.outcome, start);
    } else {
      QuietOrder(w, e, p);
    }
  }

  lemma QuietOrder(w: World, e: Event, p: Process)
    requires PhasesOk(w) && ProcessOk(w) && Enabled(w, e) && w.process == Some(p)
    requires !e.Gate? && !e.Create? && !e.Finish?
    ensures PhasesOk(Perform(w, e))
  {
    if e.Enter? {
      EnterOrder(w, p.node, p.s);
    } else if e.BudgetPause? {
      BudgetPauseOrder(w, p);
    } else if e.Start? {
      StartOrder(w, p);
    } else {
      LeavingOrder(w, e, p);
    }
  }

  lemma LeavingOrder(w: World, e: Event, p: Process)
    requires PhasesOk(w) && ProcessOk(w) && Enabled(w, e) && w.process == Some(p)
    requires e.Checkpoint? || e.Follow? || e.LimitReached? || e.Crash?
    ensures PhasesOk(Perform(w, e))
  {
    if e.Checkpoint? {
      CheckpointOrder(w, p);
    } else if e.Follow? {
      FollowOrder(w, p);
    } else if e.LimitReached? {
      LimitOrder(w, p);
    } else {
      LostOrder(w);
    }
  }

  lemma LostOrder(w: World)
    requires PhasesOk(w)
    ensures PhasesOk(Halted(w))
  {
  }

  lemma HumanOrder(w: World, e: Event, start: int)
    requires PhasesOk(w) && WorldOk(w, start) && Enabled(w, e) && w.process.None?
    ensures PhasesOk(Perform(w, e))
  {
    match e
    case Resume(cmd) => ResumeOrder(w, cmd, start);
    case Queue(cmd) => QueueOrder(w, cmd);
    case SealFull(obs, id) => SealOrder(w, obs, id);
    case SealDirect(obs, id) => SealOrder(w, obs, id);
    case Change(cmd) => ChangeOrder(w, cmd, start);
  }

  lemma StepOrder(w: World, e: Event, start: int)
    requires PhasesOk(w) && WorldOk(w, start)
    ensures PhasesOk(Step(w, e))
  {
    if Enabled(w, e) {
      if w.process.Some? { ProcessOrder(w, e, w.process.value, start); } else { HumanOrder(w, e, start); }
      ClockOrder(Perform(w, e), w.clock + 1);
    }
  }

  lemma ClockOrder(w: World, clock: nat)
    requires PhasesOk(w)
    ensures PhasesOk(w.(clock := clock))
  {
  }

  lemma {:induction false} ExecOrder(w: World, events: seq<Event>, start: int)
    requires PhasesOk(w) && WorldOk(w, start)
    ensures PhasesOk(Exec(w, events))
    decreases |events|
  {
    if events != [] {
      StepOrder(w, events[0], start);
      ExecKeeps(w, [events[0]], start);
      assert Exec(w, [events[0]]) == Exec(Step(w, events[0]), [events[0]][1..]);
      ExecOrder(Step(w, events[0]), events[1..], start);
    }
  }

  // ----- the results -----

  /** The `k`-th attempt, read against those before it. */
  ghost predicate InPhase(attempts: seq<Attempt>, k: nat)
    requires k < |attempts|
  {
    var node, before := attempts[k].node, attempts[..k];
    && node.RunsRole()
    && (node.DriverGreen? || node.ReviewerGreen? ==> Accepted(before, ReviewerRed))
    && (node.Refactorer? || node.ReviewerRefactor? ==> Accepted(before, ReviewerGreen))
    && (node.ReviewerRed? ==> Follows(attempts, k, DriverRed))
    && (node.ReviewerGreen? ==> Follows(attempts, k, DriverGreen))
    && (node.ReviewerRefactor? ==> Follows(attempts, k, Refactorer))
  }

  /** Directly after the role, after itself, or after a typed block. */
  ghost predicate Follows(attempts: seq<Attempt>, k: nat, role: Node)
    requires k < |attempts|
  {
    k > 0 && (attempts[k - 1].node == role || attempts[k - 1].node == attempts[k].node || attempts[k - 1].blocked)
  }

  /**
   In every run, with any human changes, crashes and replays: no phase is entered before the review it
   builds on was accepted, and every review directly follows the role it looks at, a try of itself, or a
   typed block.  A run whose cursor is at the end had all three reviews accepted, in order.
   */
  lemma PhasesInOrder(limit: int, used: int, admission: Option<Admission>, events: seq<Event>)
    ensures var s := Exec(StartRun(limit, used, admission), events).disk;
      && (forall k: nat :: k < |s.attempts| ==> InPhase(s.attempts, k))
      && (AtEnd(s) ==> exists a, b, c ::
            && 0 <= a < b < c < |s.attempts|
            && s.attempts[a].node == ReviewerRed && s.attempts[a].outcome.Succeeded?
            && s.attempts[b].node == ReviewerGreen && s.attempts[b].outcome.Succeeded?
            && s.attempts[c].node == ReviewerRefactor && s.attempts[c].outcome.Succeeded?)
  {
    var w := StartRun(limit, used, admission);
    StartOk(limit, used, admission);
    assert PhasesOk(w);
    ExecOrder(w, events, used);
    var attempts := Exec(w, events).disk.attempts;
    forall k: nat | k < |attempts| ensures InPhase(attempts, k) { assert May(attempts[..k], attempts[k].node); }
    if AtEnd(Exec(w, events).disk) { AllAccepted(attempts); }
  }

  lemma AllAccepted(attempts: seq<Attempt>)
    requires Accepted(attempts, ReviewerRefactor) && forall k: nat :: k < |attempts| ==> InPhase(attempts, k)
    ensures exists a, b, c ::
      && 0 <= a < b < c < |attempts|
      && attempts[a].node == ReviewerRed && attempts[a].outcome.Succeeded?
      && attempts[b].node == ReviewerGreen && attempts[b].outcome.Succeeded?
      && attempts[c].node == ReviewerRefactor && attempts[c].outcome.Succeeded?
  {
    var c :| 0 <= c < |attempts| && attempts[c].node == ReviewerRefactor && attempts[c].outcome.Succeeded?;
    assert InPhase(attempts, c);
    var b :| 0 <= b < c && attempts[..c][b].node == ReviewerGreen && attempts[..c][b].outcome.Succeeded?;
    assert InPhase(attempts, b);
    var a :| 0 <= a < b && attempts[..b][a].node == ReviewerRed && attempts[..b][a].outcome.Succeeded?;
    assert attempts[a] == attempts[..b][a] && attempts[b] == attempts[..c][b];
  }

  /** What comes directly after an attempt, given what its role came to. */
  predicate NextBy(node: Node, o: RoleOutcome, next: Node) {
    match o
    case Advanced(trigger) =>
      (match node
       case Architect => next == DriverRed
       case DriverRed => next == ReviewerRed
       case DriverGreen => next == ReviewerGreen
       case Refactorer => next == ReviewerRefactor
       case ReviewerRed => next == if trigger.None? then DriverGreen else DriverRed
       case ReviewerGreen => next == if trigger.None? then Refactorer else DriverGreen
       case ReviewerRefactor => trigger.Some? && next == Refactorer
       case _ => false)
    case ReviewRejected(_) =>
      (match node
       case ReviewerRed => next == DriverRed
       case ReviewerGreen => next == DriverGreen
       case ReviewerRefactor => next == Refactorer
       case _ => next == node)
    case _ => next == node
  }

  /**
   In a run that keeps its turn each attempt is followed by the role that its outcome calls for: an
   accepted review by the next phase, a rejected one by the role it looked at, a failure by itself.
   */
  lemma OutcomesLeadOn(
    limit: int, used: int, admission: Option<Admission>, events: seq<Event>, o: Oracle, k: nat)
    requires RegularRun(StartRun(limit, used, admission), events, o)
    requires k + 1 < |Exec(StartRun(limit, used, admission), events).disk.attempts|
    ensures var attempts := Exec(StartRun(limit, used, admission), events).disk.attempts;
      NextBy(attempts[k].node, o(k), attempts[k + 1].node)
  {
    CrashTransparency(limit, used, admission, events, o);
    PhasesInOrder(limit, used, admission, events);
    var attempts := Exec(StartRun(limit, used, admission), events).disk.attempts;
    assert InPhase(attempts, k) && InPhase(attempts, k + 1);
    assert Uninterrupted(o, k + 1) == NextTurn(Uninterrupted(o, k), o(k));
  }
}

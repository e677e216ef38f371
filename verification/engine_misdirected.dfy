/**
 A reachable run in which replaying a pending authorization continues at the wrong node.
 `Replays.ReplayReturnsIff` says exactly when that happens.
 */
module MisdirectedReplay {
  import opened Options
  import opened RunModel
  import opened Handoffs
  import opened Engine
  import opened RunRecords

  const ONLY_CONTRACT := Contract(5, None, 1, Some(2), {DriverRed, DriverGreen})
  const EVIDENCE := Observation(true, {}, Snapshot(2, Some(1), 3, 4), {}, Some(ONLY_CONTRACT), true)

  function Resolve(action: Option<Id>, generated: Id): ResumeCommand {
    ResumeCommand(action, 7, "go on", None, None, generated, 0)
  }

  ghost predicate Reachable(w: World) {
    exists limit, used, admission, events :: Exec(StartRun(limit, used, admission), events) == w
  }

  lemma {:induction false} ExecThen(w: World, events: seq<Event>, e: Event)
    ensures Exec(w, events + [e]) == Step(Exec(w, events), e)
    decreases |events|
  {
    if events == [] {
      assert Exec(w, [e]) == Exec(Step(w, e), [e][1..]);
    } else {
      assert (events + [e])[1..] == events[1..] + [e];
      ExecThen(Step(w, events[0]), events[1..], e);
    }
  }

  const BEGINNING := StartRun(50, 0, Some(Admission(true)))

  /** `reached` holds at the start of the run and is kept by every step. */
  ghost predicate Closed(reached: World -> bool) {
    reached(BEGINNING) && forall w, e :: reached(w) ==> reached(Step(w, e))
  }

  lemma Advance(reached: World -> bool, w: World, e: Event) returns (w': World)
    requires Closed(reached) && reached(w)
    ensures w' == Step(w, e) && reached(w')
  {
    w' := Step(w, e);
  }

  lemma ReachableIsClosed()
    ensures Closed(w => Reachable(w))
  {
    assert Exec(BEGINNING, []) == BEGINNING;
    forall w, e | Reachable(w) ensures Reachable(Step(w, e)) {
      var limit, used, admission, events :| Exec(StartRun(limit, used, admission), events) == w;
      ExecThen(StartRun(limit, used, admission), events, e);
    }
  }

  const FAILED_PLAN := Attempt(1, Architect, Interrupted, false, None, 1)
  const PLAN := Attempt(2, Architect, Succeeded, false, None, 11)
  const BLOCKED_RED := Attempt(3, DriverRed, Succeeded, true, Some(5), 18)
  const RESUMED_PLAN := Action(11, InterruptResolution, 7, InterruptAt(0), Applied, "go on", None)
  const READY := Handoff([ONLY_CONTRACT], [Reconciliation(21, 5, 17, {}, EVIDENCE.snapshot, {})], [], Some(5))

  /** The Architect failed once and the run paused. */
  const PAUSED_RUN := RunState(AwaitingHuman, At(PauseNode), None, Budget(50, 1),
    [Interrupt(InfraFailure, None, Some(Architect))], [],
      Some(Progress(OutcomeCheckpointed, PauseNode, Some(1), None, 0)),
    None, [FAILED_PLAN], [], [], Some(Admission(true)), None)

  /** A human resumed it and the Architect planned. */
  const PLANNED_RUN := RunState(InProgress, DriverPhase, Some(Architect), Budget(50, 2),
    [Interrupt(InfraFailure, Some("go on"), Some(Architect))], [],
    Some(Progress(OutcomeCheckpointed, DriverRed, Some(2), None, 0)),
    Some(Intent(11, true)), [FAILED_PLAN, PLAN], [], [RESUMED_PLAN], Some(Admission(true)), None)

  /** The RED Driver reported a typed block. */
  const BLOCKED_RUN := RunState(BlockedStatus, At(DriverRed), Some(DriverRed), Budget(50, 3),
    [Interrupt(InfraFailure, Some("go on"), Some(Architect))], [],
    Some(Progress(OutcomeCheckpointed, BlockedNode, Some(3), None, 0)),
    Some(Intent(11, true)), [FAILED_PLAN, PLAN, BLOCKED_RED], [], [RESUMED_PLAN], Some(Admission(true)), Some(READY))

  const FIRST_ENTRY := RoleEntry(1, Architect, 0)
  const SECOND_ENTRY := RoleEntry(2, Architect, 2)
  const BLOCKED_WORLD := World(BLOCKED_RUN, None, 26, 4, [FIRST_ENTRY, SECOND_ENTRY, RoleEntry(3, DriverRed, 3)])

  /** The state while attempt `id` is at `stage` of a plain visit. */
  function InAttempt(s: RunState, node: Node, id: Id, now: nat, stage: Stage): RunState {
    s.(attempts := s.attempts + [NewAttempt(s, node, id, now)],
       progress := Some(Progress(stage, node, Some(id), None, 0)))
  }

  lemma CreateRuns(reached: World -> bool, w: World, p: Process, id: Id) returns (w': World)
    requires Closed(reached) && reached(w) && w.process == Some(p) && p.Looping? && p.admitted &&
      p.correction.None? && p.correctionAttempt == 0
    requires FreshExecution(w, id) && !(p.s.progress.Some? && p.s.progress.value.stage.AttemptCreated?)
    requires p.s.interventions == []
    ensures reached(w')
    ensures var s := InAttempt(p.s, p.node, id, w.clock, AttemptCreated);
      w' == Saved(w, s, Created(p.node, s, None, 0, id)).(clock := w.clock + 1)
  {
    assert MarkDelivered(p.s.actions, [], p.node) == p.s.actions;
    w' := Advance(reached, w, Create(id));
  }

  lemma StartRuns(reached: World -> bool, w: World, s: RunState, node: Node, id: Id) returns (w': World)
    requires Closed(reached) && reached(w) && w.process == Some(Created(node, s, None, 0, id))
    ensures reached(w')
    ensures var r := s.(budget := s.budget.(used := s.budget.used + 1),
                        progress := Some(Progress(AttemptStarted, node, Some(id), None, 0)));
      w' == World(r, Some(Running(node, r, None, 0, id)), w.clock + 1, w.visit,
        w.entered + [RoleEntry(id, node, w.visit)])
  {
    w' := Advance(reached, w, Start);
  }

  /** The document once attempt `a`, the last of `before + [a]`, is finished with outcome `o`. */
  function Done(s: RunState, before: seq<Attempt>, a: Attempt, o: RoleOutcome, stage: Stage): RunState
    requires a.node.RunsRole()
  {
    var after := AfterRole(s, a.node, o, false);
    after.(
      attempts := before + [a.(outcome := RecordedOutcome(o), blocked := o.TypedBlocked?)],
      progress := Some(Progress(stage, Successor(after, a.node), Some(a.id), None, 0)),
      intent := if after.intent.Some? then Some(after.intent.value.(completed := true)) else None)
  }

  lemma FinishRuns(reached: World -> bool, w: World, s: RunState, before: seq<Attempt>, a: Attempt, o: RoleOutcome)
    returns (w': World)
    requires Closed(reached) && reached(w) && w.process == Some(Running(a.node, s, None, 0, a.id)) && a.node.RunsRole()
    requires OutcomeFits(a.node, o) && !o.ContractViolation? && Active(s)
    requires s.attempts == before + [a] && UniqueAttempts(s.attempts)
    ensures reached(w')
    ensures var r := Done(s, before, a, o, AttemptCompleted);
      w' == World(r, Some(Returned(a.node, r)), w.clock + 1, w.visit + 1, w.entered)
  {
    var p := Running(a.node, s, None, 0, a.id);
    assert s.attempts[|before|] == a;
    FindUnique(s.attempts, a);
    var f := FinishedAttempt(s, p, o);
    AfterRoleFrame(s, a.node, o, false);
    assert s.attempts[|s.attempts| - 1].id == f.id;
    ReplaceLast(s.attempts, f);
    assert s.attempts[|before| := f] == before + [f];
    w' := Advance(reached, w, Finish(o));
  }

  lemma CheckpointRuns(reached: World -> bool, w: World, s: RunState, node: Node) returns (w': World)
    requires Closed(reached) && reached(w) && w.process == Some(Returned(node, s)) && s.progress.Some?
    ensures reached(w')
    ensures var r := s.(progress := Some(s.progress.value.(stage := OutcomeCheckpointed)));
      w' == World(r, Some(Checkpointed(node, r)), w.clock + 1, w.visit, w.entered)
  {
    w' := Advance(reached, w, Checkpoint);
  }

  lemma FollowRuns(reached: World -> bool, w: World, s: RunState, node: Node) returns (w': World)
    requires Closed(reached) && reached(w) && w.process == Some(Checkpointed(node, s)) && w.disk == s
    ensures reached(w')
    ensures w' ==
      World(s, if node.RunsRole() then Some(Entering(LiveEdge(s, node), s)) else None, w.clock + 1, w.visit, w.entered)
  {
    w' := Advance(reached, w, Follow);
  }

  /** Enter a role node whose recovery check passes. */
  lemma EnterRuns(reached: World -> bool, w: World, s: RunState, node: Node) returns (w': World)
    requires Closed(reached) && reached(w) && w.process == Some(Entering(node, s)) && node.RunsRole()
    requires !s.HandoffCancelled() && !Unsafe(s) &&
      (s.progress.Some? ==> s.progress.value.correction.None? && s.progress.value.correctionAttempt == 0)
    ensures reached(w')
    ensures w' == w.(process := Some(Looping(node, s, None, 0, !node.IsDriver())), clock := w.clock + 1)
  {
    w' := Advance(reached, w, Enter);
  }

  /** A pause or a block enters its terminal node, is checkpointed, and ends the process. */
  lemma TerminalRuns(reached: World -> bool, w: World, s: RunState, node: Node) returns (w': World)
    requires Closed(reached) && reached(w) && w.process == Some(Entering(node, s)) &&
      (node.PauseNode? || node.BlockedNode?) && s.progress.Some?
    ensures reached(w')
    ensures var labelled :=
      if node.PauseNode? then s.(status := AwaitingHuman, phase := At(PauseNode)) else s.(status := BlockedStatus);
      w' == World(labelled.(progress := Some(s.progress.value.(stage := OutcomeCheckpointed))), None, w.clock + 3,
        w.visit, w.entered)
  {
    var labelled :=
      if node.PauseNode? then s.(status := AwaitingHuman, phase := At(PauseNode)) else s.(status := BlockedStatus);
    w' := Advance(reached, w, Enter);
    assert w' == w.(process := Some(Returned(node, labelled)), clock := w.clock + 1);
    w' := CheckpointRuns(reached, w', labelled, node);
    w' := FollowRuns(reached, w', w'.disk, node);
  }

  /** Create and start one attempt. */
  lemma StartCall(reached: World -> bool, w: World, p: Process, id: Id) returns (w': World)
    requires Closed(reached) && reached(w) && w.process == Some(p) && p.Looping? && p.admitted
    requires p.correction.None? && p.correctionAttempt == 0 && p.s.interventions == []
    requires FreshExecution(w, id) && !(p.s.progress.Some? && p.s.progress.value.stage.AttemptCreated?)
    ensures reached(w')
    ensures var r :=
      InAttempt(p.s, p.node, id, w.clock, AttemptStarted).(budget := p.s.budget.(used := p.s.budget.used + 1));
      w' == World(r, Some(Running(p.node, r, None, 0, id)), w.clock + 2, w.visit,
        w.entered + [RoleEntry(id, p.node, w.visit)])
  {
    w' := CreateRuns(reached, w, p, id);
    w' := StartRuns(reached, w', w'.disk, p.node, id);
  }

  /** Finish it, checkpoint it, and follow its edge. */
  lemma EndCall(reached: World -> bool, w: World, s: RunState, before: seq<Attempt>, a: Attempt, o: RoleOutcome)
    returns (w': World)
    requires Closed(reached) && reached(w) && w.process == Some(Running(a.node, s, None, 0, a.id)) && a.node.RunsRole()
    requires OutcomeFits(a.node, o) && !o.ContractViolation? && Active(s)
    requires s.attempts == before + [a] && UniqueAttempts(s.attempts)
    ensures reached(w')
    ensures var done := Done(s, before, a, o, OutcomeCheckpointed);
      w' == World(done, Some(Entering(LiveEdge(done, a.node), done)), w.clock + 3, w.visit + 1, w.entered)
  {
    w' := FinishRuns(reached, w, s, before, a, o);
    w' := CheckpointRuns(reached, w', w'.disk, a.node);
    w' := FollowRuns(reached, w', w'.disk, a.node);
  }

  lemma PausedReachable(reached: World -> bool)
    requires Closed(reached)
    ensures reached(World(PAUSED_RUN, None, 9, 1, [FIRST_ENTRY]))
  {
    var w := BEGINNING;
    w := EnterRuns(reached, w, w.process.value.s, Architect);
    w := StartCall(reached, w, w.process.value, 1);
    w := EndCall(reached, w, w.disk, [], Attempt(1, Architect, Unfinished, false, None, 1), RoleFailure(InfraFailure));
    w := TerminalRuns(reached, w, w.disk, PauseNode);
    assert w.disk.attempts == PAUSED_RUN.attempts && w.disk.interrupts == PAUSED_RUN.interrupts;
    assert w == World(PAUSED_RUN, None, 9, 1, [FIRST_ENTRY]);
  }

  lemma ResumedReachable(reached: World -> bool) returns (w: World)
    requires Closed(reached) && reached(World(PAUSED_RUN, None, 9, 1, [FIRST_ENTRY]))
    ensures reached(w)
    ensures var r := PAUSED_RUN.(interrupts := PLANNED_RUN.interrupts, actions := [RESUMED_PLAN],
                                 intent := Some(Intent(11, false)), progress := None);
      w == World(r, Some(Entering(Architect, ResumeState(r, Some(Architect)))), 10, 2, [FIRST_ENTRY])
  {
    var w0 := World(PAUSED_RUN, None, 9, 1, [FIRST_ENTRY]);
    assert LastUnresolved(PAUSED_RUN.interrupts) == Some(0);
    var r := PAUSED_RUN.(interrupts := PLANNED_RUN.interrupts, actions := [RESUMED_PLAN],
                         intent := Some(Intent(11, false)), progress := None);
    assert PAUSED_RUN.actions + [RESUMED_PLAN] == [RESUMED_PLAN];
    assert PAUSED_RUN.interrupts[0 := PLANNED_RUN.interrupts[0]] == PLANNED_RUN.interrupts;
    assert PrepareResume(PAUSED_RUN, Resolve(None, 11)) == Prepared(r);
    assert ResumeRun(w0, Resolve(None, 11)) ==
      World(r, Some(Entering(Architect, ResumeState(r, Some(Architect)))), 9, 2, [FIRST_ENTRY]);
    w := Advance(reached, w0, Resume(Resolve(None, 11)));
  }

  lemma PlannedReachable(reached: World -> bool)
    requires Closed(reached)
    ensures reached(World(PLANNED_RUN, Some(Entering(DriverRed, PLANNED_RUN)), 16, 3, [FIRST_ENTRY, SECOND_ENTRY]))
  {
    PausedReachable(reached);
    var w := ResumedReachable(reached);
    w := EnterRuns(reached, w, w.process.value.s, Architect);
    w := StartCall(reached, w, w.process.value, 2);
    w := EndCall(reached, w, w.disk, [FAILED_PLAN], Attempt(2, Architect, Unfinished, false, None, 11), Advanced(None));
    assert w.disk.attempts == PLANNED_RUN.attempts && w.disk.interrupts == PLANNED_RUN.interrupts;
    assert w.disk == PLANNED_RUN && w.entered == [FIRST_ENTRY, SECOND_ENTRY];
    assert w == World(PLANNED_RUN, Some(Entering(DriverRed, PLANNED_RUN)), 16, 3, [FIRST_ENTRY, SECOND_ENTRY]);
  }

  lemma ReadyIsValid()
    ensures ValidHistory(READY)
  {
    assert Linked([ONLY_CONTRACT], 0);
    assert [ONLY_CONTRACT][0].id == 5;
    assert HasContract([ONLY_CONTRACT], 5);
    assert RecordKnown([ONLY_CONTRACT], READY.reconciliations[0]);
  }

  /** The gate seals the only contract and admits the RED Driver. */
  lemma GateOpens()
    ensures AdmitDriver(PLANNED_RUN, DriverRed, Some(EVIDENCE), 21, 17) ==
      Admitted(PLANNED_RUN.(handoff := Some(READY)))
  {
    FirstContractSeals();
  }

  lemma FirstContractSeals()
    ensures ReconcileRun(PLANNED_RUN, EVIDENCE, false, None, 21, 17) == Ok(PLANNED_RUN.(handoff := Some(READY)))
  {
    ReadyIsValid();
    assert LatestArchitect(PLANNED_RUN.attempts) == Some(PLANNED_RUN.attempts[1]);
    assert SealedFor(PLANNED_RUN, EVIDENCE, ONLY_CONTRACT);
    assert SelectContract(PLANNED_RUN, EVIDENCE, false, None) == Ok(Selection(ONLY_CONTRACT, false));
    assert Assess(Selection(ONLY_CONTRACT, false), EVIDENCE, None, 21, 17) == READY.reconciliations[0];
    assert [] + [READY.reconciliations[0]] == READY.reconciliations;
  }

  const SEALED_RUN := PLANNED_RUN.(handoff := Some(READY))

  lemma SealedReachable(reached: World -> bool)
    requires Closed(reached)
    ensures reached(World(SEALED_RUN, Some(Looping(DriverRed, SEALED_RUN, None, 0, true)), 18, 3,
      [FIRST_ENTRY, SECOND_ENTRY]))
  {
    PlannedReachable(reached);
    GateOpens();
    var w := World(PLANNED_RUN, Some(Entering(DriverRed, PLANNED_RUN)), 16, 3, [FIRST_ENTRY, SECOND_ENTRY]);
    w := EnterRuns(reached, w, PLANNED_RUN, DriverRed);
    w := Advance(reached, w, Gate(Some(EVIDENCE), 21));
  }

  lemma BlockedReachable(reached: World -> bool)
    requires Closed(reached)
    ensures reached(BLOCKED_WORLD)
  {
    SealedReachable(reached);
    var w := World(SEALED_RUN, Some(Looping(DriverRed, SEALED_RUN, None, 0, true)), 18, 3, [FIRST_ENTRY, SECOND_ENTRY]);
    w := StartCall(reached, w, w.process.value, 3);
    w := EndCall(reached, w, w.disk, [FAILED_PLAN, PLAN], Attempt(3, DriverRed, Unfinished, false, Some(5), 18),
      TypedBlocked);
    w := TerminalRuns(reached, w, w.disk, BlockedNode);
    assert w.disk.attempts == BLOCKED_RUN.attempts && w.disk == BLOCKED_RUN;
    assert w == BLOCKED_WORLD;
  }

  /**
   A reachable run whose replay is misdirected: the human resolves the block, the gate refuses
   for want of evidence and saves, and replaying the same authorization enters the Architect
   instead of the Driver it was given for.
   */
  lemma BlockedReplayIsMisdirected() returns (w: World)
    ensures Reachable(w) && w.process.None? && w.disk.phase == At(DriverRed)
    ensures var resumed := ResumeRun(w, Resolve(None, 12));
      var target := ResumeState(resumed.disk, Some(DriverRed));
      var refused := PassGate(resumed, Looping(DriverRed, target, None, 0, false), None, 0);
      var replayed := ResumeRun(refused, Resolve(Some(12), 13));
      && resumed.process == Some(Entering(DriverRed, target))
      && resumed.disk.IntentPending() && resumed.disk.intent.value.action == 12
      && refused.process.None?
      && replayed.disk.actions == resumed.disk.actions
      && replayed.process.Some? && replayed.process.value.node == Architect
  {
    ReachableIsClosed();
    BlockedReachable(w => Reachable(w));
    w := BLOCKED_WORLD;
    BlockIsResolved();
    RefusalMisdirects();
    assert ResumeRun(w, Resolve(None, 12)).disk == RESOLVED_RUN;
  }

  /** The human resolved the block: the cursor is dropped. */
  const RESOLVED_RUN := BLOCKED_RUN.(
    actions := [RESUMED_PLAN, ResolutionAction(Resolve(None, 12), 12, RoleResult(3), None)],
    intent := Some(Intent(12, false)), progress := None, resumeTarget := None)

  lemma BlockIsResolved()
    ensures ResumeRun(BLOCKED_WORLD, Resolve(None, 12)) ==
      World(RESOLVED_RUN, Some(Entering(DriverRed, ResumeState(RESOLVED_RUN, Some(DriverRed)))), 26, 5,
            BLOCKED_WORLD.entered)
  {
    assert LatestBlocked(BLOCKED_RUN.attempts) == Some(3);
    assert BLOCKED_RUN.actions + [RESOLVED_RUN.actions[1]] == RESOLVED_RUN.actions;
    assert PrepareResume(BLOCKED_RUN, Resolve(None, 12)) == Prepared(RESOLVED_RUN);
  }

  /** The refusing gate saves the resumed labels, and the same authorization now goes to the Architect. */
  lemma RefusalMisdirects()
    ensures var target := ResumeState(RESOLVED_RUN, Some(DriverRed));
      && PrepareResume(target, Resolve(Some(12), 13)) == Prepared(target)
      && InferResumeTarget(target) == Some(Architect)
  {
    var target := ResumeState(RESOLVED_RUN, Some(DriverRed));
    assert FindAction(target.actions, 12) == Some(RESOLVED_RUN.actions[1]);
  }
}

/**
 What every durable save of a run keeps: the attempt record, the cursor, the budget,
 the human action log, and the exact list of role entries.
 */
module RunRecords {
  import opened Options
  import opened RunModel
  import opened Handoffs
  import opened Engine

  // ----- the invariants of one saved document -----

  ghost predicate AllFinished(attempts: seq<Attempt>) {
    forall i :: 0 <= i < |attempts| ==> !attempts[i].outcome.Unfinished?
  }

  ghost predicate HasAttempt(attempts: seq<Attempt>, id: Id) {
    exists i :: 0 <= i < |attempts| && attempts[i].id == id
  }

  /** An unfinished attempt exists exactly when the cursor says created or started, and it is the named one. */
  ghost predicate CursorNamesAttempt(s: RunState) {
    if s.progress.Some? && s.progress.value.Unfinished() then
      && s.progress.value.nextNode.RunsRole()
      && s.attempts != []
      && s.progress.value.execution == Some(s.attempts[|s.attempts| - 1].id)
      && s.attempts[|s.attempts| - 1].node == s.progress.value.nextNode
      && s.attempts[|s.attempts| - 1].outcome.Unfinished?
      && AllFinished(s.attempts[..|s.attempts| - 1])
    else
      && AllFinished(s.attempts)
      && (s.progress.Some? && s.progress.value.execution.Some? ==>
            HasAttempt(s.attempts, s.progress.value.execution.value))
  }

  /** One automatic correction at most, with its context, and never on a pausing or blocking successor. */
  ghost predicate CorrectionCursor(s: RunState) {
    s.progress.Some? ==>
      && s.progress.value.correctionAttempt == (if s.progress.value.correction.Some? then 1 else 0)
      && (s.progress.value.correction.Some? ==> s.progress.value.nextNode.RunsRole())
  }

  function CreatedOnly(s: RunState): nat {
    if s.progress.Some? && s.progress.value.stage.AttemptCreated? then 1 else 0
  }

  /** The budget counts exactly the attempts that ever started. */
  ghost predicate BudgetCounts(s: RunState, start: int) {
    s.budget.used - start == |s.attempts| - CreatedOnly(s)
  }

  ghost predicate Active(s: RunState) { s.status.NotStarted? || s.status.InProgress? }

  /** An unfinished attempt belongs to an active run, and a created correction may still start. */
  ghost predicate UnfinishedIsActive(s: RunState) {
    s.progress.Some? && s.progress.value.Unfinished() ==>
      && Active(s)
      && (s.progress.value.stage.AttemptCreated? ==> !MustPauseForBudget(s, s.progress.value.correction))
  }

  ghost predicate RecordOk(s: RunState, start: int) {
    && UniqueAttempts(s.attempts)
    && CursorNamesAttempt(s)
    && CorrectionCursor(s)
    && BudgetCounts(s, start)
    && UnfinishedIsActive(s)
  }

  // ----- the process agrees with the disk -----

  /** Equal in everything but the three routing labels. */
  ghost predicate SameEvidence(a: RunState, b: RunState) {
    a == b.(status := a.status, phase := a.phase, resumeTarget := a.resumeTarget)
  }

  /** The first document is saved with a cursor the first process does not carry. */
  ghost predicate InStep(s: RunState, disk: RunState, node: Node) {
    || SameEvidence(s, disk)
    || (node.Architect? && disk.progress == Some(Progress(BeforeAttempt, Architect, None, None, 0))
        && SameEvidence(s, disk.(progress := None)))
  }

  ghost predicate ProcessOk(w: World) {
    w.process.Some? ==>
      match w.process.value
      case Entering(node, s) =>
        InStep(s, w.disk, node) && !Unsafe(s) && (node.RunsRole() ==> Active(s))
        && (s.progress.Some? && s.progress.value.Unfinished() ==> node == s.progress.value.nextNode)
      case Looping(node, s, correction, attempt, admitted) =>
        InStep(s, w.disk, node) && !Unsafe(s) && node.RunsRole() && Active(s)
        && correction == (if s.progress.Some? then s.progress.value.correction else None)
        && attempt == (if s.progress.Some? then s.progress.value.correctionAttempt else 0)
        && (s.progress.Some? && s.progress.value.Unfinished() ==> node == s.progress.value.nextNode)
      case Created(node, s, correction, attempt, id) =>
        s == w.disk && node.RunsRole() &&
          s.progress == Some(Progress(AttemptCreated, node, Some(id), correction, attempt))
      case Running(node, s, correction, attempt, id) =>
        s == w.disk && node.RunsRole() &&
          s.progress == Some(Progress(AttemptStarted, node, Some(id), correction, attempt))
      case Returned(node, s) =>
        SameEvidence(s, w.disk) && !(s.progress.Some? && s.progress.value.Unfinished())
        && (node.RunsRole() && LiveEdge(s, node).RunsRole() ==> Active(s))
      case Checkpointed(node, s) =>
        s == w.disk && !(s.progress.Some? && s.progress.value.Unfinished())
        && (node.RunsRole() && LiveEdge(s, node).RunsRole() ==> Active(s))
  }

  // ----- the log of role entries -----

  /** Role entries and started attempts are the same list. */
  ghost predicate EntriesMatch(w: World) {
    && |w.entered| == |w.disk.attempts| - CreatedOnly(w.disk)
    && forall k :: 0 <= k < |w.entered| ==>
         w.entered[k].execution == w.disk.attempts[k].id && w.entered[k].node == w.disk.attempts[k].node
  }

  function VisitEntries(entered: seq<RoleEntry>, visit: nat): nat {
    if entered == [] then 0
    else (if entered[|entered| - 1].visit == visit then 1 else 0) + VisitEntries(entered[..|entered| - 1], visit)
  }

  /** Role calls the current visit has already made, read off the cursor. */
  function CallsSoFar(s: RunState): nat {
    if s.progress.None? then 0
    else s.progress.value.correctionAttempt + (if s.progress.value.stage.AttemptStarted? then 1 else 0)
  }

  ghost predicate VisitsOk(w: World) {
    && VisitEntries(w.entered, w.visit) == CallsSoFar(w.disk)
    && (forall v: nat :: v > w.visit ==> VisitEntries(w.entered, v) == 0)
    && (forall v: nat :: VisitEntries(w.entered, v) <= 2)
  }

  /** The invariant of every reachable world; `start` is the budget already used at the start. */
  ghost predicate WorldOk(w: World, start: int) {
    && RecordOk(w.disk, start)
    && ProcessOk(w)
    && EntriesMatch(w)
    && VisitsOk(w)
  }

  // ----- frames: what the handoff policy leaves alone -----

  lemma ReconcileFrame(s: RunState, obs: Observation, initialOnly: bool, replacement: Option<(Contract, Correction)>,
      id: Id, now: nat)
    ensures match ReconcileRun(s, obs, initialOnly, replacement, id, now)
      case Refused => true
      case Ok(r) =>
        && r == s.(handoff := r.handoff)
        && r.History().corrections ==
             s.History().corrections + (if replacement.Some? then [replacement.value.1] else [])
  {
  }

  lemma AdmitFrame(s: RunState, node: Node, current: Option<Observation>, id: Id, now: nat)
    ensures match AdmitDriver(s, node, current, id, now)
      case GateRefused(r) => r == s.(handoff := r.handoff) && r.History().corrections == s.History().corrections
      case Admitted(r) => r == s.(handoff := r.handoff) && r.History().corrections == s.History().corrections
  {
    if current.Some? {
      ReconcileFrame(s, current.value, false, None, id, now);
    }
  }

  /** What is left alone when a process neither passes its gate, nor creates or finishes an attempt. */
  ghost predicate SameEntries(a: RunState, b: RunState) {
    && b.attempts == a.attempts && b.actions == a.actions && b.interventions == a.interventions
    && b.handoff == a.handoff && b.intent == a.intent && b.rejections == a.rejections && a.interrupts <= b.interrupts
  }

  lemma QuietFrame(w: World, e: Event)
    requires ProcessOk(w) && w.process.Some? && Enabled(w, e) && !e.Gate? && !e.Create? && !e.Finish?
    ensures SameEntries(w.disk, Perform(w, e).disk)
  {
  }

  // ----- one lemma per step -----

  lemma EnterKeeps(w: World, node: Node, s: RunState, start: int)
    requires WorldOk(w, start) && w.process == Some(Entering(node, s))
    ensures WorldOk(EnterNode(w, node, s), start)
  {
  }

  /** Only the handoff and the labels differ between a gate's two saves and the disk before. */
  lemma GateSavesKeep(w: World, p: Process, h: Option<Handoff>, start: int)
    requires WorldOk(w, start) && w.process == Some(p) && p.Looping?
    ensures WorldOk(Halted(w.(disk := p.s.(handoff := h))), start)
    ensures WorldOk(Saved(w, p.s.(handoff := h), p.(s := p.s.(handoff := h), admitted := true)), start)
    ensures WorldOk(w.(process := Some(p.(admitted := true))), start)
  {
  }

  /** The gate ends the process with a save, or admits it with or without one. */
  lemma GateShapes(w: World, p: Process, current: Option<Observation>, id: Id) returns (h: Option<Handoff>)
    requires p.Looping?
    ensures p.s.(handoff := h).History().corrections == p.s.History().corrections
    ensures var r := PassGate(w, p, current, id);
      || r == Halted(w.(disk := p.s.(handoff := h)))
      || r == Saved(w, p.s.(handoff := h), p.(s := p.s.(handoff := h), admitted := true))
      || r == w.(process := Some(p.(admitted := true)))
  {
    AdmitFrame(p.s, p.node, current, id, w.clock);
    h := match AdmitDriver(p.s, p.node, current, id, w.clock)
      case GateRefused(s) => s.handoff
      case Admitted(s) => s.handoff;
  }

  lemma GateKeeps(w: World, p: Process, current: Option<Observation>, id: Id, start: int)
    requires WorldOk(w, start) && w.process == Some(p) && p.Looping?
    ensures WorldOk(PassGate(w, p, current, id), start)
  {
    var h := GateShapes(w, p, current, id);
    GateSavesKeep(w, p, h, start);
  }

  lemma BudgetPauseKeeps(w: World, p: Process, start: int)
    requires WorldOk(w, start) && w.process == Some(p) && p.Looping?
    requires MustPauseForBudget(p.s, p.correction)
    ensures WorldOk(PauseForBudget(w, p), start)
  {
  }

  lemma CreateKeeps(w: World, p: Process, newId: Id, start: int)
    requires WorldOk(w, start) && w.process == Some(p) && p.Looping?
    requires !MustPauseForBudget(p.s, p.correction) && FreshExecution(w, newId)
    ensures WorldOk(CreateAttempt(w, p, newId), start)
  {
    if p.s.progress.Some? && p.s.progress.value.stage.AttemptCreated? {
      ReuseKeeps(w, p, newId, start);
    } else {
      NewKeeps(w, p, newId, start);
    }
  }

  lemma ReuseKeeps(w: World, p: Process, newId: Id, start: int)
    requires WorldOk(w, start) && w.process == Some(p) && p.Looping?
    requires !MustPauseForBudget(p.s, p.correction)
    requires p.s.progress.Some? && p.s.progress.value.stage.AttemptCreated?
    ensures WorldOk(CreateAttempt(w, p, newId), start)
  {
    var last := p.s.attempts[|p.s.attempts| - 1];
    assert last in p.s.attempts;
    FindUnique(p.s.attempts, last);
    SaveCreatedKeeps(w, p, p.s, last.id, start);
  }

  lemma NewKeeps(w: World, p: Process, newId: Id, start: int)
    requires WorldOk(w, start) && w.process == Some(p) && p.Looping?
    requires !MustPauseForBudget(p.s, p.correction) && FreshExecution(w, newId)
    requires !(p.s.progress.Some? && p.s.progress.value.stage.AttemptCreated?)
    ensures WorldOk(CreateAttempt(w, p, newId), start)
  {
    var a := NewAttempt(p.s, p.node, newId, w.clock);
    AppendedOk(p.s.attempts, a);
    SaveCreatedKeeps(w, p, p.s.(attempts := p.s.attempts + [a]), newId, start);
  }

  lemma AppendedOk(attempts: seq<Attempt>, a: Attempt)
    requires UniqueAttempts(attempts) && AllFinished(attempts)
    requires forall x :: x in attempts ==> x.id != a.id
    ensures UniqueAttempts(attempts + [a]) && AllFinished((attempts + [a])[..|attempts|])
  {
    assert (attempts + [a])[..|attempts|] == attempts;
    forall i | 0 <= i < |attempts| ensures attempts[i].id != a.id { assert attempts[i] in attempts; }
  }

  lemma FindUnique(attempts: seq<Attempt>, a: Attempt)
    requires UniqueAttempts(attempts) && a in attempts
    ensures FindAttempt(attempts, a.id) == Some(a)
  {
    var found := FindAttempt(attempts, a.id);
    assert found.Some?;
  }

  /** The created save, whether the attempt is new or reused. */
  lemma SaveCreatedKeeps(w: World, p: Process, s: RunState, id: Id, start: int)
    requires WorldOk(w, start) && w.process == Some(p) && p.Looping?
    requires !MustPauseForBudget(p.s, p.correction)
    requires s == p.s.(attempts := s.attempts)
    requires UniqueAttempts(s.attempts) && s.attempts != []
    requires var last := s.attempts[|s.attempts| - 1];
             last.id == id && last.node == p.node && last.outcome.Unfinished?
    requires AllFinished(s.attempts[..|s.attempts| - 1])
    requires |s.attempts| == |w.entered| + 1
    requires forall k :: 0 <= k < |w.entered| ==> s.attempts[k] == w.disk.attempts[k]
    ensures WorldOk(SaveCreated(w, p, s, id), start)
  {
    var w' := SaveCreated(w, p, s, id);
    assert w'.disk.attempts == s.attempts;
    assert RecordOk(w'.disk, start);
  }

  lemma StartKeeps(w: World, p: Process, start: int)
    requires WorldOk(w, start) && w.process == Some(p) && p.Created?
    ensures WorldOk(StartRole(w, p), start)
  {
    var w' := StartRole(w, p);
    assert w'.entered[..|w'.entered| - 1] == w.entered;
    assert RecordOk(w'.disk, start);
    assert VisitEntries(w'.entered, w.visit) == VisitEntries(w.entered, w.visit) + 1;
    forall v: nat ensures VisitEntries(w'.entered, v) <= 2 && (v > w.visit ==> VisitEntries(w'.entered, v) == 0) {
      assert v != w.visit ==> VisitEntries(w'.entered, v) == VisitEntries(w.entered, v);
    }
  }

  /** A role call changes only its labels, the interrupt log and the rejection history. */
  lemma AfterRoleFrame(s: RunState, node: Node, o: RoleOutcome, correcting: bool)
    requires node.RunsRole() && OutcomeFits(node, o) && Active(s)
    ensures var after := AfterRole(s, node, o, correcting);
      && after == s.(status := after.status, phase := after.phase, resumeTarget := after.resumeTarget,
                     interrupts := after.interrupts, rejections := after.rejections)
      && (o.ContractViolation? && !correcting ==> after.status == s.status)
      && (LiveEdge(after, node).RunsRole() ==> Active(after))
  {
  }

  /** The finished record takes the place of the unfinished one. */
  lemma ReplaceLast(attempts: seq<Attempt>, finished: Attempt)
    requires attempts != [] && UniqueAttempts(attempts)
    requires attempts[|attempts| - 1].id == finished.id
    ensures WithoutAttempt(attempts, finished.id) + [finished] == attempts[|attempts| - 1 := finished]
  {
    var before, last := attempts[..|attempts| - 1], attempts[|attempts| - 1];
    assert attempts == before + [last];
    forall i | 0 <= i < |before| ensures before[i].id != last.id { assert attempts[i] == before[i]; }
    WithoutLast(before, last);
    assert before + [finished] == attempts[|attempts| - 1 := finished];
  }

  lemma ReplacedStaysOk(attempts: seq<Attempt>, finished: Attempt)
    requires attempts != [] && UniqueAttempts(attempts)
    requires attempts[|attempts| - 1].id == finished.id
    requires AllFinished(attempts[..|attempts| - 1]) && !finished.outcome.Unfinished?
    ensures var r := attempts[|attempts| - 1 := finished];
      UniqueAttempts(r) && AllFinished(r) && HasAttempt(r, finished.id)
  {
    var r := attempts[|attempts| - 1 := finished];
    assert forall i :: 0 <= i < |attempts| - 1 ==> r[i] == attempts[..|attempts| - 1][i];
    assert r[|attempts| - 1].id == finished.id;
  }

  lemma FinishedDisk(w: World, p: Process, o: RoleOutcome, start: int)
    requires WorldOk(w, start) && w.process == Some(p) && p.Running? && OutcomeFits(p.node, o)
    ensures var w' := FinishRole(w, p, o);
      var f := FinishedAttempt(p.s, p, o);
      && w'.disk.attempts == w.disk.attempts[|w.disk.attempts| - 1 := f]
      && w'.disk.budget == w.disk.budget
      && f.id == w.disk.attempts[|w.disk.attempts| - 1].id && f.node == w.disk.attempts[|w.disk.attempts| - 1].node
  {
    AfterRoleFrame(p.s, p.node, o, p.correctionAttempt != 0);
    ReplaceLast(p.s.attempts, FinishedAttempt(p.s, p, o));
  }

  lemma FinishKeeps(w: World, p: Process, o: RoleOutcome, start: int)
    requires WorldOk(w, start) && w.process == Some(p) && p.Running? && OutcomeFits(p.node, o)
    ensures WorldOk(FinishRole(w, p, o), start)
  {
    FinishKeepsRecord(w, p, o, start);
    FinishKeepsProcess(w, p, o, start);
    FinishKeepsEntries(w, p, o, start);
  }

  /** The finished attempt was started, so its entry is there already; its visit ends unless it is corrected. */
  lemma FinishKeepsEntries(w: World, p: Process, o: RoleOutcome, start: int)
    requires WorldOk(w, start) && w.process == Some(p) && p.Running? && OutcomeFits(p.node, o)
    ensures EntriesMatch(FinishRole(w, p, o)) && VisitsOk(FinishRole(w, p, o))
  {
    FinishedDisk(w, p, o, start);
  }

  lemma FinishKeepsProcess(w: World, p: Process, o: RoleOutcome, start: int)
    requires WorldOk(w, start) && w.process == Some(p) && p.Running? && OutcomeFits(p.node, o)
    ensures ProcessOk(FinishRole(w, p, o))
  {
    AfterRoleFrame(p.s, p.node, o, p.correctionAttempt != 0);
  }

  lemma FinishKeepsRecord(w: World, p: Process, o: RoleOutcome, start: int)
    requires WorldOk(w, start) && w.process == Some(p) && p.Running? && OutcomeFits(p.node, o)
    ensures RecordOk(FinishRole(w, p, o).disk, start)
  {
    FinishedDisk(w, p, o, start);
    ReplacedStaysOk(p.s.attempts, FinishedAttempt(p.s, p, o));
    CompletedOk(FinishRole(w, p, o).disk, p.id, start);
  }

  /** A completed cursor over finished attempts. */
  lemma CompletedOk(s: RunState, id: Id, start: int)
    requires UniqueAttempts(s.attempts) && AllFinished(s.attempts) && HasAttempt(s.attempts, id)
    requires s.progress.Some? && s.progress.value.stage.AttemptCompleted? && s.progress.value.execution == Some(id)
    requires CorrectionCursor(s) && s.budget.used - start == |s.attempts|
    ensures RecordOk(s, start)
  {
  }

  lemma CheckpointKeeps(w: World, p: Process, start: int)
    requires WorldOk(w, start) && w.process == Some(p) && p.Returned?
    ensures WorldOk(CheckpointNode(w, p), start)
  {
  }

  lemma FollowKeeps(w: World, p: Process, start: int)
    requires WorldOk(w, start) && w.process == Some(p) && p.Checkpointed?
    ensures WorldOk(FollowEdge(w, p), start)
  {
  }

  lemma LimitKeeps(w: World, p: Process, start: int)
    requires WorldOk(w, start) && w.process == Some(p) && p.Checkpointed?
    ensures WorldOk(StopAtLimit(w), start)
  {
  }

  // ----- human operations while no process runs -----

  /** What resume preparation may do to the document. */
  lemma PreparedShape(s: RunState, cmd: ResumeCommand, start: int)
    requires RecordOk(s, start)
    ensures match PrepareResume(s, cmd)
      case Prepared(r) =>
        || r == s
        || (r == s.(interrupts := r.interrupts, actions := r.actions, intent := r.intent,
                    progress := r.progress, resumeTarget := None)
            && !(s.progress.Some? && s.progress.value.Unfinished())
            && (r.progress.None? || r.progress == s.progress)
            && r.actions != s.actions)
      case _ => true
  {
  }

  /** A contract-bound authorization changes at most the handoff, never its corrections. */
  lemma AuthorizationShape(s: RunState, cmd: ResumeCommand, now: nat)
    ensures match AdmitAuthorization(s, cmd, now)
      case Refused => true
      case Ok(r) => r == s.(handoff := r.handoff) && r.History().corrections == s.History().corrections
  {
    var node := AuthorizedCheckpoint(s, cmd.contract);
    if node.Some? {
      AdmitFrame(s, node.value, cmd.current, cmd.reconciliation, now);
    }
  }

  /** The two documents a resume may save: the old one, or one with a new decision. */
  ghost predicate ResumableFrom(s: RunState, r: RunState) {
    || r == s.(handoff := r.handoff)
    || (r == s.(interrupts := r.interrupts, actions := r.actions, intent := r.intent,
                progress := r.progress, resumeTarget := None, handoff := r.handoff)
        && !(s.progress.Some? && s.progress.value.Unfinished())
        && (r.progress.None? || r.progress == s.progress))
  }

  lemma ResumedKeeps(w: World, r: RunState, visit: nat, start: int)
    requires WorldOk(w, start) && w.process.None? && ResumableFrom(w.disk, r) && !Unsafe(r) && !r.HandoffCancelled()
    requires (visit == w.visit && r.progress == w.disk.progress) || (visit == w.visit + 1 && r.progress.None?)
    ensures var resumed := ResumeState(r, InferResumeTarget(r));
      WorldOk(w.(disk := r, visit := visit, process := Some(Entering(EntryRouter(resumed), resumed))), start)
  {
    assert RecordOk(r, start);
  }

  lemma ResumeKeeps(w: World, cmd: ResumeCommand, start: int)
    requires WorldOk(w, start) && w.process.None?
    ensures WorldOk(ResumeRun(w, cmd), start)
  {
    match PrepareResume(w.disk, cmd)
    case ResumeRefused =>
    case ReplayCompleted =>
    case Prepared(prepared) =>
      match AdmitAuthorization(prepared, cmd, w.clock)
      case Refused =>
      case Ok(r) =>
        if !Unsafe(r) {
          ResumableIs(w, cmd, prepared, r, start);
          ResumedKeeps(w, r, VisitAfter(w, prepared), start);
        }
  }

  lemma ResumableIs(w: World, cmd: ResumeCommand, prepared: RunState, r: RunState, start: int)
    requires RecordOk(w.disk, start) && PrepareResume(w.disk, cmd) == Prepared(prepared)
    requires AdmitAuthorization(prepared, cmd, w.clock) == Ok(r)
    ensures ResumableFrom(w.disk, r) && !r.HandoffCancelled()
    ensures var visit := VisitAfter(w, prepared);
      (visit == w.visit && r.progress == w.disk.progress) || (visit == w.visit + 1 && r.progress.None?)
  {
    PreparedShape(w.disk, cmd, start);
    AuthorizationShape(prepared, cmd, w.clock);
    NeverCancelled(w.disk, cmd);
  }

  lemma NeverCancelled(s: RunState, cmd: ResumeCommand)
    ensures PrepareResume(s, cmd).Prepared? ==> !PrepareResume(s, cmd).s.HandoffCancelled()
  {
  }

  lemma QueueKeeps(w: World, cmd: QueueCommand, start: int)
    requires WorldOk(w, start) && w.process.None?
    ensures WorldOk(SaveIfOk(w, PersistIntervention(w.disk, cmd)), start)
  {
  }

  lemma HandoffSaveKeeps(w: World, h: Option<Handoff>, start: int)
    requires WorldOk(w, start) && w.process.None?
    ensures WorldOk(w.(disk := w.disk.(handoff := h)), start)
  {
  }

  lemma SealKeeps(w: World, obs: Observation, id: Id, start: int)
    requires WorldOk(w, start) && w.process.None?
    ensures WorldOk(SaveIfOk(w, SealArchitect(w.disk, obs, id, w.clock)), start)
    ensures WorldOk(SaveIfOk(w, SealCompact(w.disk, obs, id, w.clock)), start)
  {
    ReconcileFrame(w.disk, obs, true, None, id, w.clock);
    ReconcileFrame(w.disk, obs, false, None, id, w.clock);
    var full := SealArchitect(w.disk, obs, id, w.clock);
    var compact := SealCompact(w.disk, obs, id, w.clock);
    if full.Ok? { HandoffSaveKeeps(w, full.value.handoff, start); }
    if compact.Ok? { HandoffSaveKeeps(w, compact.value.handoff, start); }
  }

  /** What a human handoff change may do to the document. */
  ghost predicate ChangedFrom(s: RunState, r: RunState) {
    || r == s
    || (r == s.(status := r.status, phase := r.phase, resumeTarget := r.resumeTarget, progress := r.progress,
                intent := r.intent, interrupts := r.interrupts, handoff := r.handoff)
        && !AnyUnfinished(s.attempts)
        && (r.progress == s.progress || r.progress.None?
            || r.progress == Some(Progress(BeforeAttempt, Architect, None, None, 0))))
  }

  lemma ChangeShape(s: RunState, cmd: ChangeCommand, now: nat)
    ensures match ChangeHandoff(s, cmd, now) case Refused => true case Ok(r) => ChangedFrom(s, r)
  {
    if cmd.corrected.Some? && cmd.current.Some? {
      ReconcileFrame(s, cmd.current.value, false, Some((cmd.corrected.value, CorrectionOf(cmd, now))),
        cmd.reconciliation, now);
    }
  }

  lemma ChangedKeeps(w: World, r: RunState, start: int)
    requires WorldOk(w, start) && w.process.None? && ChangedFrom(w.disk, r)
    ensures WorldOk(w.(disk := r, visit := if r.progress != w.disk.progress then w.visit + 1 else w.visit), start)
  {
    if r != w.disk {
      assert !(w.disk.progress.Some? && w.disk.progress.value.Unfinished());
      assert RecordOk(r, start);
    }
  }

  lemma ChangeKeeps(w: World, cmd: ChangeCommand, start: int)
    requires WorldOk(w, start) && w.process.None?
    ensures WorldOk(ApplyChange(w, cmd), start)
  {
    ChangeShape(w.disk, cmd, w.clock);
    var r := ChangeHandoff(w.disk, cmd, w.clock);
    if r.Ok? { ChangedKeeps(w, r.value, start); }
  }

  lemma HaltKeeps(w: World, clock: nat, start: int)
    requires WorldOk(w, start)
    ensures WorldOk(Halted(w), start) && WorldOk(w.(clock := clock), start)
  {
  }

  // ----- whole runs -----

  lemma PerformKeeps(w: World, e: Event, start: int)
    requires WorldOk(w, start) && Enabled(w, e)
    ensures WorldOk(Perform(w, e), start)
  {
    match e
    case Enter => EnterKeeps(w, w.process.value.node, w.process.value.s, start);
    case Gate(current, id) => GateKeeps(w, w.process.value, current, id, start);
    case BudgetPause => BudgetPauseKeeps(w, w.process.value, start);
    case Create(newId) => CreateKeeps(w, w.process.value, newId, start);
    case Start => StartKeeps(w, w.process.value, start);
    case Finish(o) => FinishKeeps(w, w.process.value, o, start);
    case Checkpoint => CheckpointKeeps(w, w.process.value, start);
    case Follow => FollowKeeps(w, w.process.value, start);
    case LimitReached => LimitKeeps(w, w.process.value, start);
    case Crash => HaltKeeps(w, 0, start);
    case Resume(cmd) => ResumeKeeps(w, cmd, start);
    case Queue(cmd) => QueueKeeps(w, cmd, start);
    case SealFull(obs, id) => SealKeeps(w, obs, id, start);
    case SealDirect(obs, id) => SealKeeps(w, obs, id, start);
    case Change(cmd) => ChangeKeeps(w, cmd, start);
  }

  lemma {:induction false} ExecKeeps(w: World, events: seq<Event>, start: int)
    requires WorldOk(w, start)
    ensures WorldOk(Exec(w, events), start)
    decreases |events|
  {
    if events != [] {
      if Enabled(w, events[0]) {
        PerformKeeps(w, events[0], start);
        HaltKeeps(Perform(w, events[0]), w.clock + 1, start);
      }
      ExecKeeps(Step(w, events[0]), events[1..], start);
    }
  }

  lemma StartOk(limit: int, used: int, admission: Option<Admission>)
    ensures WorldOk(StartRun(limit, used, admission), used)
  {
  }

  // ----- the results -----

  lemma ReachableOk(limit: int, used: int, admission: Option<Admission>, events: seq<Event>)
    ensures WorldOk(Exec(StartRun(limit, used, admission), events), used)
  {
    StartOk(limit, used, admission);
    ExecKeeps(StartRun(limit, used, admission), events, used);
  }

  /**
   At every durable save of every run: attempt ids are unique, an attempt is in progress exactly
   when the cursor is created or started and names it, and the budget spent so far equals the
   number of role entries.
   */
  lemma AttemptRecordInvariant(limit: int, used: int, admission: Option<Admission>, events: seq<Event>)
    ensures var w := Exec(StartRun(limit, used, admission), events);
      && UniqueAttempts(w.disk.attempts)
      && (forall i :: 0 <= i < |w.disk.attempts| ==>
            (w.disk.attempts[i].outcome.Unfinished? <==>
             w.disk.progress.Some? && w.disk.progress.value.Unfinished()
             && w.disk.progress.value.execution == Some(w.disk.attempts[i].id)))
      && (w.disk.progress.Some? && w.disk.progress.value.Unfinished() ==>
            w.disk.progress.value.execution.Some? && HasAttempt(w.disk.attempts, w.disk.progress.value.execution.value))
      && w.disk.budget.used - used == |w.entered|
  {
    ReachableOk(limit, used, admission, events);
    var s := Exec(StartRun(limit, used, admission), events).disk;
    if s.progress.Some? && s.progress.value.Unfinished() {
      assert forall i :: 0 <= i < |s.attempts| - 1 ==> s.attempts[..|s.attempts| - 1][i] == s.attempts[i];
      assert s.attempts[|s.attempts| - 1].id == s.progress.value.execution.value;
    }
  }

  /** No execution id ever enters its role runner twice, and every entry is of a recorded attempt. */
  lemma AtMostOnceExecution(limit: int, used: int, admission: Option<Admission>, events: seq<Event>)
    ensures var w := Exec(StartRun(limit, used, admission), events);
      && (forall i, j :: 0 <= i < j < |w.entered| ==> w.entered[i].execution != w.entered[j].execution)
      && (forall i :: 0 <= i < |w.entered| ==> HasAttempt(w.disk.attempts, w.entered[i].execution))
  {
    ReachableOk(limit, used, admission, events);
    var w := Exec(StartRun(limit, used, admission), events);
    forall i | 0 <= i < |w.entered| ensures HasAttempt(w.disk.attempts, w.entered[i].execution) {
      assert w.disk.attempts[i].id == w.entered[i].execution;
    }
  }

  /** One node visit calls its role at most twice, whatever crashes and budget pauses fall between. */
  lemma VisitRunsRoleAtMostTwice(limit: int, used: int, admission: Option<Admission>, events: seq<Event>, visit: nat)
    ensures VisitEntries(Exec(StartRun(limit, used, admission), events).entered, visit) <= 2
  {
    ReachableOk(limit, used, admission, events);
  }

  /** A visit is over when its role's outcome is saved, or a human decision throws the cursor away; never else. */
  lemma VisitEndsIff(w: World, e: Event)
    requires Enabled(w, e)
    ensures var w' := Perform(w, e);
      w'.visit == w.visit +
        if e.Finish? && !(e.outcome.ContractViolation? && w.process.value.correctionAttempt == 0) then 1
        else if e.Resume? && w'.disk.actions != w.disk.actions && w'.disk.progress.None? then 1
        else if e.Change? && w'.disk.progress != w.disk.progress then 1
        else 0
  {
    if e.Resume? {
      match PrepareResume(w.disk, e.cmd)
      case ResumeRefused =>
      case ReplayCompleted =>
      case Prepared(prepared) => AuthorizationShape(prepared, e.cmd, w.clock);
    }
  }

  ghost predicate LeftStarted(w: World) {
    w.process.None? && w.disk.progress.Some? && w.disk.progress.value.stage.AttemptStarted?
  }

  /** A saved started-without-outcome cursor: no resume runs a role or changes the saved run. */
  lemma ResumeRefusesStarted(w: World, cmd: ResumeCommand)
    requires LeftStarted(w)
    ensures ResumeRun(w, cmd) == w
  {
    var prepared := PrepareResume(w.disk, cmd);
    if prepared.Prepared? {
      assert prepared.s == w.disk;
      AuthorizationShape(w.disk, cmd, w.clock);
    }
  }

  /** Nothing that happens to a run left started touches its attempts, cursor, budget or role entries. */
  ghost predicate Unmoved(w: World, w': World) {
    && w'.process.None?
    && w'.entered == w.entered
    && w'.disk.progress == w.disk.progress
    && w'.disk.attempts == w.disk.attempts
    && w'.disk.budget == w.disk.budget
  }

  lemma SealUnmoved(w: World, obs: Observation, id: Id)
    requires w.process.None?
    ensures Unmoved(w, SaveIfOk(w, SealArchitect(w.disk, obs, id, w.clock)))
    ensures Unmoved(w, SaveIfOk(w, SealCompact(w.disk, obs, id, w.clock)))
  {
    ReconcileFrame(w.disk, obs, true, None, id, w.clock);
    ReconcileFrame(w.disk, obs, false, None, id, w.clock);
  }

  lemma ChangeUnmoved(w: World, cmd: ChangeCommand)
    requires w.process.None? && AnyUnfinished(w.disk.attempts)
    ensures Unmoved(w, ApplyChange(w, cmd))
  {
    ChangeShape(w.disk, cmd, w.clock);
  }

  lemma StartedUnmoved(w: World, e: Event, start: int)
    requires WorldOk(w, start) && LeftStarted(w) && Enabled(w, e)
    ensures Unmoved(w, Perform(w, e))
  {
    match e
    case Resume(cmd) => ResumeRefusesStarted(w, cmd);
    case SealFull(obs, id) => SealUnmoved(w, obs, id);
    case SealDirect(obs, id) => SealUnmoved(w, obs, id);
    case Change(cmd) => assert AnyUnfinished(w.disk.attempts); ChangeUnmoved(w, cmd);
    case Queue(cmd) =>
  }

  /** Once left started, a run never enters a role again and keeps its attempts, cursor and budget. */
  lemma {:induction false} StartedIsAbsorbing(w: World, events: seq<Event>, start: int)
    requires WorldOk(w, start) && LeftStarted(w)
    ensures Unmoved(w, Exec(w, events))
    decreases |events|
  {
    if events != [] {
      var e := events[0];
      if Enabled(w, e) {
        StartedUnmoved(w, e, start);
        PerformKeeps(w, e, start);
        HaltKeeps(Perform(w, e), w.clock + 1, start);
      }
      StartedIsAbsorbing(Step(w, e), events[1..], start);
    }
  }
}

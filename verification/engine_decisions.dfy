/**
 Human decisions happen exactly once: action ids stay unique across both logs, a pending
 authorization replays without a new decision, and a completed one replays as nothing at all.
 */
module Decisions {
  import opened Options
  import opened RunModel
  import opened Handoffs
  import opened Engine
  import opened RunRecords
  import opened Transparency

  // ----- the invariant -----

  ghost predicate DistinctActions(actions: seq<Action>) {
    forall i, j :: 0 <= i < j < |actions| ==> actions[i].id != actions[j].id
  }

  ghost predicate DistinctCorrections(corrections: seq<Correction>) {
    forall i, j :: 0 <= i < j < |corrections| ==> corrections[i].action != corrections[j].action
  }

  ghost predicate Disjoint(actions: seq<Action>, corrections: seq<Correction>) {
    forall i, k :: 0 <= i < |actions| && 0 <= k < |corrections| ==> actions[i].id != corrections[k].action
  }

  ghost predicate Authorizes(actions: seq<Action>, id: Id) {
    exists i :: 0 <= i < |actions| && actions[i].id == id && actions[i].kind.InterruptResolution?
  }

  /** Every human action has its own id, and a resume intent names one recorded resolution. */
  ghost predicate ActionsOk(s: RunState) {
    && DistinctActions(s.actions)
    && DistinctCorrections(s.History().corrections)
    && Disjoint(s.actions, s.History().corrections)
    && (s.intent.Some? ==> Authorizes(s.actions, s.intent.value.action))
  }

  /** The part of a document the invariant reads. */
  ghost predicate SameActions(a: RunState, b: RunState) {
    && |a.actions| == |b.actions|
    && (forall i :: 0 <= i < |a.actions| ==>
         a.actions[i].id == b.actions[i].id && a.actions[i].kind == b.actions[i].kind)
    && a.History().corrections == b.History().corrections
    && (b.intent.Some? ==> a.intent.Some? && a.intent.value.action == b.intent.value.action)
  }

  lemma SameActionsOk(a: RunState, b: RunState)
    requires ActionsOk(a) && SameActions(a, b)
    ensures ActionsOk(b)
  {
    if b.intent.Some? {
      var i :| 0 <= i < |a.actions| && a.actions[i].id == a.intent.value.action &&
        a.actions[i].kind.InterruptResolution?;
      assert b.actions[i].id == b.intent.value.action;
    }
  }

  // ----- the steps -----

  /** No step of a live process adds or renames an action. */
  lemma ProcessKeepsActions(w: World, e: Event, start: int)
    requires WorldOk(w, start) && ActionsOk(w.disk) && Enabled(w, e) && w.process.Some?
    ensures SameActions(w.disk, Perform(w, e).disk)
  {
    if e.Gate? {
      GateKeepsActions(w, w.process.value, e.current, e.id);
    } else if e.Create? {
      CreateKeepsActions(w, w.process.value, e.newId);
    } else if e.Finish? {
      FinishKeepsActions(w, w.process.value, e.outcome, start);
    } else {
      QuietFrame(w, e);
    }
  }

  lemma GateKeepsActions(w: World, p: Process, current: Option<Observation>, id: Id)
    requires w.process == Some(p) && p.Looping? && ProcessOk(w)
    ensures SameActions(w.disk, PassGate(w, p, current, id).disk)
  {
    var h := GateShapes(w, p, current, id);
  }

  lemma FinishKeepsActions(w: World, p: Process, o: RoleOutcome, start: int)
    requires WorldOk(w, start) && w.process == Some(p) && p.Running? && OutcomeFits(p.node, o)
    ensures SameActions(w.disk, FinishRole(w, p, o).disk)
  {
    AfterRoleFrame(p.s, p.node, o, p.correctionAttempt != 0);
  }

  lemma CreateKeepsActions(w: World, p: Process, newId: Id)
    requires w.process == Some(p) && p.Looping? && ProcessOk(w)
    ensures SameActions(w.disk, CreateAttempt(w, p, newId).disk)
  {
  }

  /** Appending one action with an id neither log knows. */
  lemma AppendAction(s: RunState, r: RunState, a: Action)
    requires ActionsOk(s) && r.actions == s.actions + [a] && r.History().corrections == s.History().corrections
    requires !HasAction(s.actions, a.id) && FindCorrection(s.History().corrections, a.id).None?
    requires r.intent == s.intent || (r.intent.Some? && r.intent.value.action == a.id && a.kind.InterruptResolution?)
    ensures ActionsOk(r)
  {
    var corrections := s.History().corrections;
    forall k | 0 <= k < |corrections| ensures corrections[k].action != a.id { assert corrections[k] in corrections; }
    assert forall i :: 0 <= i < |s.actions| ==> r.actions[i] == s.actions[i];
    assert r.actions[|s.actions|] == a;
    if r.intent.Some? && r.intent == s.intent {
      var i :| 0 <= i < |s.actions| && s.actions[i].id == s.intent.value.action &&
        s.actions[i].kind.InterruptResolution?;
      assert r.actions[i] == s.actions[i];
    }
  }

  lemma PrepareKeepsActions(s: RunState, cmd: ResumeCommand)
    requires ActionsOk(s) && !HasAction(s.actions, cmd.generated)
    requires FindCorrection(s.History().corrections, cmd.generated).None?
    ensures match PrepareResume(s, cmd)
      case Prepared(r) => ActionsOk(r)
      case _ => true
  {
    var identifier := if cmd.action.None? && s.IntentPending() then Some(s.intent.value.action) else cmd.action;
    match PrepareResume(s, cmd)
    case Prepared(r) =>
      if r != s {
        PreparedAppends(s, cmd);
        AppendAction(s, r, r.actions[|s.actions|]);
      }
    case _ =>
  }

  /** The command with the id that a repeated or generated action has. */
  function Asked(s: RunState, cmd: ResumeCommand): ResumeCommand {
    cmd.(action := if cmd.action.None? && s.IntentPending() then Some(s.intent.value.action) else cmd.action)
  }

  function Answered(s: RunState, asked: ResumeCommand): Result<RunState> {
    if s.status.AwaitingHuman? then ResolveLatestInterrupt(s, asked) else ResolveBlockedResult(s, asked)
  }

  lemma PreparedIsAnswered(s: RunState, cmd: ResumeCommand)
    ensures match PrepareResume(s, cmd)
      case Prepared(r) =>
        || r == s
        || var answer := Answered(s, Asked(s, cmd));
           answer.Ok? && answer.value.actions != []
           && (r == Decided(answer.value, KeptProgress(answer.value)) || r == Decided(answer.value, None))
      case _ => true
  {
  }

  /** A decision is one action under the command's id. */
  lemma AnswerAppends(s: RunState, asked: ResumeCommand)
    ensures match Answered(s, asked)
      case Refused => true
      case Ok(r) =>
        && |r.actions| == |s.actions| + 1 && r.actions[..|s.actions|] == s.actions && r.handoff == s.handoff
        && r.actions[|s.actions|].kind.InterruptResolution? && r.actions[|s.actions|].id == Identifier(asked)
  {
  }

  /** A new decision is one action under an id the log does not know, and the intent names it. */
  lemma PreparedAppends(s: RunState, cmd: ResumeCommand)
    requires ActionsOk(s)
    ensures match PrepareResume(s, cmd)
      case Prepared(r) => r != s ==>
        && |r.actions| == |s.actions| + 1 && r.actions[..|s.actions|] == s.actions
        && r.actions[|s.actions|].kind.InterruptResolution?
        && r.intent == Some(Intent(r.actions[|s.actions|].id, false))
        && r.handoff == s.handoff
        && r.actions[|s.actions|].id == Identifier(cmd)
        && (cmd.action.Some? ==>
              && !HasAction(s.actions, cmd.action.value)
              && FindCorrection(s.History().corrections, cmd.action.value).None?)
      case _ => true
  {
    PreparedIsAnswered(s, cmd);
    AnswerAppends(s, Asked(s, cmd));
    PreparedIsNew(s, cmd);
  }

  /** Only a command whose id is in neither log prepares a new decision. */
  lemma PreparedIsNew(s: RunState, cmd: ResumeCommand)
    requires ActionsOk(s)
    ensures match PrepareResume(s, cmd)
      case Prepared(r) => r != s ==>
        && (cmd.action.None? ==> !s.IntentPending())
        && (cmd.action.Some? ==> FindAction(s.actions, cmd.action.value).None?)
        && (cmd.action.Some? ==> FindCorrection(s.History().corrections, cmd.action.value).None?)
      case _ => true
  {
    if cmd.action.None? && s.IntentPending() {
      var i :| 0 <= i < |s.actions| && s.actions[i].id == s.intent.value.action &&
        s.actions[i].kind.InterruptResolution?;
      assert HasAction(s.actions, s.intent.value.action);
    }
  }

  lemma HandoffKeepsActions(s: RunState, h: Option<Handoff>)
    requires ActionsOk(s) && s.(handoff := h).History().corrections == s.History().corrections
    ensures ActionsOk(s.(handoff := h))
  {
  }

  lemma ResumeKeepsActions(w: World, cmd: ResumeCommand)
    requires ActionsOk(w.disk) && Enabled(w, Resume(cmd))
    ensures ActionsOk(ResumeRun(w, cmd).disk)
  {
    PrepareKeepsActions(w.disk, cmd);
    match PrepareResume(w.disk, cmd)
    case ResumeRefused =>
    case ReplayCompleted =>
    case Prepared(prepared) =>
      AuthorizationShape(prepared, cmd, w.clock);
      match AdmitAuthorization(prepared, cmd, w.clock)
      case Refused =>
      case Ok(r) => HandoffKeepsActions(prepared, r.handoff);
  }

  lemma QueueKeepsActions(w: World, cmd: QueueCommand)
    requires ActionsOk(w.disk)
    ensures ActionsOk(SaveIfOk(w, PersistIntervention(w.disk, cmd)).disk)
  {
    match PersistIntervention(w.disk, cmd)
    case Refused =>
    case Ok(r) =>
      if r != w.disk { AppendAction(w.disk, r, r.actions[|w.disk.actions|]); }
  }

  lemma ChangeKeepsActions(w: World, cmd: ChangeCommand)
    requires ActionsOk(w.disk)
    ensures ActionsOk(ApplyChange(w, cmd).disk)
  {
    match ChangeHandoff(w.disk, cmd, w.clock)
    case Refused =>
    case Ok(r) =>
      if r != w.disk {
        ChangeAppends(w.disk, cmd, w.clock);
        AppendCorrection(w.disk, r, CorrectionOf(cmd, w.clock));
      }
  }

  /** An accepted change that is not a replay appends exactly its own correction and drops the intent or keeps it. */
  lemma ChangeAppends(s: RunState, cmd: ChangeCommand, now: nat)
    ensures match ChangeHandoff(s, cmd, now)
      case Refused => true
      case Ok(r) =>
        || r == s
        || (&& r.actions == s.actions
            && (r.intent == s.intent || r.intent.None?)
            && r.History().corrections == s.History().corrections + [CorrectionOf(cmd, now)]
            && FindCorrection(s.History().corrections, cmd.action).None?
            && !HasAction(s.actions, cmd.action))
  {
    if cmd.corrected.Some? && cmd.current.Some? {
      ReconcileFrame(s, cmd.current.value, false, Some((cmd.corrected.value, CorrectionOf(cmd, now))),
        cmd.reconciliation, now);
    }
  }

  lemma AppendCorrection(s: RunState, r: RunState, c: Correction)
    requires ActionsOk(s) && r.actions == s.actions && (r.intent == s.intent || r.intent.None?)
    requires r.History().corrections == s.History().corrections + [c]
    requires FindCorrection(s.History().corrections, c.action).None? && !HasAction(s.actions, c.action)
    ensures ActionsOk(r)
  {
    var before := s.History().corrections;
    forall k | 0 <= k < |before| ensures before[k].action != c.action { assert before[k] in before; }
    assert forall i :: 0 <= i < |s.actions| ==> s.actions[i].id != c.action;
  }

  lemma SealKeepsActions(w: World, obs: Observation, id: Id)
    requires ActionsOk(w.disk)
    ensures ActionsOk(SaveIfOk(w, SealArchitect(w.disk, obs, id, w.clock)).disk)
    ensures ActionsOk(SaveIfOk(w, SealCompact(w.disk, obs, id, w.clock)).disk)
  {
    ReconcileFrame(w.disk, obs, true, None, id, w.clock);
    ReconcileFrame(w.disk, obs, false, None, id, w.clock);
    var full := SealArchitect(w.disk, obs, id, w.clock);
    var compact := SealCompact(w.disk, obs, id, w.clock);
    if full.Ok? { HandoffKeepsActions(w.disk, full.value.handoff); }
    if compact.Ok? { HandoffKeepsActions(w.disk, compact.value.handoff); }
  }

  lemma PerformKeepsActions(w: World, e: Event, start: int)
    requires WorldOk(w, start) && ActionsOk(w.disk) && Enabled(w, e)
    ensures ActionsOk(Perform(w, e).disk)
  {
    if w.process.Some? {
      ProcessKeepsActions(w, e, start);
      SameActionsOk(w.disk, Perform(w, e).disk);
    } else {
      match e
      case Resume(cmd) => ResumeKeepsActions(w, cmd);
      case Queue(cmd) => QueueKeepsActions(w, cmd);
      case SealFull(obs, id) => SealKeepsActions(w, obs, id);
      case SealDirect(obs, id) => SealKeepsActions(w, obs, id);
      case Change(cmd) => ChangeKeepsActions(w, cmd);
    }
  }

  lemma {:induction false} ExecKeepsActions(w: World, events: seq<Event>, start: int)
    requires WorldOk(w, start) && ActionsOk(w.disk)
    ensures ActionsOk(Exec(w, events).disk)
    decreases |events|
  {
    if events != [] {
      var e := events[0];
      if Enabled(w, e) {
        PerformKeepsActions(w, e, start);
        PerformKeeps(w, e, start);
        HaltKeeps(Perform(w, e), w.clock + 1, start);
      }
      ExecKeepsActions(Step(w, e), events[1..], start);
    }
  }

  // ----- the results -----

  /** In every run, no action id is ever used twice, in the human action log or in the handoff corrections. */
  lemma DecisionsAreUnique(limit: int, used: int, admission: Option<Admission>, events: seq<Event>)
    ensures var s := Exec(StartRun(limit, used, admission), events).disk;
      DistinctActions(s.actions) && DistinctCorrections(s.History().corrections) &&
        Disjoint(s.actions, s.History().corrections)
  {
    StartOk(limit, used, admission);
    ExecKeepsActions(StartRun(limit, used, admission), events, used);
  }

  /** The document validator that every load and every checkpoint applies to the cursor and the intent. */
  ghost predicate RecoveryEvidenceValid(s: RunState) {
    && (s.progress.Some? && s.progress.value.execution.Some? ==>
          exists i :: && 0 <= i < |s.attempts| && s.attempts[i].id == s.progress.value.execution.value
            && (forall j :: 0 <= j < |s.attempts| && s.attempts[j].id == s.progress.value.execution.value ==> j == i)
            && (if s.progress.value.Unfinished()
                then s.attempts[i].node == s.progress.value.nextNode && s.attempts[i].outcome.Unfinished?
                else !s.attempts[i].outcome.Unfinished?))
    && (s.intent.Some? ==>
          exists i :: && 0 <= i < |s.actions| && s.actions[i].id == s.intent.value.action
            && s.actions[i].kind.InterruptResolution?
            && (forall j :: 0 <= j < |s.actions| && s.actions[j].id == s.intent.value.action ==> j == i))
  }

  /** No save of any run is ever rejected by that validator. */
  lemma EverySaveValidates(limit: int, used: int, admission: Option<Admission>, events: seq<Event>)
    ensures RecoveryEvidenceValid(Exec(StartRun(limit, used, admission), events).disk)
  {
    ReachableOk(limit, used, admission, events);
    StartOk(limit, used, admission);
    ExecKeepsActions(StartRun(limit, used, admission), events, used);
    var s := Exec(StartRun(limit, used, admission), events).disk;
    if s.progress.Some? && s.progress.value.execution.Some? {
      var i := if s.progress.value.Unfinished() then |s.attempts| - 1
               else var k :| 0 <= k < |s.attempts| && s.attempts[k].id == s.progress.value.execution.value; k;
      assert 0 <= i < |s.attempts| && s.attempts[i].id == s.progress.value.execution.value;
    }
    if s.intent.Some? {
      var i :| 0 <= i < |s.actions| && s.actions[i].id == s.intent.value.action &&
        s.actions[i].kind.InterruptResolution?;
      assert 0 <= i < |s.actions| && s.actions[i].id == s.intent.value.action;
    }
  }

  /** The command repeats the recorded decision exactly. */
  predicate Repeats(a: Action, cmd: ResumeCommand) {
    a.kind.InterruptResolution? && a.actor == cmd.actor && a.detail == cmd.resolution && a.contract == cmd.contract
  }

  /** Replaying a completed authorization neither runs a role nor writes anything. */
  lemma CompletedReplayIsSilent(w: World, cmd: ResumeCommand, a: Action)
    requires cmd.action == Some(a.id) && FindAction(w.disk.actions, a.id) == Some(a)
    requires !(w.disk.IntentPending() && w.disk.intent.value.action == a.id)
    ensures ResumeRun(w, cmd) == w
  {
  }

  /**
   Replaying a pending authorization adds no decision, leaves everything but the handoff as it
   was, and enters exactly the node the saved document names.
   */
  lemma PendingReplayAddsNothing(w: World, cmd: ResumeCommand, a: Action)
    requires w.process.None? && w.disk.IntentPending() && w.disk.intent.value.action == a.id
    requires cmd.action.None? || cmd.action == Some(a.id)
    requires FindAction(w.disk.actions, a.id) == Some(a)
    ensures var w' := ResumeRun(w, cmd);
      && w'.disk == w.disk.(handoff := w'.disk.handoff)
      && w'.visit == w.visit && w'.entered == w.entered
      && (w'.process.Some? ==>
            && Repeats(a, cmd)
            && w'.process.value == Entering(EntryRouter(w'.process.value.s), w'.process.value.s)
            && w'.process.value.s == ResumeState(w'.disk, InferResumeTarget(w'.disk))
            && InferResumeTarget(w'.disk) == InferResumeTarget(w.disk))
  {
    PendingPrepares(w.disk, cmd, a);
    AuthorizationShape(w.disk, cmd, w.clock);
    AdmissionKeepsTarget(w.disk, cmd, w.clock);
  }

  /** A replay of the pending authorization is refused, or prepares the document as it is. */
  lemma PendingPrepares(s: RunState, cmd: ResumeCommand, a: Action)
    requires s.IntentPending() && s.intent.value.action == a.id && FindAction(s.actions, a.id) == Some(a)
    requires cmd.action.None? || cmd.action == Some(a.id)
    ensures PrepareResume(s, cmd).ResumeRefused? || (PrepareResume(s, cmd) == Prepared(s) && Repeats(a, cmd))
  {
  }

  lemma AdmissionKeepsTarget(s: RunState, cmd: ResumeCommand, now: nat)
    ensures match AdmitAuthorization(s, cmd, now)
      case Refused => true
      case Ok(r) => InferResumeTarget(r) == InferResumeTarget(s)
  {
    AuthorizationShape(s, cmd, now);
    var admitted := AdmitAuthorization(s, cmd, now);
    if admitted.Ok? { HandoffKeepsTarget(s, admitted.value.handoff); }
  }

  lemma HandoffKeepsTarget(s: RunState, h: Option<Handoff>)
    ensures InferResumeTarget(s.(handoff := h)) == InferResumeTarget(s)
  {
  }
}

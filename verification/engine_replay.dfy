/**
 Where a replayed authorization goes on.  It returns to the node it was given for, except when a
 gate saved over a typed block and an older record of the run names another node.
 */
module Replays {
  import opened Options
  import opened RunModel
  import opened Handoffs
  import opened Engine
  import opened RunRecords
  import opened Transparency
  import opened Decisions

  /** A typed block at `node` as it is saved: no cursor leads anywhere. */
  predicate BlockedAt(s: RunState, node: Node) { TypedBlock(s) && s.phase == At(node) && !UsableCursor(s) }

  /** The last interrupt names another node, or none is named and the last rejection goes back to another one. */
  predicate Misleads(s: RunState, node: Node) {
    if s.interrupts != [] && s.interrupts[|s.interrupts| - 1].next.Some?
    then s.interrupts[|s.interrupts| - 1].next != Some(node)
    else s.rejections != [] && RejectedWork(s.rejections[|s.rejections| - 1]) != node
  }

  /** The role that a rejection sends back to work. */
  function RejectedWork(review: Node): Node { if review.IsReviewer() then Reviewed(review) else DriverRed }

  // ----- from the resume to the loss of its process -----

  /** Everything that names a node, and the authorization. */
  predicate SameRouting(s: RunState, base: RunState) {
    && s.status == base.status && s.phase == base.phase && s.resumeTarget == base.resumeTarget
    && SameRecords(s, base)
  }

  predicate SameRecords(s: RunState, base: RunState) {
    && s.progress == base.progress && s.interrupts == base.interrupts
    && s.rejections == base.rejections && s.intent == base.intent
  }

  /** The state a resumed process carries, and a gate saves: its labels name its own target. */
  predicate Carried(s: RunState, base: RunState, node: Node) {
    s.status.InProgress? && s.resumeTarget == Some(node) && SameRecords(s, base)
  }

  predicate SavedAt(s: RunState, base: RunState, node: Node) {
    SameRouting(s, base) || (node.IsDriver() && Carried(s, base, node))
  }

  predicate HeadingFor(p: Process, base: RunState, node: Node) {
    match p
    case Entering(n, s) => n == node && SameRecords(s, base) && (node.IsDriver() ==> Carried(s, base, node))
    case Looping(n, s, _, _, admitted) =>
      && n == node && SameRecords(s, base)
      && (if node.IsDriver() then Carried(s, base, node) else admitted)
    case _ => false
  }

  /** No attempt has been created since the resume that saved `base`. */
  predicate Underway(w: World, base: RunState, node: Node) {
    SavedAt(w.disk, base, node) && (w.process.Some? ==> HeadingFor(w.process.value, base, node))
  }

  /** Anything but the next created attempt, another resume, or a handoff change. */
  predicate BeforeCreation(e: Event) { !e.Create? && !e.Resume? && !e.Change? }

  lemma ResumeHeads(w: World, cmd: ResumeCommand)
    requires w.process.None?
    ensures var w' := ResumeRun(w, cmd);
      w'.process.Some? && w'.process.value.node.RunsRole() ==>
        && Underway(w', w'.disk, w'.process.value.node)
        && w'.process.value.node == Destination(InferResumeTarget(w'.disk))
  {
    NeverCancelled(w.disk, cmd);
    match PrepareResume(w.disk, cmd)
    case ResumeRefused =>
    case ReplayCompleted =>
    case Prepared(prepared) => AuthorizationShape(prepared, cmd, w.clock);
  }

  /** A label that names no node enters at the Architect. */
  function Destination(target: Option<Node>): Node { if target.Some? then target.value else Architect }

  lemma GateHeads(w: World, current: Option<Observation>, id: Id, base: RunState, node: Node)
    requires Underway(w, base, node) && Enabled(w, Gate(current, id))
    ensures Underway(PassGate(w, w.process.value, current, id), base, node)
  {
    var h := GateShapes(w, w.process.value, current, id);
  }

  lemma SealHeads(w: World, obs: Observation, id: Id, base: RunState, node: Node)
    requires Underway(w, base, node) && w.process.None?
    ensures Underway(SaveIfOk(w, SealArchitect(w.disk, obs, id, w.clock)), base, node)
    ensures Underway(SaveIfOk(w, SealCompact(w.disk, obs, id, w.clock)), base, node)
  {
    ReconcileFrame(w.disk, obs, true, None, id, w.clock);
    ReconcileFrame(w.disk, obs, false, None, id, w.clock);
  }

  lemma StepHeads(w: World, e: Event, base: RunState, node: Node)
    requires Underway(w, base, node) && Enabled(w, e) && BeforeCreation(e)
    requires node.RunsRole() && base.IntentPending()
    ensures Underway(Perform(w, e), base, node)
  {
    match e
    case Enter =>
    case Gate(current, id) => GateHeads(w, current, id, base, node);
    case SealFull(obs, id) => SealHeads(w, obs, id, base, node);
    case SealDirect(obs, id) => SealHeads(w, obs, id, base, node);
    case Queue(cmd) =>
    case _ =>
  }

  lemma {:induction false} RunHeads(w: World, events: seq<Event>, base: RunState, node: Node)
    requires Underway(w, base, node) && node.RunsRole() && base.IntentPending()
    requires forall e :: e in events ==> BeforeCreation(e)
    ensures Underway(Exec(w, events), base, node)
    decreases |events|
  {
    if events != [] {
      if Enabled(w, events[0]) { StepHeads(w, events[0], base, node); }
      RunHeads(Step(w, events[0]), events[1..], base, node);
    }
  }

  // ----- the replay -----

  /** An older record outranks the block, and a gate has saved over it. */
  predicate Misdirected(resumed: RunState, lost: RunState, node: Node) {
    BlockedAt(resumed, node) && Misleads(resumed, node) && !TypedBlock(lost)
  }

  lemma TargetOf(s: RunState, base: RunState, node: Node)
    requires SavedAt(s, base, node) && node == Destination(InferResumeTarget(base))
    ensures Destination(InferResumeTarget(s)) == node <==> !Misdirected(base, s, node)
  {
  }

  /** The command replays the pending authorization. */
  predicate ReplaysPending(s: RunState, cmd: ResumeCommand) {
    s.IntentPending() && (cmd.action.None? || cmd.action == Some(s.intent.value.action))
  }

  lemma ReplayEnters(w: World, cmd: ResumeCommand, base: RunState, node: Node)
    requires Underway(w, base, node) && w.process.None? && ActionsOk(w.disk) && ReplaysPending(w.disk, cmd)
    requires node == Destination(InferResumeTarget(base))
    ensures var w' := ResumeRun(w, cmd);
      w'.process.Some? ==> (w'.process.value.node == node <==> !Misdirected(base, w.disk, node))
  {
    var i :| 0 <= i < |w.disk.actions| && w.disk.actions[i].id == w.disk.intent.value.action;
    assert HasAction(w.disk.actions, w.disk.intent.value.action);
    PendingReplayAddsNothing(w, cmd, FindAction(w.disk.actions, w.disk.intent.value.action).value);
    TargetOf(w.disk, base, node);
    ReplayNotCancelled(w, cmd);
  }

  lemma ReplayNotCancelled(w: World, cmd: ResumeCommand)
    requires w.process.None?
    ensures ResumeRun(w, cmd).process.Some? ==> !ResumeRun(w, cmd).disk.HandoffCancelled()
  {
    NeverCancelled(w.disk, cmd);
    match PrepareResume(w.disk, cmd)
    case ResumeRefused =>
    case ReplayCompleted =>
    case Prepared(prepared) => AdmissionNeverCancels(prepared, cmd, w.clock);
  }

  lemma AdmissionNeverCancels(s: RunState, cmd: ResumeCommand, now: nat)
    ensures match AdmitAuthorization(s, cmd, now)
      case Refused => true
      case Ok(r) => r.HandoffCancelled() == s.HandoffCancelled()
  {
    AuthorizationShape(s, cmd, now);
  }

  lemma DecisionKeepsBlock(s: RunState, cmd: ResumeCommand, node: Node)
    requires BlockedAt(s, node)
    ensures match PrepareResume(s, cmd)
      case Prepared(r) => BlockedAt(r, node) && r.interrupts == s.interrupts && r.rejections == s.rejections
      case _ => true
  {
  }

  /** The resume of a typed block leaves it as it was, but for the decision. */
  lemma BlockIsKept(w: World, cmd: ResumeCommand, node: Node)
    requires w.process.None? && BlockedAt(w.disk, node)
    ensures var s := ResumeRun(w, cmd).disk;
      BlockedAt(s, node) && (Misleads(s, node) <==> Misleads(w.disk, node))
  {
    DecisionKeepsBlock(w.disk, cmd, node);
    match PrepareResume(w.disk, cmd)
    case ResumeRefused =>
    case ReplayCompleted =>
    case Prepared(prepared) => AuthorizationShape(prepared, cmd, w.clock);
  }

  lemma ExecSound(w: World, events: seq<Event>, start: int)
    requires WorldOk(w, start) && ActionsOk(w.disk)
    ensures WorldOk(Exec(w, events), start) && ActionsOk(Exec(w, events).disk)
  {
    ExecKeeps(w, events, start);
    ExecKeepsActions(w, events, start);
  }

  /**
   In any run, let a resume enter a role node under a pending authorization, and its process be
   lost before an attempt is created, whatever else happens.  A replay of that authorization enters
   the same node exactly unless the resumed document is a typed block that an older record outranks
   and a gate has saved over it.
   */
  lemma ReplayReturnsIff(
    limit: int, used: int, admission: Option<Admission>, events: seq<Event>,
    cmd: ResumeCommand, steps: seq<Event>, replay: ResumeCommand)
    requires var w := Exec(StartRun(limit, used, admission), events);
      var resumed := Step(w, Resume(cmd));
      var lost := Exec(resumed, steps);
      && w.process.None? && resumed.process.Some? && resumed.process.value.node.RunsRole()
      && resumed.disk.IntentPending()
      && lost.process.None? && ReplaysPending(lost.disk, replay)
    requires forall e :: e in steps ==> BeforeCreation(e)
    ensures var w := Exec(StartRun(limit, used, admission), events);
      var resumed := Step(w, Resume(cmd));
      var lost := Exec(resumed, steps);
      var replayed := Step(lost, Resume(replay));
      var node := resumed.process.value.node;
      && (replayed.process.Some? ==>
            (replayed.process.value.node == node <==> !Misdirected(resumed.disk, lost.disk, node)))
      && (BlockedAt(w.disk, node) ==>
            BlockedAt(resumed.disk, node) && (Misleads(resumed.disk, node) <==> Misleads(w.disk, node)))
  {
    StartOk(limit, used, admission);
    ExecSound(StartRun(limit, used, admission), events, used);
    var w := Exec(StartRun(limit, used, admission), events);
    var resumed := Step(w, Resume(cmd));
    ResumeHeads(w, cmd);
    ResumedSound(w, cmd, used);
    var node := resumed.process.value.node;
    if BlockedAt(w.disk, node) { BlockIsKept(w, cmd, node); }
    ExecSound(resumed, steps, used);
    RunHeads(resumed, steps, resumed.disk, node);
    ReplayEnters(Exec(resumed, steps), replay, resumed.disk, node);
  }

  lemma ResumedSound(w: World, cmd: ResumeCommand, start: int)
    requires WorldOk(w, start) && ActionsOk(w.disk)
    ensures WorldOk(Step(w, Resume(cmd)), start) && ActionsOk(Step(w, Resume(cmd)).disk)
  {
    ExecSound(w, [Resume(cmd)], start);
    assert Exec(w, [Resume(cmd)]) == Exec(Step(w, Resume(cmd)), [Resume(cmd)][1..]);
  }

  /** At any gate of a regular run, its state fails to name its node exactly over such a typed block. */
  lemma OnlyTypedBlocksAreMisdirected(
    limit: int, used: int, admission: Option<Admission>, events: seq<Event>, o: Oracle)
    requires RegularRun(StartRun(limit, used, admission), events, o)
    requires AtGate(Exec(StartRun(limit, used, admission), events))
    ensures var w := Exec(StartRun(limit, used, admission), events);
      GateKeepsTarget(w.process.value) <==>
      !(BlockedAt(w.disk, w.process.value.node) && Misleads(w.disk, w.process.value.node))
  {
    var w := StartRun(limit, used, admission);
    StartOk(limit, used, admission);
    assert RunFollows(w, o);
    ExecFollows(w, events, o, used);
    var w' := Exec(w, events);
    MisdirectedIff(w', w'.process.value, Uninterrupted(o, Finished(w'.disk)), used);
  }

  predicate AtGate(w: World) {
    && w.process.Some? && w.process.value.Looping?
    && w.process.value.node.IsDriver() && !w.process.value.admitted
  }

  lemma MisdirectedIff(w: World, p: Process, t: Turn, start: int)
    requires Sound(w, start) && DiskAt(w.disk, t) && ProcessAt(w, t)
    requires w.process == Some(p) && p.Looping? && p.node.IsDriver()
    ensures GateKeepsTarget(p) <==> !(BlockedAt(w.disk, p.node) && Misleads(w.disk, p.node))
  {
  }
}

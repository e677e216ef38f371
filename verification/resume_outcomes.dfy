/**
 What a resume does, in terms of the saved document and the command alone: exactly when it goes on,
 which decision it records, and at which node the graph is entered.
 */
module ResumeOutcomes {
  import opened Options
  import opened RunModel
  import opened Handoffs
  import opened Engine
  import opened RunRecords
  import opened Decisions
  import opened HandoffChanges
  import opened GateOutcomes

  // ----- the decision -----

  /** The action a resume is about: the one it names, or the one that is still pending. */
  function Subject(s: RunState, cmd: ResumeCommand): Option<Id> {
    if cmd.action.Some? then cmd.action
    else if s.intent.Some? && !s.intent.value.completed then Some(s.intent.value.action)
    else None
  }

  ghost predicate InLog(s: RunState, id: Option<Id>) {
    exists k :: 0 <= k < |s.actions| && Some(s.actions[k].id) == id
  }

  /** The pending decision is asked for again, word for word. */
  ghost predicate AsksAgain(s: RunState, cmd: ResumeCommand) {
    && s.intent.Some? && !s.intent.value.completed && Subject(s, cmd) == Some(s.intent.value.action)
    && exists k :: 0 <= k < |s.actions| && s.actions[k].id == s.intent.value.action && SameDecision(s.actions[k], cmd)
  }

  predicate SameDecision(a: Action, cmd: ResumeCommand) {
    && a.kind.InterruptResolution? && a.actor == cmd.actor && a.detail == cmd.resolution && a.contract == cmd.contract
  }

  /** The last interrupt that nobody has resolved. */
  ghost predicate LastOpen(interrupts: seq<Interrupt>, i: nat)
    requires i < |interrupts|
  {
    interrupts[i].resolution.None? && forall m :: i < m < |interrupts| ==> interrupts[m].resolution.Some?
  }

  ghost predicate LastBlock(attempts: seq<Attempt>, k: nat)
    requires k < |attempts|
  {
    attempts[k].blocked && forall m :: k < m < |attempts| ==> !attempts[m].blocked
  }

  /** A Driver checkpoint of a handoff is resolved for its active ready contract, anything else for none. */
  predicate ContractFits(s: RunState, i: nat, contract: Option<Id>)
    requires i < |s.interrupts|
  {
    var x := s.interrupts[i];
    if x.trigger.ManualCheckpoint? && (x.next == Some(DriverRed) || x.next == Some(DriverGreen)) && s.handoff.Some? then
      var h := s.handoff.value;
      && contract.Some? && h.active == contract && h.reconciliations != []
      && h.reconciliations[|h.reconciliations| - 1].contract == contract.value
      && h.reconciliations[|h.reconciliations| - 1].reasons == {}
    else contract.None?
  }

  ghost predicate StoppedByBlock(s: RunState) {
    s.status.BlockedStatus? && s.phase != RecursionLimitExceeded
    && exists k :: 0 <= k < |s.attempts| && s.attempts[k].blocked
  }

  /** What a decision is about. */
  ghost predicate Answers(s: RunState, cmd: ResumeCommand, target: ActionTarget) {
    cmd.resolution != "" &&
    if s.status.AwaitingHuman? then
      match target
      case InterruptAt(i) => i < |s.interrupts| && LastOpen(s.interrupts, i) && ContractFits(s, i, cmd.contract)
      case LegacyPause => s.interrupts == [] && cmd.contract.None?
      case _ => false
    else
      StoppedByBlock(s) && target.RoleResult?
      && exists k :: 0 <= k < |s.attempts| && LastBlock(s.attempts, k) && s.attempts[k].id == target.execution
  }

  /** A continuation after an exhausted budget keeps the correction it paused. */
  predicate KeepsCorrection(s: RunState) {
    s.status.AwaitingHuman? && s.interrupts != [] && s.progress.Some? && s.progress.value.correction.Some?
    && var last := s.interrupts[|s.interrupts| - 1];
       last.trigger.BudgetExceeded? && last.next == Some(s.progress.value.nextNode)
  }

  /** The document with one decision more. */
  function WithDecision(s: RunState, cmd: ResumeCommand, id: Id, target: ActionTarget): RunState {
    s.(
      interrupts :=
        if target.InterruptAt? && target.index < |s.interrupts|
        then s.interrupts[target.index := s.interrupts[target.index].(resolution := Some(cmd.resolution))]
        else s.interrupts,
      actions := s.actions + [Action(id, InterruptResolution, cmd.actor, target, Applied, cmd.resolution,
                                     if target.InterruptAt? then cmd.contract else None)],
      intent := Some(Intent(id, false)),
      progress := if KeepsCorrection(s) then s.progress else None,
      resumeTarget := None)
  }

  function SubjectOr(s: RunState, cmd: ResumeCommand): Id {
    if Subject(s, cmd).Some? then Subject(s, cmd).value else cmd.generated
  }

  ghost predicate Started(s: RunState) { s.progress.Some? && s.progress.value.stage.AttemptStarted? }

  /** A fresh resume that has nothing to decide. */
  ghost predicate NothingToDecide(s: RunState) { !s.status.AwaitingHuman? && !StoppedByBlock(s) }

  /** `r` is the document a resume of `s` goes on with. */
  ghost predicate GoesOnWith(s: RunState, cmd: ResumeCommand, r: RunState) {
    var c := s.History().corrections;
    && (c != [] ==> !c[|c| - 1].kind.CancelHandoff?)
    && (forall i :: 0 <= i < |c| ==> Some(c[i].action) != cmd.action)
    && if InLog(s, Subject(s, cmd)) then AsksAgain(s, cmd) && r == s
       else
         && !Started(s)
         && (|| (NothingToDecide(s) && r == s)
             || exists target :: Answers(s, cmd, target) && r == WithDecision(s, cmd, SubjectOr(s, cmd), target))
  }

  // ----- the pieces -----

  lemma {:induction false} FoundIs(actions: seq<Action>, id: Id)
    requires DistinctActions(actions)
    ensures FindAction(actions, id).Some? <==> exists k :: 0 <= k < |actions| && actions[k].id == id
    ensures forall k :: 0 <= k < |actions| && actions[k].id == id ==> FindAction(actions, id) == Some(actions[k])
  {
    var found := FindAction(actions, id);
    if found.Some? {
      var k :| 0 <= k < |actions| && actions[k] == found.value;
    }
  }

  lemma OpenIsLast(interrupts: seq<Interrupt>)
    ensures forall i :: 0 <= i < |interrupts| ==> (LastOpen(interrupts, i) <==> LastUnresolved(interrupts) == Some(i))
  {
    var last := LastUnresolved(interrupts);
    if last.Some? { assert LastOpen(interrupts, last.value); }
  }

  lemma {:induction false} BlockIsLast(attempts: seq<Attempt>)
    ensures match LatestBlocked(attempts)
      case None => forall k :: 0 <= k < |attempts| ==> !attempts[k].blocked
      case Some(id) => exists k :: 0 <= k < |attempts| && LastBlock(attempts, k) && attempts[k].id == id
    ensures forall k :: 0 <= k < |attempts| && LastBlock(attempts, k) ==>
      LatestBlocked(attempts) == Some(attempts[k].id)
  {
    if attempts != [] {
      var n := |attempts| - 1;
      if attempts[n].blocked {
        assert LastBlock(attempts, n);
      } else {
        var before := attempts[..n];
        BlockIsLast(before);
        assert forall k :: 0 <= k < n ==> attempts[k] == before[k];
        if LatestBlocked(before).Some? {
          var k :| 0 <= k < n && LastBlock(before, k) && before[k].id == LatestBlocked(before).value;
          assert LastBlock(attempts, k);
        }
        forall k | 0 <= k < |attempts| && LastBlock(attempts, k)
          ensures LatestBlocked(attempts) == Some(attempts[k].id)
        {
          assert LastBlock(before, k);
        }
      }
    }
  }

  lemma FitsIff(s: RunState, i: nat, contract: Option<Id>)
    requires i < |s.interrupts|
    ensures ContractFits(s, i, contract) <==>
      if s.interrupts[i].DriverCheckpoint() && s.handoff.Some? then ReadyFor(s, contract) else contract.None?
  {
  }

  /** Answering the latest unresolved interrupt, or a pause that predates the log. */
  lemma InterruptAnswered(s: RunState, cmd: ResumeCommand, r: RunState)
    requires s.status.AwaitingHuman?
    ensures (exists target :: Answers(s, cmd, target) && r == WithDecision(s, cmd, Identifier(cmd), target)) <==>
      var resolved := ResolveLatestInterrupt(s, cmd);
      resolved.Ok? && r == Decided(resolved.value, KeptProgress(resolved.value))
  {
    OpenIsLast(s.interrupts);
    var last := LastUnresolved(s.interrupts);
    var resolved := ResolveLatestInterrupt(s, cmd);
    if last.Some? {
      FitsIff(s, last.value, cmd.contract);
      assert LastOpen(s.interrupts, last.value);
      OnlyTarget(s, cmd, InterruptAt(last.value));
      if resolved.Ok? { DecidedIs(s, cmd, last.value); }
    } else {
      OnlyTarget(s, cmd, LegacyPause);
      if resolved.Ok? { assert Answers(s, cmd, LegacyPause); }
    }
  }

  lemma OnlyTarget(s: RunState, cmd: ResumeCommand, only: ActionTarget)
    requires s.status.AwaitingHuman?
    requires match LastUnresolved(s.interrupts)
      case Some(i) => only == InterruptAt(i)
      case None => only == LegacyPause
    ensures forall target :: Answers(s, cmd, target) ==> target == only
  {
    OpenIsLast(s.interrupts);
  }

  lemma DecidedIs(s: RunState, cmd: ResumeCommand, i: nat)
    requires s.status.AwaitingHuman? && i < |s.interrupts|
    ensures var resolved := ApplyResolution(s, cmd, i);
      Decided(resolved, KeptProgress(resolved)) == WithDecision(s, cmd, Identifier(cmd), InterruptAt(i))
  {
  }

  lemma BlockAnswered(s: RunState, cmd: ResumeCommand, r: RunState)
    requires StoppedByBlock(s)
    ensures (exists target :: Answers(s, cmd, target) && r == WithDecision(s, cmd, Identifier(cmd), target)) <==>
      var resolved := ResolveBlockedResult(s, cmd);
      resolved.Ok? && r == Decided(resolved.value, None)
  {
    BlockIsLast(s.attempts);
    var blocked := LatestBlocked(s.attempts);
    var target := RoleResult(blocked.value);
    assert forall t :: Answers(s, cmd, t) ==> t == target;
    assert cmd.resolution != "" ==> Answers(s, cmd, target);
  }

  lemma GuardsIff(s: RunState, cmd: ResumeCommand)
    ensures (s.HandoffCancelled()
             || (cmd.action.Some? && FindCorrection(s.History().corrections, cmd.action.value).Some?)) <==>
      var c := s.History().corrections;
      !((c != [] ==> !c[|c| - 1].kind.CancelHandoff?) && forall i :: 0 <= i < |c| ==> Some(c[i].action) != cmd.action)
  {
    var c := s.History().corrections;
    if cmd.action.Some? {
      var found := FindCorrection(c, cmd.action.value);
      if found.None? {
        forall i | 0 <= i < |c| ensures Some(c[i].action) != cmd.action { assert c[i] in c; }
      } else {
        var i :| 0 <= i < |c| && c[i] == found.value;
      }
    }
  }

  lemma BlockedIff(s: RunState)
    ensures StoppedByBlock(s) <==>
      s.status.BlockedStatus? && !s.phase.RecursionLimitExceeded? && LatestBlocked(s.attempts).Some?
  {
    BlockIsLast(s.attempts);
  }

  lemma LogIff(s: RunState, cmd: ResumeCommand)
    requires DistinctActions(s.actions)
    ensures var subject := Subject(s, cmd);
      var previous := if subject.Some? then FindAction(s.actions, subject.value) else None;
      && (InLog(s, subject) <==> previous.Some?)
      && (previous.Some? ==>
            (AsksAgain(s, cmd) <==>
               SameDecision(previous.value, cmd) && s.IntentPending() && s.intent.value.action == subject.value))
  {
    var subject := Subject(s, cmd);
    if subject.Some? { FoundIs(s.actions, subject.value); }
  }

  /** The preparation of a resume is exactly the relation above. */
  lemma PreparedIff(s: RunState, cmd: ResumeCommand, r: RunState)
    requires DistinctActions(s.actions)
    ensures PrepareResume(s, cmd) == Prepared(r) <==> GoesOnWith(s, cmd, r)
  {
    GuardsIff(s, cmd);
    LogIff(s, cmd);
    BlockedIff(s);
    var asked := cmd.(action := Subject(s, cmd));
    if s.status.AwaitingHuman? {
      InterruptAnswered(s, asked, r);
    } else if StoppedByBlock(s) {
      BlockAnswered(s, asked, r);
    }
    AskedSame(s, cmd, r);

  }

  /** Only the id of the command is settled by its subject. */
  lemma AskedSame(s: RunState, cmd: ResumeCommand, r: RunState)
    ensures var asked := cmd.(action := Subject(s, cmd));
      Identifier(asked) == SubjectOr(s, cmd)
      && forall target ::
           (Answers(s, asked, target) <==> Answers(s, cmd, target))
           && WithDecision(s, asked, SubjectOr(s, cmd), target) == WithDecision(s, cmd, SubjectOr(s, cmd), target)
  {
  }

  // ----- the authorization and the entry -----

  /** The pending decision is bound to this contract and resolved a checkpoint that hands off to this Driver. */
  ghost predicate AuthorizesAt(s: RunState, contract: Option<Id>, node: Node) {
    s.intent.Some? && node.IsDriver() &&
    exists k, i :: 0 <= k < |s.actions| && 0 <= i < |s.interrupts|
      && s.actions[k].id == s.intent.value.action && s.actions[k].contract == contract
      && s.actions[k].target == InterruptAt(i)
      && s.interrupts[i].trigger.ManualCheckpoint? && s.interrupts[i].next == Some(node)
  }

  /** Nothing may have started unseen, and a contract must be authorized and admitted right now. */
  ghost predicate MayEnter(r: RunState, cmd: ResumeCommand) {
    !Started(r) &&
    (cmd.contract.None?
     || exists node :: AuthorizesAt(r, cmd.contract, node) && Admissible(r, node, cmd.current, cmd.reconciliation))
  }

  /** Where the graph goes on, by the cursor, a typed block, the last interrupt, the last rejection, the label. */
  function GoesTo(s: RunState): Node {
    if s.progress.Some? && s.progress.value.nextNode != PauseNode && s.progress.value.nextNode != BlockedNode
      then s.progress.value.nextNode
    else if s.status.BlockedStatus? && s.phase.At?
      && (s.phase.node == DriverRed || s.phase.node == DriverGreen || s.phase.node == Refactorer) then s.phase.node
    else if s.interrupts != [] && s.interrupts[|s.interrupts| - 1].next.Some?
      then s.interrupts[|s.interrupts| - 1].next.value
    else if s.rejections != [] then
      var last := s.rejections[|s.rejections| - 1];
      if last == ReviewerGreen then DriverGreen else if last == ReviewerRefactor then Refactorer else DriverRed
    else if s.resumeTarget.Some? then s.resumeTarget.value
    else if s.phase.At? then s.phase.node
    else Architect
  }

  /** The graph is entered there with the document, in progress and at that phase. */
  predicate EnteredWith(w: World, s: RunState) {
    w.process.Some? && w.process.value.Entering? && w.process.value.node == GoesTo(s)
    && var handed := w.process.value.s;
       && handed == s.(status := InProgress, phase := handed.phase, resumeTarget := handed.resumeTarget)
       && (|| (handed.resumeTarget == Some(GoesTo(s)) && handed.phase == At(GoesTo(s)))
           || (handed.resumeTarget.None? && handed.phase == s.phase && !s.phase.At? && GoesTo(s) == Architect))
  }

  lemma AuthorizedIff(s: RunState, contract: Option<Id>, node: Node)
    requires DistinctActions(s.actions)
    ensures AuthorizesAt(s, contract, node) <==> AuthorizedCheckpoint(s, contract) == Some(node)
  {
    if s.intent.Some? { FoundIs(s.actions, s.intent.value.action); }
    if AuthorizedCheckpoint(s, contract) == Some(node) {
      var a := FindAction(s.actions, s.intent.value.action).value;
      var k :| 0 <= k < |s.actions| && s.actions[k] == a;
      assert s.actions[k].target == InterruptAt(a.target.index);
    }
  }

  /** Whether an authorization is admitted, and what it saves. */
  lemma AdmissionIff(s: RunState, cmd: ResumeCommand, now: nat)
    requires DistinctActions(s.actions) && ValidHistory(s.History()) && Timely(s.History(), now)
    ensures AdmitAuthorization(s, cmd, now).Ok? <==>
      cmd.contract.None?
      || exists node :: AuthorizesAt(s, cmd.contract, node) && Admissible(s, node, cmd.current, cmd.reconciliation)
    ensures cmd.contract.None? ==> AdmitAuthorization(s, cmd, now) == Ok(s)
    ensures forall node :: (cmd.contract.Some? && AuthorizesAt(s, cmd.contract, node)
      && Admissible(s, node, cmd.current, cmd.reconciliation)) ==>
        AdmitAuthorization(s, cmd, now) == Ok(GateSaves(s, node, cmd.current, cmd.reconciliation, now))
  {
    forall node ensures AuthorizesAt(s, cmd.contract, node) <==> AuthorizedCheckpoint(s, cmd.contract) == Some(node) {
      AuthorizedIff(s, cmd.contract, node);
    }
    var node := AuthorizedCheckpoint(s, cmd.contract);
    if node.Some? { GateOutcome(s, node.value, cmd.current, cmd.reconciliation, now); }
  }

  lemma EntryIs(w: World, s: RunState)
    requires !s.HandoffCancelled()
    ensures var resumed := ResumeState(s, InferResumeTarget(s));
      EnteredWith(w.(process := Some(Entering(EntryRouter(resumed), resumed))), s)
  {
  }

  /** A gate saves nothing but its record. */
  lemma GateSavesRecord(s: RunState, node: Node, current: Option<Observation>, id: Id, now: nat)
    ensures var r := GateSaves(s, node, current, id, now);
      r == s.(handoff := r.handoff) && r.HandoffCancelled() == s.HandoffCancelled()
  {
  }

  /** What a resume may leave behind: nothing changed, or the graph entered with the document it goes on with. */
  ghost predicate ResumedWith(w: World, w': World, cmd: ResumeCommand, r: RunState) {
    && EnteredWith(w', w'.disk) && w'.entered == w.entered
    && (cmd.contract.None? ==> w'.disk == r)
    && (forall node :: cmd.contract.Some? && AuthorizesAt(r, cmd.contract, node) ==>
          w'.disk == GateSaves(r, node, cmd.current, cmd.reconciliation, w.clock))
  }

  /**
   A resume goes on exactly when there is a document to go on with that may enter, there is only one, and
   the saved document and the entry of the graph follow from it.
   */
  lemma ResumeOutcome(w: World, cmd: ResumeCommand)
    requires w.process.None? && ActionsOk(w.disk) && FreshAction(w, cmd.generated)
    requires ValidHistory(w.disk.History()) && Timely(w.disk.History(), w.clock)
    ensures ResumeRun(w, cmd).process.Some? <==> exists r :: GoesOnWith(w.disk, cmd, r) && MayEnter(r, cmd)
    ensures ResumeRun(w, cmd).process.None? ==> ResumeRun(w, cmd) == w
    ensures forall r :: GoesOnWith(w.disk, cmd, r) && MayEnter(r, cmd) ==> ResumedWith(w, ResumeRun(w, cmd), cmd, r)
  {
    PrepareKeepsActions(w.disk, cmd);
    forall r ensures PrepareResume(w.disk, cmd) == Prepared(r) <==> GoesOnWith(w.disk, cmd, r) {
      PreparedIff(w.disk, cmd, r);
    }
    var prepared := PrepareResume(w.disk, cmd);
    if prepared.Prepared? {
      PreparedKeepsHandoff(w.disk, cmd);
      AdmissionIff(prepared.s, cmd, w.clock);
      EnteredFrom(w, cmd, prepared.s);
    }
  }

  lemma PreparedKeepsHandoff(s: RunState, cmd: ResumeCommand)
    ensures match PrepareResume(s, cmd)
      case Prepared(r) => r.handoff == s.handoff && !r.HandoffCancelled()
      case _ => true
  {
  }

  lemma EnteredFrom(w: World, cmd: ResumeCommand, r: RunState)
    requires w.process.None? && PrepareResume(w.disk, cmd) == Prepared(r) && !r.HandoffCancelled()
    ensures var w' := ResumeRun(w, cmd);
      match AdmitAuthorization(r, cmd, w.clock)
      case Refused => w' == w
      case Ok(s) =>
        if Started(r) then w' == w
        else w'.process.Some? && w'.disk == s && EnteredWith(w', w'.disk) && w'.entered == w.entered
  {
    AuthorizationShape(r, cmd, w.clock);
    match AdmitAuthorization(r, cmd, w.clock)
    case Refused =>
    case Ok(s) => EntryIs(w, s);
  }
}

/**
 What becomes of human input inside a run: an authorization lasts for one finished attempt, and a
 queued intervention reaches exactly one attempt of its target role.
 */
module Deliveries {
  import opened Options
  import opened RunModel
  import opened Handoffs
  import opened Engine
  import opened RunRecords
  import opened Decisions

  // ----- authorizations -----

  /** Finishing an attempt spends the authorization that let the run go on. */
  lemma FinishSpends(w: World, p: Process, o: RoleOutcome)
    requires p.Running? && p.node.RunsRole()
    ensures !FinishRole(w, p, o).disk.IntentPending()
  {
  }

  lemma ProcessNeverAuthorizes(w: World, e: Event, start: int)
    requires WorldOk(w, start) && Enabled(w, e) && w.process.Some? && !w.disk.IntentPending()
    ensures !Perform(w, e).disk.IntentPending()
  {
    if e.Gate? {
      GateLeavesInterventions(w, w.process.value, e.current, e.id);
    } else if e.Finish? {
      FinishSpends(w, w.process.value, e.outcome);
    } else if e.Create? {
      CreateNeverAuthorizes(w, w.process.value, e.newId);
    } else {
      QuietFrame(w, e);
    }
  }

  lemma CreateNeverAuthorizes(w: World, p: Process, newId: Id)
    requires ProcessOk(w) && w.process == Some(p) && p.Looping?
    ensures CreateAttempt(w, p, newId).disk.intent == w.disk.intent
  {
  }

  /** Only a new human decision authorizes anything, and it is the one that was just recorded. */
  lemma OnlyDecisionsAuthorize(w: World, e: Event, start: int)
    requires WorldOk(w, start) && ActionsOk(w.disk) && Enabled(w, e)
    requires !w.disk.IntentPending() && Perform(w, e).disk.IntentPending()
    ensures e.Resume?
    ensures var s := Perform(w, e).disk;
      && |s.actions| == |w.disk.actions| + 1 && s.actions[..|w.disk.actions|] == w.disk.actions
      && s.intent == Some(Intent(s.actions[|w.disk.actions|].id, false))
  {
    if w.process.Some? {
      ProcessNeverAuthorizes(w, e, start);
    } else {
      match e
      case Resume(cmd) =>
        PreparedAppends(w.disk, cmd);
        if PrepareResume(w.disk, cmd).Prepared? { AuthorizationShape(PrepareResume(w.disk, cmd).s, cmd, w.clock); }
      case Queue(cmd) =>
      case SealFull(obs, id) => ReconcileFrame(w.disk, obs, true, None, id, w.clock);
      case SealDirect(obs, id) => ReconcileFrame(w.disk, obs, false, None, id, w.clock);
      case Change(cmd) => ChangeAppends(w.disk, cmd, w.clock);
    }
  }

  // ----- interventions -----

  /** One intervention before and after: untouched, or handed to the unfinished attempt of its target. */
  ghost predicate Handed(before: Intervention, after: Intervention, s: RunState) {
    || after == before
    || (&& before.deliveredTo.None? && s.attempts != []
        && s.attempts[|s.attempts| - 1].node == before.target && s.attempts[|s.attempts| - 1].outcome.Unfinished?
        && after == before.(deliveredTo := Some(s.attempts[|s.attempts| - 1].id)))
  }

  ghost predicate AllHanded(before: RunState, after: RunState) {
    && |before.interventions| <= |after.interventions|
    && forall k :: 0 <= k < |before.interventions| ==> Handed(before.interventions[k], after.interventions[k], after)
  }

  lemma CreateHands(w: World, p: Process, newId: Id, start: int)
    requires WorldOk(w, start) && w.process == Some(p) && p.Looping?
    requires !MustPauseForBudget(p.s, p.correction) && FreshExecution(w, newId)
    ensures AllHanded(w.disk, CreateAttempt(w, p, newId).disk)
  {
    var s := p.s;
    if s.progress.Some? && s.progress.value.stage.AttemptCreated? {
      var last := s.attempts[|s.attempts| - 1];
      assert last in s.attempts;
      FindUnique(s.attempts, last);
      SaveHands(w, p, s, last.id);
    } else {
      SaveHands(w, p, s.(attempts := s.attempts + [NewAttempt(s, p.node, newId, w.clock)]), newId);
    }
  }

  /** The created save binds what waits for the node to its last attempt. */
  lemma SaveHands(w: World, p: Process, s: RunState, id: Id)
    requires p.Looping? && s.attempts != [] && s.interventions == w.disk.interventions
    requires var last := s.attempts[|s.attempts| - 1];
      last.id == id && last.node == p.node && last.outcome.Unfinished?
    ensures AllHanded(w.disk, SaveCreated(w, p, s, id).disk)
  {
  }

  lemma ProcessHands(w: World, e: Event, p: Process, start: int)
    requires WorldOk(w, start) && Enabled(w, e) && w.process == Some(p)
    ensures AllHanded(w.disk, Perform(w, e).disk)
  {
    if e.Create? {
      CreateHands(w, p, e.newId, start);
    } else if e.Gate? {
      GateLeavesInterventions(w, p, e.current, e.id);
    } else if e.Finish? {
      AfterRoleFrame(p.s, p.node, e.outcome, p.correctionAttempt != 0);
    } else {
      QuietFrame(w, e);
    }
  }

  lemma GateLeavesInterventions(w: World, p: Process, current: Option<Observation>, id: Id)
    requires ProcessOk(w) && w.process == Some(p) && p.Looping?
    ensures PassGate(w, p, current, id).disk.interventions == w.disk.interventions
    ensures PassGate(w, p, current, id).disk.intent == w.disk.intent
  {
    var h := GateShapes(w, p, current, id);
  }

  lemma StepHands(w: World, e: Event, start: int)
    requires WorldOk(w, start) && Enabled(w, e)
    ensures AllHanded(w.disk, Perform(w, e).disk)
  {
    if w.process.Some? {
      ProcessHands(w, e, w.process.value, start);
    } else {
      match e
      case Resume(cmd) =>
        PreparedShape(w.disk, cmd, start);
        if PrepareResume(w.disk, cmd).Prepared? { AuthorizationShape(PrepareResume(w.disk, cmd).s, cmd, w.clock); }
      case Queue(cmd) =>
      case SealFull(obs, id) => ReconcileFrame(w.disk, obs, true, None, id, w.clock);
      case SealDirect(obs, id) => ReconcileFrame(w.disk, obs, false, None, id, w.clock);
      case Change(cmd) => ChangeShape(w.disk, cmd, w.clock);
    }
  }

  /** Over any run a delivered intervention stays as it is: it reached one attempt, for good. */
  lemma {:induction false} DeliveredForGood(w: World, events: seq<Event>, start: int, k: nat)
    requires WorldOk(w, start) && k < |w.disk.interventions| && w.disk.interventions[k].deliveredTo.Some?
    ensures k < |Exec(w, events).disk.interventions|
    ensures Exec(w, events).disk.interventions[k] == w.disk.interventions[k]
    decreases |events|
  {
    if events != [] {
      var e := events[0];
      if Enabled(w, e) {
        StepHands(w, e, start);
        assert Handed(w.disk.interventions[k], Perform(w, e).disk.interventions[k], Perform(w, e).disk);
        PerformKeeps(w, e, start);
        HaltKeeps(Perform(w, e), w.clock + 1, start);
      }
      DeliveredForGood(Step(w, e), events[1..], start, k);
    }
  }
}

/**
 The handoff over whole runs: its lists only grow, a return to the Architect is answered by a later
 Architect attempt before anything is approved, and an approved contract names the Architect
 execution that was the last one when it was approved.
 */
module ChangeRuns {
  import opened Options
  import opened RunModel
  import opened Handoffs
  import opened Engine
  import opened RunRecords
  import opened HandoffRuns
  import opened HandoffChanges

  // ----- what one step may do -----

  /** Attempts keep who they are; new ones start now. */
  ghost predicate AttemptsGrow(before: seq<Attempt>, after: seq<Attempt>, now: nat) {
    && |before| <= |after|
    && (forall k :: 0 <= k < |before| ==> SameAttempt(before[k], after[k]))
    && (forall k :: |before| <= k < |after| ==> after[k].startedAt == now)
  }

  predicate SameAttempt(a: Attempt, b: Attempt) { a.id == b.id && a.node == b.node && a.startedAt == b.startedAt }

  /** The lists of the handoff only grow, by records of this moment. */
  ghost predicate ListsGrow(h: Handoff, g: Handoff, now: nat) {
    && h.contracts <= g.contracts && h.reconciliations <= g.reconciliations && h.corrections <= g.corrections
    && (forall i :: |h.reconciliations| <= i < |g.reconciliations| ==> g.reconciliations[i].at == now)
    && (forall i :: |h.corrections| <= i < |g.corrections| ==> g.corrections[i].at == now)
  }

  /** An approval adds its contract, after any return was answered, for the last Architect execution. */
  ghost predicate ApprovalMade(s: RunState, h: Handoff, g: Handoff) {
    && |g.contracts| == |h.contracts| + 1 && |g.corrections| == |h.corrections| + 1
    && g.corrections[|h.corrections|].corrected == Some(g.contracts[|h.contracts|].id)
    && ReturnAnswered(s) && NamesLastArchitect(s, g.contracts[|h.contracts|])
  }

  /** No correction is added, or exactly one to a history that was not cancelled. */
  ghost predicate CorrectionMade(s: RunState, h: Handoff, g: Handoff) {
    || g.corrections == h.corrections
    || (&& |g.corrections| == |h.corrections| + 1 && !s.HandoffCancelled()
        && (g.corrections[|h.corrections|].corrected.Some? ==> g.corrections[|h.corrections|].kind.ApproveCorrection?)
        && (g.corrections[|h.corrections|].kind.ApproveCorrection? ==> ApprovalMade(s, h, g)))
  }

  ghost predicate Moves(s: RunState, r: RunState, now: nat) {
    && AttemptsGrow(s.attempts, r.attempts, now)
    && (r.History().corrections != s.History().corrections ==> |r.attempts| == |s.attempts|)
    && ListsGrow(s.History(), r.History(), now)
    && CorrectionMade(s, s.History(), r.History())
  }

  lemma StillMoves(s: RunState, r: RunState, now: nat)
    requires r.attempts == s.attempts && r.handoff == s.handoff
    ensures Moves(s, r, now)
  {
  }

  lemma RecordsMove(s: RunState, r: RunState, now: nat)
    requires r.attempts == s.attempts && ListsGrow(s.History(), r.History(), now)
    requires r.History().corrections == s.History().corrections
    ensures Moves(s, r, now)
  {
  }

  lemma ReconcileMoves(s: RunState, obs: Observation, initialOnly: bool, id: Id, now: nat)
    ensures match ReconcileRun(s, obs, initialOnly, None, id, now)
      case Refused => true
      case Ok(r) => ListsGrow(s.History(), r.History(), now) && r.History().corrections == s.History().corrections
  {
  }

  lemma AdmitMoves(s: RunState, node: Node, current: Option<Observation>, id: Id, now: nat)
    ensures match AdmitDriver(s, node, current, id, now)
      case GateRefused(r) => ListsGrow(s.History(), r.History(), now) &&
        r.History().corrections == s.History().corrections
      case Admitted(r) => ListsGrow(s.History(), r.History(), now) && r.History().corrections == s.History().corrections
  {
    if current.Some? { ReconcileMoves(s, current.value, false, id, now); }
  }

  // ----- each kind of event -----

  lemma GateMoves(w: World, p: Process, current: Option<Observation>, id: Id)
    requires ProcessOk(w) && w.process == Some(p) && p.Looping?
    ensures Moves(w.disk, PassGate(w, p, current, id).disk, w.clock)
  {
    ProcessHandoff(w);
    AdmitMoves(p.s, p.node, current, id, w.clock);
    AdmitFrame(p.s, p.node, current, id, w.clock);
    RecordsMove(w.disk, PassGate(w, p, current, id).disk, w.clock);
  }

  lemma CreateMoves(w: World, p: Process, newId: Id)
    requires ProcessOk(w) && w.process == Some(p) && p.Looping?
    ensures Moves(w.disk, CreateAttempt(w, p, newId).disk, w.clock)
  {
    ProcessHandoff(w);
    CreateKeepsHandoff(w, p, newId);
    assert p.s.attempts == w.disk.attempts;
  }

  lemma FinishMoves(w: World, p: Process, o: RoleOutcome, start: int)
    requires WorldOk(w, start) && w.process == Some(p) && p.Running? && OutcomeFits(p.node, o)
    ensures Moves(w.disk, FinishRole(w, p, o).disk, w.clock)
  {
    ProcessHandoff(w);
    AfterRoleFrame(p.s, p.node, o, p.correctionAttempt != 0);
    FinishedDisk(w, p, o, start);
    var last := w.disk.attempts[|w.disk.attempts| - 1];
    assert last in w.disk.attempts;
    FindUnique(w.disk.attempts, last);
    FinishedMoves(w.disk, FinishRole(w, p, o).disk, FinishedAttempt(p.s, p, o), w.clock);
  }

  lemma FinishedMoves(s: RunState, r: RunState, f: Attempt, now: nat)
    requires s.attempts != [] && SameAttempt(s.attempts[|s.attempts| - 1], f)
    requires r.attempts == s.attempts[|s.attempts| - 1 := f] && r.handoff == s.handoff
    ensures Moves(s, r, now)
  {
  }

  lemma ResumeMoves(w: World, cmd: ResumeCommand, start: int)
    requires WorldOk(w, start)
    ensures Moves(w.disk, ResumeRun(w, cmd).disk, w.clock)
  {
    PreparedShape(w.disk, cmd, start);
    var s := ResumeRun(w, cmd).disk;
    if s == w.disk {
      StillMoves(w.disk, s, w.clock);
    } else {
      var prepared := PrepareResume(w.disk, cmd);
      AuthorizationMoves(prepared.s, cmd, w.clock);
      RecordsMove(w.disk, s, w.clock);
    }
  }

  lemma AuthorizationMoves(s: RunState, cmd: ResumeCommand, now: nat)
    ensures match AdmitAuthorization(s, cmd, now)
      case Refused => true
      case Ok(r) =>
        r.attempts == s.attempts && ListsGrow(s.History(), r.History(), now)
        && r.History().corrections == s.History().corrections
  {
    AuthorizationShape(s, cmd, now);
    var node := AuthorizedCheckpoint(s, cmd.contract);
    if node.Some? { AdmitMoves(s, node.value, cmd.current, cmd.reconciliation, now); }
  }

  lemma SealMoves(w: World, obs: Observation, id: Id)
    ensures Moves(w.disk, SaveIfOk(w, SealArchitect(w.disk, obs, id, w.clock)).disk, w.clock)
    ensures Moves(w.disk, SaveIfOk(w, SealCompact(w.disk, obs, id, w.clock)).disk, w.clock)
  {
    ReconcileMoves(w.disk, obs, true, id, w.clock);
    ReconcileMoves(w.disk, obs, false, id, w.clock);
    ReconcileFrame(w.disk, obs, true, None, id, w.clock);
    ReconcileFrame(w.disk, obs, false, None, id, w.clock);
    RecordsMove(w.disk, SaveIfOk(w, SealArchitect(w.disk, obs, id, w.clock)).disk, w.clock);
    RecordsMove(w.disk, SaveIfOk(w, SealCompact(w.disk, obs, id, w.clock)).disk, w.clock);
  }

  lemma ChangeMoves(s: RunState, cmd: ChangeCommand, now: nat)
    ensures match ChangeHandoff(s, cmd, now)
      case Refused => true
      case Ok(r) => Moves(s, r, now)
  {
    if ChangeHandoff(s, cmd, now).Ok? && FindCorrection(s.History().corrections, cmd.action).None? {
      ChangeShape(s, cmd, now);
      if cmd.kind.ApproveCorrection? {
        ApprovalMoves(s, cmd, now);
      } else {
        WithdrawalMoves(s, cmd, now);
      }
    }
  }

  lemma ApprovalMoves(s: RunState, cmd: ChangeCommand, now: nat)
    requires cmd.kind.ApproveCorrection? && !s.HandoffCancelled() && ApproveChange(s, cmd, now).Ok?
    requires ApproveChange(s, cmd, now).value.attempts == s.attempts
    ensures Moves(s, ApproveChange(s, cmd, now).value, now)
  {
    ApprovalBranches(s, cmd, now);
    ReplacementOutcome(s, cmd, now);
    FirstRecordReady(cmd, now);
  }

  lemma WithdrawalMoves(s: RunState, cmd: ChangeCommand, now: nat)
    requires !cmd.kind.ApproveCorrection? && !s.HandoffCancelled() && ReturnOrCancel(s, cmd, now).Ok?
    requires CorrectionWellFormed(CorrectionOf(cmd, now))
    ensures Moves(s, ReturnOrCancel(s, cmd, now).value, now)
  {
  }

  lemma PerformMoves(w: World, e: Event, start: int)
    requires WorldOk(w, start) && Enabled(w, e)
    ensures Moves(w.disk, Perform(w, e).disk, w.clock)
  {
    if w.process.Some? {
      ProcessMoves(w, e, w.process.value, start);
    } else {
      HumanMoves(w, e, start);
    }
  }

  lemma ProcessMoves(w: World, e: Event, p: Process, start: int)
    requires WorldOk(w, start) && Enabled(w, e) && w.process == Some(p)
    ensures Moves(w.disk, Perform(w, e).disk, w.clock)
  {
    if e.Gate? {
      GateMoves(w, p, e.current, e.id);
    } else if e.Create? {
      CreateMoves(w, p, e.newId);
    } else if e.Finish? {
      FinishMoves(w, p, e.outcome, start);
    } else {
      QuietFrame(w, e);
      StillMoves(w.disk, Perform(w, e).disk, w.clock);
    }
  }

  lemma HumanMoves(w: World, e: Event, start: int)
    requires WorldOk(w, start) && Enabled(w, e) && w.process.None?
    ensures Moves(w.disk, Perform(w, e).disk, w.clock)
  {
    if e.Resume? {
      ResumeMoves(w, e.cmd, start);
    } else if e.SealFull? {
      SealMoves(w, e.evidence, e.id);
    } else if e.SealDirect? {
      SealMoves(w, e.evidence, e.id);
    } else if e.Change? {
      ChangeMoves(w.disk, e.change, w.clock);
    } else {
      StillMoves(w.disk, Perform(w, e).disk, w.clock);
    }
  }

  // ----- what every run keeps -----

  /** Everything recorded lies in the past. */
  ghost predicate Dated(s: RunState, now: nat) {
    && (forall k :: 0 <= k < |s.attempts| ==> s.attempts[k].startedAt < now)
    && (forall i :: 0 <= i < |s.History().reconciliations| ==> s.History().reconciliations[i].at < now)
    && (forall i :: 0 <= i < |s.History().corrections| ==> s.History().corrections[i].at < now)
  }

  lemma DatedIsTimely(s: RunState, now: nat)
    requires Dated(s, now)
    ensures Timely(s.History(), now)
  {
  }

  /** An Architect attempt started after `from`, and not after `to`. */
  ghost predicate StartedBetween(attempts: seq<Attempt>, from: nat, to: nat) {
    exists k :: 0 <= k < |attempts| && attempts[k].node.Architect? && from < attempts[k].startedAt <= to
  }

  /** At `time`, the last Architect attempt was `execution`. */
  ghost predicate WasLastArchitect(attempts: seq<Attempt>, execution: Id, time: nat) {
    exists k :: 0 <= k < |attempts| && ArchitectAsOf(attempts, k, time) && attempts[k].id == execution
  }

  ghost predicate ArchitectAsOf(attempts: seq<Attempt>, k: nat, time: nat)
    requires k < |attempts|
  {
    && attempts[k].node.Architect? && attempts[k].startedAt <= time
    && forall m :: k < m < |attempts| && attempts[m].node.Architect? ==> attempts[m].startedAt > time
  }

  ghost predicate ReturnsAnswered(s: RunState) {
    var c := s.History().corrections;
    forall i, j :: 0 <= i < j < |c| && c[i].kind.ReturnToArchitect? && c[j].kind.ApproveCorrection? ==>
      StartedBetween(s.attempts, c[i].at, c[j].at)
  }

  ghost predicate ApprovedNamesLast(s: RunState, j: nat, k: nat)
    requires j < |s.History().corrections| && k < |s.History().contracts|
  {
    var x, c := s.History().corrections[j], s.History().contracts[k];
    x.corrected == Some(c.id) && c.architectExecution.Some? ==>
      WasLastArchitect(s.attempts, c.architectExecution.value, x.at)
  }

  ghost predicate ApprovalsNameLast(s: RunState) {
    forall j, k :: 0 <= j < |s.History().corrections| && 0 <= k < |s.History().contracts| ==> ApprovedNamesLast(s, j, k)
  }

  lemma BetweenStays(before: seq<Attempt>, after: seq<Attempt>, now: nat, from: nat, to: nat)
    requires AttemptsGrow(before, after, now) && StartedBetween(before, from, to)
    ensures StartedBetween(after, from, to)
  {
    var k :| 0 <= k < |before| && before[k].node.Architect? && from < before[k].startedAt <= to;
    assert SameAttempt(before[k], after[k]);
  }

  lemma LastStays(before: seq<Attempt>, after: seq<Attempt>, now: nat, execution: Id, time: nat)
    requires AttemptsGrow(before, after, now) && WasLastArchitect(before, execution, time) && time < now
    ensures WasLastArchitect(after, execution, time)
  {
    var k :| 0 <= k < |before| && ArchitectAsOf(before, k, time) && before[k].id == execution;
    forall m | k <= m < |after| ensures m < |before| ==> SameAttempt(before[m], after[m]) {
    }
    assert ArchitectAsOf(after, k, time);
  }

  lemma DatedStep(s: RunState, r: RunState, now: nat)
    requires Dated(s, now) && Moves(s, r, now)
    ensures Dated(r, now + 1)
  {
    forall k | 0 <= k < |r.attempts| ensures r.attempts[k].startedAt < now + 1 {
      assert k < |s.attempts| ==> SameAttempt(s.attempts[k], r.attempts[k]);
    }
  }

  /** A new approval is answered by the attempt that answered the return just before it, or by an earlier approval's. */
  lemma NewApprovalAnswered(s: RunState, r: RunState, now: nat, i: nat)
    requires Dated(s, now) && Moves(s, r, now) && ReturnsAnswered(s) &&
      CorrectionsValid(s.History().contracts, s.History().corrections)
    requires |r.History().corrections| == |s.History().corrections| + 1 && i < |s.History().corrections|
    requires r.History().corrections[i].kind.ReturnToArchitect?
    requires r.History().corrections[|s.History().corrections|].kind.ApproveCorrection?
    ensures StartedBetween(s.attempts, r.History().corrections[i].at, now)
  {
    var c := s.History().corrections;
    var n := |c|;
    if c[n - 1].kind.ReturnToArchitect? {
      assert i < n - 1 ==> CorrectionFollows(c[i], c[n - 1]);
      var k :| 0 <= k < |s.attempts| && LastArchitectAt(s.attempts, k) && s.attempts[k].startedAt > c[n - 1].at;
      assert c[i].at < s.attempts[k].startedAt;
    } else {
      assert c[n - 1].kind.ApproveCorrection?;
      assert StartedBetween(s.attempts, c[i].at, c[n - 1].at);
      var k :| 0 <= k < |s.attempts| && s.attempts[k].node.Architect? &&
        c[i].at < s.attempts[k].startedAt <= c[n - 1].at;
    }
  }

  lemma ReturnsStep(s: RunState, r: RunState, now: nat)
    requires Dated(s, now) && Moves(s, r, now) && ReturnsAnswered(s) &&
      CorrectionsValid(s.History().contracts, s.History().corrections)
    ensures ReturnsAnswered(r)
  {
    var c, d := s.History().corrections, r.History().corrections;
    forall i, j | 0 <= i < j < |d| && d[i].kind.ReturnToArchitect? && d[j].kind.ApproveCorrection?
      ensures StartedBetween(r.attempts, d[i].at, d[j].at)
    {
      if j == |c| {
        NewApprovalAnswered(s, r, now, i);
      }
      BetweenStays(s.attempts, r.attempts, now, d[i].at, d[j].at);
    }
  }

  lemma ApprovalsStep(s: RunState, r: RunState, now: nat)
    requires Dated(s, now) && Moves(s, r, now) && ApprovalsNameLast(s)
    requires ValidHistory(s.History()) && ValidHistory(r.History())
    ensures ApprovalsNameLast(r)
  {
    forall j, k | 0 <= j < |r.History().corrections| && 0 <= k < |r.History().contracts|
      ensures ApprovedNamesLast(r, j, k)
    {
      if j < |s.History().corrections| {
        OldApprovalStays(s, r, now, j, k);
      } else {
        NewApprovalNames(s, r, now, k);
      }
    }
  }

  lemma OldApprovalStays(s: RunState, r: RunState, now: nat, j: nat, k: nat)
    requires Dated(s, now) && Moves(s, r, now) && ApprovalsNameLast(s)
    requires ValidHistory(s.History()) && ValidHistory(r.History())
    requires j < |s.History().corrections| && k < |r.History().contracts|
    ensures ApprovedNamesLast(r, j, k)
  {
    var h, g := s.History(), r.History();
    var x, c := g.corrections[j], g.contracts[k];
    if x.corrected == Some(c.id) && c.architectExecution.Some? {
      assert CorrectionKnown(h.contracts, h.corrections[j]);
      var m :| 0 <= m < |h.contracts| && h.contracts[m].id == c.id;
      assert g.contracts[m].id == c.id;
      assert m == k;
      assert ApprovedNamesLast(s, j, k);
      LastStays(s.attempts, r.attempts, now, c.architectExecution.value, x.at);
    }
  }

  lemma NewApprovalNames(s: RunState, r: RunState, now: nat, k: nat)
    requires Dated(s, now) && Moves(s, r, now) && ValidHistory(r.History())
    requires |r.History().corrections| == |s.History().corrections| + 1 && k < |r.History().contracts|
    ensures ApprovedNamesLast(r, |s.History().corrections|, k)
  {
    var h, g := s.History(), r.History();
    var x, c := g.corrections[|h.corrections|], g.contracts[k];
    if x.corrected == Some(c.id) && c.architectExecution.Some? {
      assert x.kind.ApproveCorrection? && ApprovalMade(s, h, g);
      assert k == |h.contracts|;
      LastIsWasLast(s, r, now, c);
    }
  }

  lemma LastIsWasLast(s: RunState, r: RunState, now: nat, c: Contract)
    requires Dated(s, now) && NamesLastArchitect(s, c) && c.architectExecution.Some?
    requires AttemptsGrow(s.attempts, r.attempts, now) && |r.attempts| == |s.attempts|
    ensures WasLastArchitect(r.attempts, c.architectExecution.value, now)
  {
    var m :| 0 <= m < |s.attempts| && LastArchitectAt(s.attempts, m) && s.attempts[m].id == c.architectExecution.value;
    forall k | 0 <= k < |s.attempts| ensures SameAttempt(s.attempts[k], r.attempts[k]) {
    }
    assert ArchitectAsOf(r.attempts, m, now);
  }

  ghost predicate KeepsOrder(w: World, start: int) {
    && WorldOk(w, start) && HistoryOk(w.disk.History())
    && Dated(w.disk, w.clock) && ReturnsAnswered(w.disk) && ApprovalsNameLast(w.disk)
  }

  lemma StepKeepsOrder(w: World, e: Event, start: int)
    requires KeepsOrder(w, start)
    ensures KeepsOrder(Step(w, e), start)
  {
    if Enabled(w, e) {
      PerformMoves(w, e, start);
      PerformKeepsHistory(w, e, start);
      PerformKeeps(w, e, start);
      HaltKeeps(Perform(w, e), w.clock + 1, start);
      OrderMoves(w.disk, Perform(w, e).disk, w.clock);
    }
  }

  lemma OrderMoves(s: RunState, r: RunState, now: nat)
    requires Moves(s, r, now) && HistoryOk(s.History()) && HistoryOk(r.History())
    requires Dated(s, now) && ReturnsAnswered(s) && ApprovalsNameLast(s)
    ensures Dated(r, now + 1) && ReturnsAnswered(r) && ApprovalsNameLast(r)
  {
    DatedStep(s, r, now);
    ReturnsStep(s, r, now);
    ApprovalsStep(s, r, now);
  }

  lemma {:induction false} ExecKeepsOrder(w: World, events: seq<Event>, start: int)
    requires KeepsOrder(w, start)
    ensures KeepsOrder(Exec(w, events), start)
    decreases |events|
  {
    if events != [] {
      StepKeepsOrder(w, events[0], start);
      ExecKeepsOrder(Step(w, events[0]), events[1..], start);
    }
  }

  lemma StartKeepsOrder(limit: int, used: int, admission: Option<Admission>)
    ensures KeepsOrder(StartRun(limit, used, admission), used)
  {
    StartOk(limit, used, admission);
  }

  // ----- the results -----

  /**
   In every run, between a return to the Architect and any later approved correction an Architect
   attempt started, strictly after the return.
   */
  lemma ReturnsAreAnswered(limit: int, used: int, admission: Option<Admission>, events: seq<Event>, i: nat, j: nat)
    ensures var s := Exec(StartRun(limit, used, admission), events).disk;
      var c := s.History().corrections;
      i < j < |c| && c[i].kind.ReturnToArchitect? && c[j].kind.ApproveCorrection? ==>
        exists k :: 0 <= k < |s.attempts| && s.attempts[k].node.Architect?
                    && c[i].at < s.attempts[k].startedAt <= c[j].at
  {
    var w := StartRun(limit, used, admission);
    StartKeepsOrder(limit, used, admission);
    ExecKeepsOrder(w, events, used);
    var s := Exec(w, events).disk;
    var c := s.History().corrections;
    if i < j < |c| && c[i].kind.ReturnToArchitect? && c[j].kind.ApproveCorrection? {
      assert StartedBetween(s.attempts, c[i].at, c[j].at);
    }
  }

  /**
   In every run, a contract that was approved and names an Architect execution names the attempt that was
   the Architect's last when it was approved: every later Architect attempt started after the approval.
   */
  lemma ApprovedContractNamesLast(
    limit: int, used: int, admission: Option<Admission>, events: seq<Event>, j: nat, k: nat)
    ensures var s := Exec(StartRun(limit, used, admission), events).disk;
      var h := s.History();
      j < |h.corrections| && k < |h.contracts| && h.corrections[j].corrected == Some(h.contracts[k].id)
      && h.contracts[k].architectExecution.Some? ==>
        exists m :: 0 <= m < |s.attempts| && s.attempts[m].id == h.contracts[k].architectExecution.value
                    && ArchitectAsOf(s.attempts, m, h.corrections[j].at)
  {
    var w := StartRun(limit, used, admission);
    StartKeepsOrder(limit, used, admission);
    ExecKeepsOrder(w, events, used);
    var s := Exec(w, events).disk;
    if j < |s.History().corrections| && k < |s.History().contracts| {
      assert ApprovedNamesLast(s, j, k);
    }
  }

  /** No record is ever taken back: what a document has retained, every later document of the run retains. */
  lemma {:induction false} HistoryOnlyGrows(w: World, events: seq<Event>, start: int)
    requires KeepsOrder(w, start)
    ensures var h, g := w.disk.History(), Exec(w, events).disk.History();
      h.contracts <= g.contracts && h.reconciliations <= g.reconciliations && h.corrections <= g.corrections
    decreases |events|
  {
    if events != [] {
      var e := events[0];
      if Enabled(w, e) { PerformMoves(w, e, start); }
      StepKeepsOrder(w, e, start);
      HistoryOnlyGrows(Step(w, e), events[1..], start);
    }
  }
}

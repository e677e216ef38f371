/**
 What the artifact-target handoff keeps over whole runs: clarification is sticky, every
 Driver start is authorized by the contract active at that moment, a cancelled run never
 starts a role again, and a returned one starts no Driver before a correction is approved.
 */
module HandoffRuns {
  import opened Options
  import opened RunModel
  import opened Handoffs
  import opened Engine
  import opened RunRecords
  import opened Decisions

  // ----- the history invariant -----

  ghost predicate Approved(h: Handoff, contract: Id) {
    exists i :: 0 <= i < |h.corrections| && h.corrections[i].corrected == Some(contract)
  }

  /** Two neighbouring records: the same ready contract assessed again, or the next one just approved. */
  ghost predicate Succession(h: Handoff, i: nat)
    requires i + 1 < |h.reconciliations|
  {
    var a, b := h.reconciliations[i], h.reconciliations[i + 1];
    || (a.contract == b.contract && a.Ready() && (b.Ready() ==> a.snapshot == b.snapshot))
    || (b.Ready() && Approved(h, b.contract) && Supersedes(h.contracts, b.contract, a.contract))
  }

  /** `later` is the contract retained directly after `earlier`. */
  ghost predicate Supersedes(contracts: seq<Contract>, later: Id, earlier: Id) {
    exists k :: 0 <= k && k + 1 < |contracts| && contracts[k].id == earlier && contracts[k + 1].id == later
  }

  ghost predicate Withdrawn(h: Handoff) {
    h.corrections != [] && !h.corrections[|h.corrections| - 1].kind.ApproveCorrection?
  }

  ghost predicate HistoryOk(h: Handoff) {
    && ValidHistory(h)
    && (h.contracts == [] <==> h.reconciliations == [])
    && (h.reconciliations != [] ==> Some(h.reconciliations[|h.reconciliations| - 1].contract) == Tip(h))
    && (forall i :: 0 <= i && i + 1 < |h.reconciliations| ==> Succession(h, i))
    && (Withdrawn(h) ==> h.active.None?)
  }

  /** Growing the lists keeps every earlier succession. */
  lemma SuccessionGrows(h: Handoff, g: Handoff, i: nat)
    requires i + 1 < |h.reconciliations| && Succession(h, i)
    requires h.contracts <= g.contracts && h.reconciliations <= g.reconciliations && h.corrections <= g.corrections
    ensures Succession(g, i)
  {
    var a, b := h.reconciliations[i], h.reconciliations[i + 1];
    assert g.reconciliations[i] == a && g.reconciliations[i + 1] == b;
    if !(a.contract == b.contract && a.Ready() && (b.Ready() ==> a.snapshot == b.snapshot)) {
      var k :| 0 <= k && k + 1 < |h.contracts| && h.contracts[k].id == a.contract &&
        h.contracts[k + 1].id == b.contract;
      assert g.contracts[k].id == a.contract && g.contracts[k + 1].id == b.contract;
      var c :| 0 <= c < |h.corrections| && h.corrections[c].corrected == Some(b.contract);
      assert g.corrections[c].corrected == Some(b.contract);
    }
  }

  /** `g` is `h` with one more record of the contract at the end of the chain, maybe the very first. */
  ghost predicate AppendsRecord(h: Handoff, g: Handoff) {
    && ValidHistory(g) && g.corrections == h.corrections && !Withdrawn(h)
    && h.contracts <= g.contracts && (h.contracts != [] ==> g.contracts == h.contracts)
    && |g.reconciliations| == |h.reconciliations| + 1 && h.reconciliations <= g.reconciliations
    && var record := g.reconciliations[|h.reconciliations|];
       && Tip(g) == Some(record.contract)
       && (h.reconciliations != [] ==>
             var last := h.reconciliations[|h.reconciliations| - 1];
             last.Ready() && (record.Ready() ==> last.snapshot == record.snapshot))
  }

  lemma RecordKeepsHistory(h: Handoff, g: Handoff)
    requires HistoryOk(h) && AppendsRecord(h, g)
    ensures HistoryOk(g)
  {
    forall i | 0 <= i && i + 1 < |g.reconciliations| ensures Succession(g, i) {
      if i + 1 < |h.reconciliations| {
        SuccessionGrows(h, g, i);
      }
    }
  }

  lemma ReconcileShape(s: RunState, obs: Observation, initialOnly: bool, id: Id, now: nat)
    requires HistoryOk(s.History())
    ensures match ReconcileRun(s, obs, initialOnly, None, id, now)
      case Refused => true
      case Ok(r) => r == s || AppendsRecord(s.History(), r.History())
  {
  }

  /** Assessing the retained contract again. */
  lemma ReconcileKeepsHistory(s: RunState, obs: Observation, initialOnly: bool, id: Id, now: nat)
    requires HistoryOk(s.History())
    ensures match ReconcileRun(s, obs, initialOnly, None, id, now)
      case Refused => true
      case Ok(r) => HistoryOk(r.History())
  {
    ReconcileShape(s, obs, initialOnly, id, now);
    var result := ReconcileRun(s, obs, initialOnly, None, id, now);
    if result.Ok? && result.value != s {
      RecordKeepsHistory(s.History(), result.value.History());
    }
  }

  /** `g` is `h` with one more contract, its first record, and the human approval of it. */
  ghost predicate AppendsReplacement(h: Handoff, g: Handoff) {
    && ValidHistory(g)
    && |g.contracts| == |h.contracts| + 1 && h.contracts <= g.contracts
    && |g.reconciliations| == |h.reconciliations| + 1 && h.reconciliations <= g.reconciliations
    && |g.corrections| == |h.corrections| + 1 && h.corrections <= g.corrections
    && g.reconciliations[|h.reconciliations|].contract == g.contracts[|h.contracts|].id
    && g.corrections[|h.corrections|].corrected == Some(g.contracts[|h.contracts|].id)
    && g.corrections[|h.corrections|].kind.ApproveCorrection?
  }

  lemma ReplacementShape(s: RunState, obs: Observation, c: Contract, correction: Correction, id: Id, now: nat)
    requires correction.kind.ApproveCorrection?
    ensures match ReconcileRun(s, obs, false, Some((c, correction)), id, now)
      case Refused => true
      case Ok(r) => AppendsReplacement(s.History(), r.History())
  {
  }

  /** A replacement that is ready: the new contract's first record, right after its approval. */
  lemma ReplacementKeepsHistory(h: Handoff, g: Handoff)
    requires HistoryOk(h) && AppendsReplacement(h, g) && g.reconciliations[|h.reconciliations|].Ready()
    ensures HistoryOk(g)
  {
    var n := |h.reconciliations|;
    assert Approved(g, g.reconciliations[n].contract) by {
      assert g.corrections[|h.corrections|].corrected == Some(g.reconciliations[n].contract);
    }
    forall i | 0 <= i && i + 1 < |g.reconciliations| ensures Succession(g, i) {
      if i + 1 < n {
        SuccessionGrows(h, g, i);
      } else {
        var k := |h.contracts| - 1;
        assert g.contracts[k].id == g.reconciliations[i].contract &&
          g.contracts[k + 1].id == g.reconciliations[n].contract;
      }
    }
  }

  // ----- clarification is sticky -----

  /** Contract `earlier` is retained strictly before `later`. */
  ghost predicate Precedes(contracts: seq<Contract>, earlier: Id, later: Id) {
    exists p, q :: 0 <= p < q < |contracts| && contracts[p].id == earlier && contracts[q].id == later
  }

  /** What two records in order say about each other. */
  ghost predicate Ordered(h: Handoff, i: nat, j: nat)
    requires i < j < |h.reconciliations|
  {
    var a, b := h.reconciliations[i], h.reconciliations[j];
    || (a.contract == b.contract && a.Ready() && (b.Ready() ==> a.snapshot == b.snapshot))
    || (Precedes(h.contracts, a.contract, b.contract) && Approved(h, b.contract))
  }

  lemma {:induction false} RecordsAreOrdered(h: Handoff, i: nat, j: nat)
    requires HistoryOk(h) && i < j < |h.reconciliations|
    ensures Ordered(h, i, j)
    decreases j - i
  {
    var a, m, b := h.reconciliations[i], h.reconciliations[j - 1], h.reconciliations[j];
    assert Succession(h, j - 1);
    if i + 1 < j {
      RecordsAreOrdered(h, i, j - 1);
      if m.contract != b.contract {
        var k :| 0 <= k && k + 1 < |h.contracts| && h.contracts[k].id == m.contract &&
          h.contracts[k + 1].id == b.contract;
        LaterStill(h.contracts, a.contract, m.contract, k);
      }
    } else if m.contract != b.contract {
      var k :| 0 <= k && k + 1 < |h.contracts| && h.contracts[k].id == m.contract &&
        h.contracts[k + 1].id == b.contract;
      assert Precedes(h.contracts, a.contract, b.contract);
    }
  }

  /** Whatever equals or precedes the contract at `k` precedes the one after it. */
  lemma LaterStill(contracts: seq<Contract>, first: Id, middle: Id, k: nat)
    requires ChainValid(contracts, None) && k + 1 < |contracts| && contracts[k].id == middle
    requires first == middle || Precedes(contracts, first, middle)
    ensures Precedes(contracts, first, contracts[k + 1].id)
  {
    if first == middle {
      assert contracts[k].id == first;
    } else {
      var p, q :| 0 <= p < q < |contracts| && contracts[p].id == first && contracts[q].id == middle;
      assert q == k;
      assert contracts[p].id == first && p < k + 1;
    }
  }

  /**
   In any history that keeps the invariant: records of one contract read "ready, any number of
   times, then at most one clarification", all its ready records agree on recipe, source, scope
   and path policy, and a ready record after a clarification belongs to a later approved contract.
   */
  lemma ClarificationIsSticky(h: Handoff)
    requires HistoryOk(h)
    ensures forall i, j | 0 <= i < j < |h.reconciliations| &&
      h.reconciliations[i].contract == h.reconciliations[j].contract ::
              h.reconciliations[i].Ready()
    ensures forall i, j | 0 <= i < j < |h.reconciliations| &&
      h.reconciliations[i].contract == h.reconciliations[j].contract ::
              h.reconciliations[j].Ready() ==> h.reconciliations[i].snapshot == h.reconciliations[j].snapshot
    ensures forall i, j | 0 <= i < j < |h.reconciliations| && !h.reconciliations[i].Ready() &&
      h.reconciliations[j].Ready() ::
              && Approved(h, h.reconciliations[j].contract)
              && Precedes(h.contracts, h.reconciliations[i].contract, h.reconciliations[j].contract)
  {
    forall i, j | 0 <= i < j < |h.reconciliations|
      ensures Ordered(h, i, j)
      ensures h.reconciliations[i].contract == h.reconciliations[j].contract ==>
                !Precedes(h.contracts, h.reconciliations[i].contract, h.reconciliations[j].contract)
    {
      RecordsAreOrdered(h, i, j);
    }
  }

  // ----- whole runs -----

  /** The handoff the live process carries is the saved one. */
  lemma ProcessHandoff(w: World)
    requires ProcessOk(w) && w.process.Some?
    ensures w.process.value.s.handoff == w.disk.handoff
  {
  }

  lemma AdmitKeepsHistory(s: RunState, node: Node, current: Option<Observation>, id: Id, now: nat)
    requires HistoryOk(s.History())
    ensures match AdmitDriver(s, node, current, id, now)
      case GateRefused(r) => HistoryOk(r.History())
      case Admitted(r) => HistoryOk(r.History())
  {
    if current.Some? { ReconcileKeepsHistory(s, current.value, false, id, now); }
  }

  lemma ChangeKeepsHistory(s: RunState, cmd: ChangeCommand, now: nat)
    requires HistoryOk(s.History())
    ensures match ChangeHandoff(s, cmd, now)
      case Refused => true
      case Ok(r) => HistoryOk(r.History())
  {
    if cmd.kind.ApproveCorrection? && cmd.corrected.Some? && cmd.current.Some? {
      ReplacementShape(s, cmd.current.value, cmd.corrected.value, CorrectionOf(cmd, now), cmd.reconciliation, now);
      var updated :=
        ReconcileRun(s, cmd.current.value, false, Some((cmd.corrected.value, CorrectionOf(cmd, now))),
          cmd.reconciliation, now);
      if updated.Ok? && updated.value.History().reconciliations[|s.History().reconciliations|].Ready() {
        ReplacementKeepsHistory(s.History(), updated.value.History());
      }
    } else if ReturnOrCancel(s, cmd, now).Ok? {
      WithdrawKeepsHistory(s.History(), CorrectionOf(cmd, now));
    }
  }

  lemma WithdrawKeepsHistory(h: Handoff, c: Correction)
    requires HistoryOk(h)
    ensures var g := Handoff(h.contracts, h.reconciliations, h.corrections + [c], None);
      ValidHistory(g) ==> HistoryOk(g)
  {
    var g := Handoff(h.contracts, h.reconciliations, h.corrections + [c], None);
    forall i | 0 <= i && i + 1 < |g.reconciliations| ensures Succession(g, i) {
      SuccessionGrows(h, g, i);
    }
  }

  lemma GateKeepsHistory(w: World, p: Process, current: Option<Observation>, id: Id)
    requires ProcessOk(w) && HistoryOk(w.disk.History()) && w.process == Some(p) && p.Looping?
    ensures HistoryOk(PassGate(w, p, current, id).disk.History())
  {
    ProcessHandoff(w);
    AdmitKeepsHistory(p.s, p.node, current, id, w.clock);
  }

  lemma AuthorizationKeepsHistory(s: RunState, cmd: ResumeCommand, now: nat)
    requires HistoryOk(s.History())
    ensures match AdmitAuthorization(s, cmd, now)
      case Refused => true
      case Ok(r) => HistoryOk(r.History())
  {
    var node := AuthorizedCheckpoint(s, cmd.contract);
    if node.Some? { AdmitKeepsHistory(s, node.value, cmd.current, cmd.reconciliation, now); }
  }

  lemma ResumeKeepsHistory(w: World, cmd: ResumeCommand, start: int)
    requires WorldOk(w, start) && HistoryOk(w.disk.History())
    ensures HistoryOk(ResumeRun(w, cmd).disk.History())
  {
    PreparedShape(w.disk, cmd, start);
    var prepared := PrepareResume(w.disk, cmd);
    if prepared.Prepared? {
      assert prepared.s.handoff == w.disk.handoff;
      AuthorizationKeepsHistory(prepared.s, cmd, w.clock);
    }
  }

  /** Steps that are neither gates nor human operations do not touch the handoff. */
  lemma OtherStepsKeepHandoff(w: World, e: Event, start: int)
    requires WorldOk(w, start) && Enabled(w, e) && w.process.Some? && !e.Gate?
    ensures Perform(w, e).disk.handoff == w.disk.handoff
  {
    ProcessHandoff(w);
    if e.Create? {
      CreateKeepsHandoff(w, w.process.value, e.newId);
    } else if e.Finish? {
      AfterRoleFrame(w.process.value.s, w.process.value.node, e.outcome, w.process.value.correctionAttempt != 0);
    } else {
      QuietFrame(w, e);
    }
  }

  lemma CreateKeepsHandoff(w: World, p: Process, newId: Id)
    requires p.Looping? && p.s.handoff == w.disk.handoff
    ensures CreateAttempt(w, p, newId).disk.handoff == w.disk.handoff
  {
  }

  lemma PerformKeepsHistory(w: World, e: Event, start: int)
    requires WorldOk(w, start) && HistoryOk(w.disk.History()) && Enabled(w, e)
    ensures HistoryOk(Perform(w, e).disk.History())
  {
    if w.process.None? {
      HumanKeepsHistory(w, e, start);
    } else if e.Gate? {
      GateKeepsHistory(w, w.process.value, e.current, e.id);
    } else {
      OtherStepsKeepHandoff(w, e, start);
    }
  }

  lemma HumanKeepsHistory(w: World, e: Event, start: int)
    requires WorldOk(w, start) && HistoryOk(w.disk.History()) && Enabled(w, e) && w.process.None?
    ensures HistoryOk(Perform(w, e).disk.History())
  {
    match e
    case Resume(cmd) => ResumeKeepsHistory(w, cmd, start);
    case Queue(cmd) =>
    case SealFull(obs, id) => SealKeepsHistory(w, obs, id);
    case SealDirect(obs, id) => SealKeepsHistory(w, obs, id);
    case Change(cmd) => ChangeKeepsHistory(w.disk, cmd, w.clock);
  }

  lemma SealKeepsHistory(w: World, obs: Observation, id: Id)
    requires HistoryOk(w.disk.History())
    ensures HistoryOk(SaveIfOk(w, SealArchitect(w.disk, obs, id, w.clock)).disk.History())
    ensures HistoryOk(SaveIfOk(w, SealCompact(w.disk, obs, id, w.clock)).disk.History())
  {
    ReconcileKeepsHistory(w.disk, obs, true, id, w.clock);
    ReconcileKeepsHistory(w.disk, obs, false, id, w.clock);
  }

  lemma {:induction false} ExecKeepsHistory(w: World, events: seq<Event>, start: int)
    requires WorldOk(w, start) && HistoryOk(w.disk.History())
    ensures HistoryOk(Exec(w, events).disk.History())
    decreases |events|
  {
    if events != [] {
      var e := events[0];
      if Enabled(w, e) {
        PerformKeepsHistory(w, e, start);
        PerformKeeps(w, e, start);
        HaltKeeps(Perform(w, e), w.clock + 1, start);
      }
      ExecKeepsHistory(Step(w, e), events[1..], start);
    }
  }

  /** The handoff of every reachable document keeps the invariant, so `ClarificationIsSticky` holds of it. */
  lemma ReachableHistoryOk(limit: int, used: int, admission: Option<Admission>, events: seq<Event>)
    ensures HistoryOk(Exec(StartRun(limit, used, admission), events).disk.History())
  {
    StartOk(limit, used, admission);
    ExecKeepsHistory(StartRun(limit, used, admission), events, used);
  }
}

/**
 A reachable run in which a review does not directly follow the role it reviews: it violated its
 contract and is called again.  `Phases.PhasesInOrder` says what an attempt may directly follow.
 */
module RepeatedReviews {
  import opened Options
  import opened RunModel
  import opened Engine
  import opened RunRecords
  import opened MisdirectedReplay

  const RED := Attempt(3, DriverRed, Succeeded, false, Some(5), 18)

  const WRITTEN_RUN := SEALED_RUN.(
    phase := ReviewerPhase, budget := Budget(50, 3), attempts := [FAILED_PLAN, PLAN, RED],
    progress := Some(Progress(OutcomeCheckpointed, ReviewerRed, Some(3), None, 0)))

  const THIRD_ENTRY := RoleEntry(3, DriverRed, 3)

  /** The RED Driver is done. */
  lemma WrittenReachable(reached: World -> bool)
    requires Closed(reached)
    ensures reached(World(WRITTEN_RUN, Some(Entering(ReviewerRed, WRITTEN_RUN)), 23, 4,
      [FIRST_ENTRY, SECOND_ENTRY, THIRD_ENTRY]))
  {
    SealedReachable(reached);
    var w := World(SEALED_RUN, Some(Looping(DriverRed, SEALED_RUN, None, 0, true)), 18, 3, [FIRST_ENTRY, SECOND_ENTRY]);
    w := StartCall(reached, w, w.process.value, 3);
    var a := Attempt(3, DriverRed, Unfinished, false, Some(5), 18);
    assert w.disk.attempts == [FAILED_PLAN, PLAN] + [a];
    w := EndCall(reached, w, w.disk, [FAILED_PLAN, PLAN], a, Advanced(None));
    assert w.disk.attempts == [FAILED_PLAN, PLAN, RED];
    assert w.disk == WRITTEN_RUN && w.process == Some(Entering(ReviewerRed, WRITTEN_RUN));
    assert w.entered == [FIRST_ENTRY, SECOND_ENTRY, THIRD_ENTRY];
    assert w == World(WRITTEN_RUN, w.process, 23, 4, w.entered);
  }

  /** Its review has been entered. */
  lemma ReviewStarts(reached: World -> bool) returns (w: World)
    requires Closed(reached)
    ensures reached(w) && w.process == Some(Running(ReviewerRed, w.disk, None, 0, 4))
    ensures w.disk.attempts == [FAILED_PLAN, PLAN, RED, Attempt(4, ReviewerRed, Unfinished, false, None, 24)]
    ensures w.disk.budget == Budget(50, 4) && w.disk.interventions == [] && w.clock == 26
    ensures w.entered == [FIRST_ENTRY, SECOND_ENTRY, THIRD_ENTRY, RoleEntry(4, ReviewerRed, 4)]
  {
    WrittenReachable(reached);
    w := World(WRITTEN_RUN, Some(Entering(ReviewerRed, WRITTEN_RUN)), 23, 4, [FIRST_ENTRY, SECOND_ENTRY, THIRD_ENTRY]);
    w := EnterRuns(reached, w, WRITTEN_RUN, ReviewerRed);
    w := StartCall(reached, w, w.process.value, 4);
  }

  /** The review violates its contract, and a second attempt at it is created. */
  lemma ReviewRepeats(reached: World -> bool) returns (w: World)
    requires Closed(reached)
    ensures reached(w) && |w.disk.attempts| == 5
    ensures w.disk.attempts[3].node == ReviewerRed && w.disk.attempts[4].node == ReviewerRed
  {
    var first := ReviewStarts(reached);
    var last := first.disk.attempts[3];
    FindUnique(first.disk.attempts, last);
    var p := first.process.value;
    var o := ContractViolation("not a review");
    ReplaceLast(first.disk.attempts, FinishedAttempt(p.s, p, o));
    var again := Advance(reached, first, Finish(o));
    assert again.disk.attempts == first.disk.attempts[3 := FinishedAttempt(p.s, p, o)];
    w := Advance(reached, again, Create(5));
  }

  lemma ReviewFollowsItself() returns (w: World)
    ensures Reachable(w) && |w.disk.attempts| == 5
    ensures w.disk.attempts[3].node == ReviewerRed && w.disk.attempts[4].node == ReviewerRed
  {
    ReachableIsClosed();
    w := ReviewRepeats(w => Reachable(w));
  }
}

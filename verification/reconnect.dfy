/**
 Reconnecting to a live run: the worker saves, then announces; the client takes a cursor, then loads,
 then reads the events after its cursor.  Also the ordering of a delivered batch.
 */
module Reconnects {
  import opened Observations

  /** The client's progress; a snapshot is the number of saves it contains. */
  datatype Client = Away | Barred(cursor: nat) | Loaded(cursor: nat, snapshot: nat)

  /**
   One stream and one client.  `marks` maps each announced save to the sequence number of its
   event; a checkpoint event carries the number of its save.  `pending` says that the last save
   is still to be announced.  A run ends with one save that is not announced.
   */
  datatype Session = Session(saves: nat, pending: bool, marks: map<nat, nat>, stream: seq<Event>, client: Client)

  datatype Step =
    | Save | SaveSilently | Announce(event: Event) | Emit(event: Event)
    | TakeBarrier | Load | Leave

  predicate Numbered(s: Session, e: Event) { e.sequence > LatestOf(s.stream) }

  predicate Can(s: Session, step: Step) {
    match step
    case Save => !s.pending
    case SaveSilently => !s.pending
    case Announce(e) => s.pending && e.kind.StateCheckpoint? && e.payload == s.saves && Numbered(s, e)
    case Emit(e) => !e.kind.StateCheckpoint? && Numbered(s, e)
    case TakeBarrier => s.client.Away?
    case Load => s.client.Barred?
    case Leave => true
  }

  function Take(s: Session, step: Step): Session
    requires Can(s, step)
  {
    match step
    case Save => s.(saves := s.saves + 1, pending := true)
    case SaveSilently => s.(saves := s.saves + 1)
    case Announce(e) => s.(pending := false, marks := s.marks[s.saves := e.sequence], stream := s.stream + [e])
    case Emit(e) => s.(stream := s.stream + [e])
    case TakeBarrier => s.(client := Barred(LatestOf(s.stream)))
    case Load => s.(client := Loaded(s.client.cursor, s.saves))
    case Leave => s.(client := Away)
  }

  const QUIET := Session(0, false, map[], [], Away)

  ghost predicate Runs(s: Session, steps: seq<Step>, t: Session)
    decreases |steps|
  {
    if steps == [] then s == t else Can(s, steps[0]) && Runs(Take(s, steps[0]), steps[1..], t)
  }

  /** The event that announced a save. */
  ghost predicate Announces(e: Event, save: nat) { e.kind.StateCheckpoint? && e.payload == save }

  /** The announcement of the save is in the stream, at its mark. */
  ghost predicate Announced(s: Session, save: nat)
    requires save in s.marks
  {
    exists i :: 0 <= i < |s.stream| && s.stream[i].sequence == s.marks[save] && Announces(s.stream[i], save)
  }

  /** Marks are those of real saves, and of every checkpoint event. */
  ghost predicate MarksOk(s: Session) {
    && (forall save :: save in s.marks ==>
         1 <= save <= s.saves && Announced(s, save) && s.marks[save] <= LatestOf(s.stream))
    && (forall i :: 0 <= i < |s.stream| && s.stream[i].kind.StateCheckpoint? ==> s.stream[i].payload in s.marks)
    && (s.pending ==> s.saves >= 1 && s.saves !in s.marks)
  }

  ghost predicate ClientOk(s: Session) {
    match s.client
    case Away => true
    case Barred(cursor) => cursor <= LatestOf(s.stream)
    case Loaded(cursor, snapshot) =>
      && cursor <= LatestOf(s.stream) && snapshot <= s.saves
      && forall save :: save in s.marks && save > snapshot ==> s.marks[save] > cursor
  }

  ghost predicate SessionOk(s: Session) { Increasing(s.stream) && MarksOk(s) && ClientOk(s) }

  function Carrying(s: Session, e: Event): Session
    requires Numbered(s, e) && (e.kind.StateCheckpoint? ==> s.pending && e.payload == s.saves)
  {
    Take(s, if e.kind.StateCheckpoint? then Announce(e) else Emit(e))
  }

  /** One more event, with its mark if it announces the last save. */
  lemma EventKeepsMarks(s: Session, e: Event)
    requires Increasing(s.stream) && MarksOk(s) && Numbered(s, e)
    requires e.kind.StateCheckpoint? ==> s.pending && e.payload == s.saves
    ensures MarksOk(Carrying(s, e))
  {
    var t := Carrying(s, e);
    forall save | save in t.marks ensures Announced(t, save) {
      if save in s.marks {
        var i :| 0 <= i < |s.stream| && s.stream[i].sequence == s.marks[save] && Announces(s.stream[i], save);
        assert t.stream[i] == s.stream[i];
      } else {
        assert t.stream[|s.stream|] == e;
      }
    }
  }

  lemma EventKeeps(s: Session, e: Event)
    requires SessionOk(s) && Numbered(s, e) && (e.kind.StateCheckpoint? ==> s.pending && e.payload == s.saves)
    ensures SessionOk(Carrying(s, e)) && LatestOf(s.stream + [e]) == e.sequence
  {
    EventKeepsMarks(s, e);
    LaterIncreases(s.stream, e);
  }

  /** Steps that add no event keep every announcement. */
  lemma QuietKeeps(s: Session, t: Session)
    requires SessionOk(s) && t.stream == s.stream && t.marks == s.marks && t.saves >= s.saves
    requires t.pending ==> t.saves > s.saves || s.pending
    requires t.client == s.client || ClientOk(t)
    requires t.saves > s.saves || t.pending == s.pending
    ensures SessionOk(t)
  {
    forall save | save in t.marks ensures Announced(t, save) { assert Announced(s, save); }
  }

  lemma StepKeeps(s: Session, step: Step)
    requires SessionOk(s) && Can(s, step)
    ensures SessionOk(Take(s, step))
  {
    match step
    case Announce(e) => EventKeeps(s, e);
    case Emit(e) => EventKeeps(s, e);
    case _ => QuietKeeps(s, Take(s, step));
  }

  lemma {:induction false} RunsKeep(s: Session, steps: seq<Step>, t: Session)
    requires SessionOk(s) && Runs(s, steps, t)
    ensures SessionOk(t)
    decreases |steps|
  {
    if steps != [] {
      StepKeeps(s, steps[0]);
      RunsKeep(Take(s, steps[0]), steps[1..], t);
    }
  }

  lemma AnnouncedIsNewer(s: Session, save: nat)
    requires SessionOk(s) && s.client.Loaded? && s.client.snapshot < save && save in s.marks
    ensures exists e :: e in Newer(s.stream, s.client.cursor) && Announces(e, save)
  {
    assert Announced(s, save);
    var i :| 0 <= i < |s.stream| && s.stream[i].sequence == s.marks[save] && Announces(s.stream[i], save);
    NewerMembers(s.stream, s.client.cursor);
    assert s.stream[i] in Newer(s.stream, s.client.cursor);
  }

  /**
   In every interleaving: each announced save that the loaded snapshot lacks is among the events after
   the cursor, and the buffer still delivers it unless more than its capacity was emitted since the cursor.
   */
  lemma ReconnectMissesNothing(steps: seq<Step>, t: Session, save: nat, capacity: nat)
    requires Runs(QUIET, steps, t) && t.client.Loaded? && t.client.snapshot < save && save in t.marks
    ensures exists e :: e in Newer(t.stream, t.client.cursor) && Announces(e, save)
    ensures |t.stream| <= capacity || t.stream[|t.stream| - capacity - 1].sequence <= t.client.cursor ==>
      exists e :: e in Newer(LastN(t.stream, capacity), t.client.cursor) && Announces(e, save)
  {
    RunsKeep(QUIET, steps, t);
    AnnouncedIsNewer(t, save);
    if |t.stream| <= capacity || t.stream[|t.stream| - capacity - 1].sequence <= t.client.cursor {
      NothingMissed(t.stream, capacity, t.client.cursor);
    }
  }

  /** Nothing the stream carries, then or later, tells of a silent save: a client learns of it only by loading. */
  lemma SilentSaveIsUnheard(before: seq<Step>, s: Session, after: seq<Step>, t: Session)
    requires Runs(QUIET, before, s) && Can(s, SaveSilently) && Runs(Take(s, SaveSilently), after, t)
    ensures forall e :: e in t.stream ==> !Announces(e, s.saves + 1)
  {
    RunsKeep(QUIET, before, s);
    StepKeeps(s, SaveSilently);
    NeverMarked(Take(s, SaveSilently), after, t, s.saves + 1);
    RunsKeep(Take(s, SaveSilently), after, t);
    forall e | e in t.stream ensures !Announces(e, s.saves + 1) {
      var i :| 0 <= i < |t.stream| && t.stream[i] == e;
    }
  }

  lemma {:induction false} NeverMarked(s: Session, steps: seq<Step>, t: Session, save: nat)
    requires SessionOk(s) && Runs(s, steps, t) && save !in s.marks
    requires save < s.saves || (save == s.saves && !s.pending)
    ensures save !in t.marks
    decreases |steps|
  {
    if steps != [] {
      StepKeeps(s, steps[0]);
      NeverMarked(Take(s, steps[0]), steps[1..], t, save);
    }
  }

  /** Loading before taking the cursor would miss a save announced in between. */
  lemma LoadingFirstMisses(s: Session, e: Event)
    requires SessionOk(s) && !s.pending
    requires e.kind.StateCheckpoint? && e.payload == s.saves + 1 && Numbered(s, e)
    ensures var snapshot := s.saves;
      && Can(s, Save) && Can(Take(s, Save), Announce(e))
      && var t := Take(Take(s, Save), Announce(e));
         snapshot + 1 in t.marks && forall x :: x in Newer(t.stream, LatestOf(t.stream)) ==> !Announces(x, snapshot + 1)
  {
    var t := Take(Take(s, Save), Announce(e));
    StepKeeps(s, Save);
    EventKeeps(Take(s, Save), e);
    NewerMembers(t.stream, LatestOf(t.stream));
    forall x | x in t.stream ensures x.sequence <= LatestOf(t.stream) {
      var i :| 0 <= i < |t.stream| && t.stream[i] == x;
    }
  }

  // ----- a delivered batch -----

  datatype Batch = Conflict | Ordered(events: seq<Event>)

  predicate SameId(a: Event, b: Event) { a.stream == b.stream && a.sequence == b.sequence }

  /** By run, then stream, then sequence. */
  predicate Before(a: Event, b: Event) {
    || a.run < b.run
    || (a.run == b.run && (a.stream < b.stream || (a.stream == b.stream && a.sequence < b.sequence)))
  }

  ghost predicate Sorted(events: seq<Event>) { forall i, j :: 0 <= i < j < |events| ==> Before(events[i], events[j]) }

  ghost predicate Consistent(batch: seq<Event>) {
    forall i, j :: 0 <= i < j < |batch| && SameId(batch[i], batch[j]) ==> batch[i] == batch[j]
  }

  lemma {:induction false} HasFirst(events: set<Event>) returns (first: Event)
    requires events != {}
    requires forall a, b :: a in events && b in events && SameId(a, b) ==> a == b
    ensures first in events && forall e :: e in events && e != first ==> Before(first, e)
    decreases events
  {
    var e :| e in events;
    if events == {e} {
      first := e;
    } else {
      var rest := HasFirst(events - {e});
      assert forall x :: x in events ==> x == e || x in events - {e};
      first := if Before(e, rest) then e else rest;
    }
  }

  predicate Holds(unique: map<(Id, nat), Event>, e: Event) {
    (e.stream, e.sequence) in unique && unique[(e.stream, e.sequence)] == e
  }

  /** `ordered_unique_events`: one of each event, in order; or a conflict. */
  method OrderedUnique(batch: seq<Event>) returns (r: Batch)
    ensures r.Conflict? <==> !Consistent(batch)
    ensures r.Ordered? ==> Sorted(r.events) && forall e :: e in r.events <==> e in batch
  {
    var unique: map<(Id, nat), Event> := map[];
    for i := 0 to |batch|
      invariant forall k :: 0 <= k < i ==> Holds(unique, batch[k])
      invariant forall id :: id in unique ==> unique[id] in batch && (unique[id].stream, unique[id].sequence) == id
    {
      var e := batch[i];
      var id := (e.stream, e.sequence);
      if id in unique && unique[id] != e {
        var k :| 0 <= k < |batch| && batch[k] == unique[id];
        assert SameId(batch[k], batch[i]);
        return Conflict;
      }
      unique := unique[id := e];
    }
    var rest := set id | id in unique :: unique[id];
    ghost var all := rest;
    var events: seq<Event> := [];
    while rest != {}
      invariant rest <= all && forall e :: e in events <==> e in all && e !in rest
      invariant Sorted(events) && forall e, x :: e in events && x in rest ==> Before(e, x)
      decreases rest
    {
      ghost var least := HasFirst(rest);
      var first :| first in rest && forall e :: e in rest && e != first ==> Before(first, e);
      events := events + [first];
      rest := rest - {first};
    }
    assert forall e :: e in batch ==> e in all;
    return Ordered(events);
  }

  lemma BothEmpty(a: seq<Event>, b: seq<Event>)
    requires forall e :: e in a <==> e in b
    ensures a == [] <==> b == []
  {
    assert a != [] ==> a[0] in a;
    assert b != [] ==> b[0] in b;
  }

  /** Redelivery and reordering do not change the result. */
  lemma {:induction false} OrderIsUnique(a: seq<Event>, b: seq<Event>)
    requires Sorted(a) && Sorted(b) && forall e :: e in a <==> e in b
    ensures a == b
    decreases |a|
  {
    BothEmpty(a, b);
    if a != [] {
      var n, m := |a| - 1, |b| - 1;
      assert a[n] in a && b != [];
      assert b[m] in b;
      var i :| 0 <= i < |b| && b[i] == a[n];
      var j :| 0 <= j < |a| && a[j] == b[m];
      assert forall x :: 0 <= x < m ==> Before(b[x], b[m]);
      assert forall x :: 0 <= x < n ==> Before(a[x], a[n]);
      assert a[n] == b[m];
      forall e ensures e in a[..n] <==> e in b[..m] {
        assert e in a[..n] <==> e in a && e != a[n];
        assert e in b[..m] <==> e in b && e != b[m];
      }
      OrderIsUnique(a[..n], b[..m]);
      assert a == a[..n] + [a[n]] && b == b[..m] + [b[m]];
    }
  }
}

/**
 Live observation of a run: the publisher that numbers events, the bounded buffer that delivers them,
 and the reconnect barrier.  An event id is its stream and sequence number.
 */
module Observations {
  import opened Options

  type Id = nat

  datatype Kind = StateCheckpoint | NodeStarted | NodeFinished | NodeFailed | Token | Reasoning | Interrupted {
    /** Kinds that belong to one attempt of one node. */
    predicate OfAttempt() { NodeStarted? || NodeFinished? || NodeFailed? || Token? || Reasoning? }
  }

  datatype Event = Event(
    run: Id, stream: Id, sequence: nat, kind: Kind, node: Option<Id>, attempt: Option<Id>, payload: nat)
  {
    predicate Valid() { sequence >= 1 && (kind.OfAttempt() ==> node.Some? && attempt.Some?) }
    function Key(): Key { StreamKey(run, stream) }
  }

  datatype Key = StreamKey(run: Id, stream: Id)

  // ----- streams -----

  function LatestOf(stream: seq<Event>): nat { if stream == [] then 0 else stream[|stream| - 1].sequence }

  ghost predicate Increasing(stream: seq<Event>) {
    forall i, j :: 0 <= i < j < |stream| ==> stream[i].sequence < stream[j].sequence
  }

  function LastN<T>(s: seq<T>, n: nat): seq<T> { if |s| <= n then s else s[|s| - n..] }

  /** The events after a cursor, in order. */
  function Newer(events: seq<Event>, cursor: nat): seq<Event> {
    if events == [] then []
    else Newer(events[..|events| - 1], cursor) + if events[|events| - 1].sequence > cursor then [events[|events| - 1]]
      else []
  }

  lemma {:induction false} NewerMembers(events: seq<Event>, cursor: nat)
    ensures forall e :: e in Newer(events, cursor) <==> e in events && e.sequence > cursor
  {
    if events != [] { NewerMembers(events[..|events| - 1], cursor); }
  }

  lemma {:induction false} NewerAll(events: seq<Event>, cursor: nat)
    requires forall i :: 0 <= i < |events| ==> events[i].sequence > cursor
    ensures Newer(events, cursor) == events
  {
    if events != [] {
      NewerAll(events[..|events| - 1], cursor);
      assert events == events[..|events| - 1] + [events[|events| - 1]];
    }
  }

  lemma {:induction false} NewerSplit(a: seq<Event>, b: seq<Event>, cursor: nat)
    ensures Newer(a + b, cursor) == Newer(a, cursor) + Newer(b, cursor)
  {
    if b == [] {
      assert a + b == a;
    } else {
      assert (a + b)[..|a + b| - 1] == a + b[..|b| - 1];
      NewerSplit(a, b[..|b| - 1], cursor);
    }
  }

  /** Eviction loses nothing that a client still needs as long as it is not further behind than the capacity. */
  lemma {:induction false} NothingMissed(stream: seq<Event>, capacity: nat, cursor: nat)
    requires Increasing(stream)
    requires |stream| <= capacity || stream[|stream| - capacity - 1].sequence <= cursor
    ensures Newer(LastN(stream, capacity), cursor) == Newer(stream, cursor)
  {
    if |stream| > capacity {
      var evicted := stream[..|stream| - capacity];
      NewerSplit(evicted, LastN(stream, capacity), cursor);
      assert evicted + LastN(stream, capacity) == stream;
      assert forall i :: 0 <= i < |evicted| ==> evicted[i].sequence <= stream[|stream| - capacity - 1].sequence;
      NoneNewer(evicted, cursor);
    }
  }

  lemma {:induction false} NoneNewer(events: seq<Event>, cursor: nat)
    requires forall i :: 0 <= i < |events| ==> events[i].sequence <= cursor
    ensures Newer(events, cursor) == []
  {
    if events != [] { NoneNewer(events[..|events| - 1], cursor); }
  }

  // ----- the buffer -----

  function Stream(streams: map<Key, seq<Event>>, key: Key): seq<Event> { if key in streams then streams[key] else [] }

  function Latest(numbers: map<Key, nat>, key: Key): nat { if key in numbers then numbers[key] else 0 }

  /** What the buffer holds of one stream, given all that it accepted. */
  ghost predicate StreamOk(key: Key, capacity: nat, retained: seq<Event>, latest: nat, all: seq<Event>) {
    && Increasing(all)
    && (forall i :: 0 <= i < |all| ==> all[i].Valid() && all[i].Key() == key)
    && retained == LastN(all, capacity)
    && latest == LatestOf(all)
  }

  /** A retained event with this id says something else. */
  predicate Contradicts(retained: seq<Event>, e: Event) {
    exists i :: 0 <= i < |retained| && retained[i].sequence == e.sequence && retained[i] != e
  }

  class ObservationBuffer {
    const capacity: nat
    var events: map<Key, seq<Event>>
    var latest: map<Key, nat>
    /** Every accepted event of every stream. */
    ghost var accepted: map<Key, seq<Event>>

    ghost predicate Valid()
      reads this
    {
      && capacity >= 1
      && forall key :: StreamOk(key, capacity, Stream(events, key), Latest(latest, key), Stream(accepted, key))
    }

    constructor (maxEvents: nat)
      requires maxEvents >= 1
      ensures Valid() && capacity == maxEvents && accepted == map[]
    {
      capacity := maxEvents;
      events, latest, accepted := map[], map[], map[];
    }

    /** Accept the next event of a stream; ignore an old one, unless it contradicts a retained one. */
    method Publish(e: Event) returns (conflict: bool)
      requires Valid() && e.Valid()
      modifies this`events, this`latest, this`accepted
      ensures Valid()
      ensures var all := old(Stream(accepted, e.Key()));
        accepted == if e.sequence > LatestOf(all) then old(accepted)[e.Key() := all + [e]] else old(accepted)
      ensures conflict <==> Contradicts(old(Stream(events, e.Key())), e)
    {
      var key := e.Key();
      var retained := Stream(events, key);
      ghost var all := Stream(accepted, key);
      assert StreamOk(key, capacity, retained, Latest(latest, key), all);
      if e.sequence <= Latest(latest, key) {
        conflict := FindConflict(retained, e);
      } else {
        NewContradictsNothing(key, capacity, retained, all, e);
        AppendKeeps(key, capacity, all, e);
        events := events[key := LastN(retained + [e], capacity)];
        latest := latest[key := e.sequence];
        accepted := accepted[key := all + [e]];
        conflict := false;
        forall k ensures StreamOk(k, capacity, Stream(events, k), Latest(latest, k), Stream(accepted, k)) {
          if k != key {
            assert old(StreamOk(k, capacity, Stream(events, k), Latest(latest, k), Stream(accepted, k)));
          }
        }
      }
    }

    /** The sequence number of the newest event. */
    method Barrier(key: Key) returns (cursor: nat)
      requires Valid()
      ensures cursor == LatestOf(Stream(accepted, key))
    {
      assert StreamOk(key, capacity, Stream(events, key), Latest(latest, key), Stream(accepted, key));
      cursor := Latest(latest, key);
    }

    /** What a client at a cursor still gets. */
    method After(key: Key, cursor: nat) returns (newer: seq<Event>)
      requires Valid()
      ensures newer == Newer(LastN(Stream(accepted, key), capacity), cursor)
    {
      assert StreamOk(key, capacity, Stream(events, key), Latest(latest, key), Stream(accepted, key));
      newer := Newer(Stream(events, key), cursor);
    }
  }

  /** The first retained event with the same id decides; ids are unique among retained events. */
  method FindConflict(retained: seq<Event>, e: Event) returns (conflict: bool)
    requires Increasing(retained)
    ensures conflict <==> Contradicts(retained, e)
  {
    for i := 0 to |retained|
      invariant forall k :: 0 <= k < i ==> retained[k].sequence != e.sequence
    {
      if retained[i].sequence == e.sequence {
        assert forall k :: 0 <= k < |retained| && k != i ==> retained[k].sequence != e.sequence;
        return retained[i] != e;
      }
    }
    return false;
  }

  lemma NewContradictsNothing(key: Key, capacity: nat, retained: seq<Event>, all: seq<Event>, e: Event)
    requires StreamOk(key, capacity, retained, LatestOf(all), all) && e.sequence > LatestOf(all)
    ensures !Contradicts(retained, e)
  {
  }

  lemma AppendKeeps(key: Key, capacity: nat, all: seq<Event>, e: Event)
    requires capacity >= 1 && StreamOk(key, capacity, LastN(all, capacity), LatestOf(all), all)
    requires e.sequence > LatestOf(all) && e.Valid() && e.Key() == key
    ensures StreamOk(key, capacity, LastN(LastN(all, capacity) + [e], capacity), e.sequence, all + [e])
  {
  }

  // ----- the publisher -----

  /** What the graph reports; a node name may be missing or empty. */
  datatype Raw =
    | Start(node: Option<Id>, payload: nat) | End(node: Option<Id>, payload: nat)
    | Error(node: Option<Id>, payload: nat)
    | Pause(node: Option<Id>, wellNamed: bool, payload: nat)
    | Text(reasoning: bool, payload: nat)
    | Checkpoint(payload: nat)

  datatype Current = Idle | Busy(node: Id, attempt: Id)

  /** The publisher's fields agree with everything it emitted. */
  ghost predicate Publishing(key: Key, sequence: nat, node: Option<Id>, attempt: Option<Id>, emitted: seq<Event>) {
    && LatestOf(emitted) <= sequence && Increasing(emitted)
    && (forall i :: 0 <= i < |emitted| ==> emitted[i].Valid() && emitted[i].Key() == key)
    && (node.Some? <==> attempt.Some?)
    && Open(emitted) == (if node.Some? then Busy(node.value, attempt.value) else Idle)
    && Bracketed(emitted)
  }

  class RunObservationPublisher {
    const run: Id
    const stream: Id
    var sequence: nat
    var node: Option<Id>
    var attempt: Option<Id>
    /** Everything emitted so far. */
    ghost var emitted: seq<Event>

    ghost predicate Valid()
      reads this
    {
      Publishing(StreamKey(run, stream), sequence, node, attempt, emitted)
    }

    constructor (runId: Id, streamId: Id)
      ensures Valid() && run == runId && stream == streamId && sequence == 0 && emitted == []
    {
      run, stream, sequence, node, attempt, emitted := runId, streamId, 0, None, None, [];
    }

    /** One callback.  A refused one emits nothing, and only a badly named pause uses up a number. */
    method Handle(raw: Raw, freshAttempt: Id) returns (event: Option<Event>)
      requires Valid()
      modifies this`sequence, this`node, this`attempt, this`emitted
      ensures Valid()
      ensures event.Some? <==> Fits(raw, old(node))
      ensures sequence == old(sequence) + if event.Some? || raw.Pause? then 1 else 0
      ensures emitted == old(emitted) + if event.Some? then [event.value] else []
      ensures event.Some? ==> event.value == Event(
        run, stream, sequence, KindOf(raw), if raw.Text? then old(node) else NodeOf(raw),
        if raw.Start? then Some(freshAttempt) else old(attempt), raw.payload)
      ensures node ==
        if event.Some? && raw.Start? then raw.node else if event.Some? && raw.End? then None else old(node)
      ensures attempt ==
        if event.Some? && raw.Start? then Some(freshAttempt) else if event.Some? && raw.End? then None else old(attempt)
    {
      event := None;
      if (raw.End? || raw.Error?) && (raw.node != node || attempt.None?) { return; }
      if raw.Text? && attempt.None? { return; }
      if raw.Start? && raw.node.None? { return; }
      if raw.Start? {
        node, attempt := raw.node, Some(freshAttempt);
      }
      sequence := sequence + 1;
      if raw.Pause? && !raw.wellNamed { return; }
      var e := Event(run, stream, sequence, KindOf(raw), if raw.Text? then node else NodeOf(raw), attempt, raw.payload);
      EmitKeeps(e.Key(), old(sequence), old(node), old(attempt), emitted, e);
      emitted := emitted + [e];
      event := Some(e);
      if raw.End? { node, attempt := None, None; }
    }
  }

  function KindOf(raw: Raw): Kind {
    match raw
    case Start(_, _) => NodeStarted
    case End(_, _) => NodeFinished
    case Error(_, _) => NodeFailed
    case Pause(_, _, _) => Interrupted
    case Text(reasoning, _) => if reasoning then Reasoning else Token
    case Checkpoint(_) => StateCheckpoint
  }

  /** The node a raw report names; text and checkpoints name none. */
  function NodeOf(raw: Raw): Option<Id> {
    if raw.Text? || raw.Checkpoint? then None else raw.node
  }

  /** Whether a report can be turned into an event while this node is active. */
  predicate Fits(raw: Raw, active: Option<Id>) {
    match raw
    case Start(n, _) => n.Some?
    case End(n, _) => active.Some? && n == active
    case Error(n, _) => active.Some? && n == active
    case Pause(_, wellNamed, _) => wellNamed
    case Text(_, _) => active.Some?
    case Checkpoint(_) => true
  }

  function AttemptOf(e: Event): Current {
    if e.node.Some? && e.attempt.Some? then Busy(e.node.value, e.attempt.value) else Idle
  }

  /** The attempt that the last start opened and no finish closed. */
  function Open(events: seq<Event>): Current {
    if events == [] then Idle
    else
      var last := events[|events| - 1];
      if last.kind.NodeStarted? then AttemptOf(last)
      else if last.kind.NodeFinished? then Idle
      else Open(events[..|events| - 1])
  }

  predicate Belongs(e: Event, current: Current) {
    e.kind.OfAttempt() && !e.kind.NodeStarted? ==> current.Busy? && AttemptOf(e) == current
  }

  /** Text, failures and finishes always belong to the attempt that is open. */
  ghost predicate Bracketed(events: seq<Event>) {
    events != [] ==> Bracketed(events[..|events| - 1]) && Belongs(events[|events| - 1], Open(events[..|events| - 1]))
  }

  lemma {:induction false} OneMore(events: seq<Event>, e: Event)
    ensures Open(events + [e]) ==
      if e.kind.NodeStarted? then AttemptOf(e) else if e.kind.NodeFinished? then Idle else Open(events)
    ensures Bracketed(events + [e]) <==> Bracketed(events) && Belongs(e, Open(events))
    ensures LatestOf(events + [e]) == e.sequence
  {
    assert (events + [e])[..|events|] == events;
  }

  lemma LaterIncreases(events: seq<Event>, e: Event)
    requires Increasing(events) && LatestOf(events) < e.sequence
    ensures Increasing(events + [e])
  {
    forall i | 0 <= i < |events| ensures events[i].sequence < e.sequence {
      assert i < |events| - 1 ==> events[i].sequence < events[|events| - 1].sequence;
    }
  }

  lemma {:induction false} EmitKeeps(key: Key, sequence: nat, node: Option<Id>, attempt: Option<Id>,
      events: seq<Event>, e: Event)
    requires Publishing(key, sequence, node, attempt, events)
    requires e.Valid() && e.Key() == key && e.sequence > sequence && Belongs(e, Open(events))
    ensures Publishing(key, e.sequence,
      if e.kind.NodeStarted? then e.node else if e.kind.NodeFinished? then None else node,
      if e.kind.NodeStarted? then e.attempt else if e.kind.NodeFinished? then None else attempt, events + [e])
  {
    OneMore(events, e);
    LaterIncreases(events, e);
    var longer := events + [e];
    forall i | 0 <= i < |longer| ensures longer[i].Valid() && longer[i].Key() == key {
      assert i < |events| ==> longer[i] == events[i];
    }
  }
}

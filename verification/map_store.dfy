/**
 The canonical store: encoding and decoding of immutable map revisions, publication, and what holds
 over every sequence of publications and refreshes.
 */
module MapStores {
  import opened Options
  import opened Sorting
  import opened MapRevisions

  type Lists = map<Id, seq<Id>>

  /** The stored document: the legacy single-revision form, the present form, or some other schema. */
  datatype Document =
    | Legacy(revision: Revision, edges: Lists)
    | Present(current: Id, revisions: map<Id, Revision>, adjacency: map<Id, Lists>)
    | OtherSchema

  datatype Store = Malformed | Unsupported | Store(current: Id, revisions: map<Id, Revision>)

  function CanonicalAll(revisions: map<Id, Revision>): map<Id, Revision> {
    map id | id in revisions :: Canonical(revisions[id])
  }

  function AdjacencyAll(revisions: map<Id, Revision>): map<Id, Lists> {
    map id | id in revisions :: AdjacencyOf(revisions[id].relations)
  }

  /** `_canonical_json`. */
  function Encode(revisions: map<Id, Revision>, current: Id): Document {
    Present(current, CanonicalAll(revisions), AdjacencyAll(revisions))
  }

  predicate EntryOk(id: Id, r: Revision, adjacency: map<Id, Lists>) {
    Valid(r) && r.id == id && id in adjacency && adjacency[id] == AdjacencyOf(r.relations)
  }

  /** `_decode_store`. */
  function Decode(doc: Document): Store {
    match doc
    case Legacy(r, edges) =>
      if Valid(r) && edges == AdjacencyOf(r.relations) then Store(r.id, map[r.id := r]) else Malformed
    case Present(current, revisions, adjacency) =>
      if current in revisions && adjacency.Keys == revisions.Keys
         && forall id :: id in revisions ==> EntryOk(id, revisions[id], adjacency)
      then Store(current, revisions)
      else Malformed
    case OtherSchema => Unsupported
  }

  /** Every revision is filed under its own id. */
  predicate Filed(revisions: map<Id, Revision>) { forall id :: id in revisions ==> revisions[id].id == id }

  predicate AllValid(revisions: map<Id, Revision>) { forall id :: id in revisions ==> Valid(revisions[id]) }

  /**
   An encoded store decodes exactly when its revisions are valid, and then to the same revisions in canonical
   order.
   */
  lemma RoundTrip(revisions: map<Id, Revision>, current: Id)
    requires current in revisions && Filed(revisions)
    ensures Decode(Encode(revisions, current)) ==
      if AllValid(revisions) then Store(current, CanonicalAll(revisions)) else Malformed
  {
    var doc := Encode(revisions, current);
    assert doc.adjacency.Keys == doc.revisions.Keys;
    forall id | id in revisions ensures EntryOk(id, doc.revisions[id], doc.adjacency) <==> Valid(revisions[id]) {
      CanonicalValid(revisions[id]);
      AdjacencyCanonical(revisions[id]);
    }
  }

  lemma CanonicalAllTwice(revisions: map<Id, Revision>)
    ensures CanonicalAll(CanonicalAll(revisions)) == CanonicalAll(revisions)
  {
    forall id | id in revisions ensures Canonical(Canonical(revisions[id])) == Canonical(revisions[id]) {
      CanonicalTwice(revisions[id]);
    }
  }

  lemma AdjacencyAllSame(revisions: map<Id, Revision>)
    ensures AdjacencyAll(CanonicalAll(revisions)) == AdjacencyAll(revisions)
  {
    forall id | id in revisions
      ensures AdjacencyOf(Canonical(revisions[id]).relations) == AdjacencyOf(revisions[id].relations)
    {
      AdjacencyCanonical(revisions[id]);
    }
  }

  /** Encoding what was decoded gives the same document again. */
  lemma EncodeTwice(revisions: map<Id, Revision>, current: Id)
    ensures Encode(CanonicalAll(revisions), current) == Encode(revisions, current)
  {
    CanonicalAllTwice(revisions);
    AdjacencyAllSame(revisions);
  }

  // ----- publication -----

  datatype Outcome = Published | Unchanged | WrongProject | UnknownActor | UnreadableStore | AlreadyPublished

  predicate OneProject(revisions: map<Id, Revision>, project: Id) {
    forall id :: id in revisions ==> revisions[id].project == project
  }

  /** What a publication answers. */
  function Answer(project: Id, stored: Option<Document>, revision: Revision, actorsKnown: bool): Outcome {
    if revision.project != project then WrongProject
    else if !actorsKnown then UnknownActor
    else if stored.None? then Published
    else
      var store := Decode(stored.value);
      if !store.Store? then UnreadableStore
      else if !OneProject(store.revisions, project) then WrongProject
      else if revision.id !in store.revisions then Published
      else if store.revisions[revision.id] == revision && store.current == revision.id then Unchanged
      else AlreadyPublished
  }

  /** The revisions a readable or absent store holds. */
  function Held(stored: Option<Document>): map<Id, Revision> {
    if stored.None? then map[]
    else
      var store := Decode(stored.value);
      if store.Store? then store.revisions else map[]
  }

  function Stored(project: Id, stored: Option<Document>, revision: Revision, actorsKnown: bool): Option<Document> {
    if Answer(project, stored, revision, actorsKnown).Published?
    then Some(Encode(Held(stored)[revision.id := revision], revision.id))
    else stored
  }

  /** `_decode_store`: validate every revision and compare its adjacency with one computed afresh. */
  method Read(doc: Document) returns (store: Store)
    ensures store == Decode(doc)
  {
    match doc {
      case OtherSchema => return Unsupported;
      case Legacy(r, edges) =>
        var ok := Validate(r);
        if !ok { return Malformed; }
        var computed := Adjacency(r.relations);
        if computed != edges { return Malformed; }
        return Store(r.id, map[r.id := r]);
      case Present(current, revisions, adjacency) =>
        if revisions == map[] || current !in revisions { return Malformed; }
        var rest := revisions.Keys;
        while rest != {}
          invariant rest <= revisions.Keys
          invariant forall id :: id in revisions && id !in rest ==> EntryOk(id, revisions[id], adjacency)
          decreases rest
        {
          var id :| id in rest;
          var ok := Validate(revisions[id]);
          if !ok || revisions[id].id != id { return Malformed; }
          var computed := Adjacency(revisions[id].relations);
          if id !in adjacency || adjacency[id] != computed { return Malformed; }
          rest := rest - {id};
        }
        if adjacency.Keys != revisions.Keys { return Malformed; }
        return Store(current, revisions);
    }
  }

  class CartographyRepository {
    const project: Id
    var stored: Option<Document>

    constructor (projectId: Id)
      ensures project == projectId && stored == None
    {
      project, stored := projectId, None;
    }

    /** `publish`.  Whether the revision's Actors are registered is looked up outside. */
    method Publish(revision: Revision, actorsKnown: bool) returns (outcome: Outcome)
      modifies this`stored
      ensures outcome == Answer(project, old(stored), revision, actorsKnown)
      ensures stored == Stored(project, old(stored), revision, actorsKnown)
    {
      if revision.project != project { return WrongProject; }
      if !actorsKnown { return UnknownActor; }
      var revisions: map<Id, Revision> := map[];
      if stored.Some? {
        var store := Read(stored.value);
        if !store.Store? { return UnreadableStore; }
        revisions := store.revisions;
        if !OneProject(revisions, project) { return WrongProject; }
        if revision.id in revisions {
          if revisions[revision.id] == revision && store.current == revision.id { return Unchanged; }
          return AlreadyPublished;
        }
      }
      stored := Some(Encode(revisions[revision.id := revision], revision.id));
      outcome := Published;
    }

    /** `load`: the current revision, if the store can be read. */
    method Load() returns (revision: Option<Revision>)
      ensures revision == CurrentOf(project, stored)
    {
      if stored.None? { return None; }
      var store := Read(stored.value);
      if !store.Store? || store.current !in store.revisions { return None; }
      if store.revisions[store.current].project != project { return None; }
      return Some(store.revisions[store.current]);
    }
  }

  function CurrentOf(project: Id, stored: Option<Document>): Option<Revision> {
    if stored.None? then None
    else
      var store := Decode(stored.value);
      if store.Store? && store.current in store.revisions && store.revisions[store.current].project == project
      then Some(store.revisions[store.current])
      else None
  }

  /** A store that can be read holds valid revisions under their own ids. */
  lemma HeldIsValid(stored: Option<Document>)
    ensures Filed(Held(stored)) && AllValid(Held(stored))
  {
  }

  /** The store an accepted publication leaves behind. */
  lemma PublishedReads(project: Id, stored: Option<Document>, revision: Revision)
    requires Answer(project, stored, revision, true).Published?
    ensures var all := Held(stored)[revision.id := revision];
      && Stored(project, stored, revision, true) == Some(Encode(all, revision.id))
      && OneProject(CanonicalAll(all), project)
      && Decode(Encode(all, revision.id)) ==
           if Valid(revision) then Store(revision.id, CanonicalAll(all)) else Malformed
  {
    var all := Held(stored)[revision.id := revision];
    HeldIsValid(stored);
    RoundTrip(all, revision.id);
    assert AllValid(all) <==> Valid(revision) by { assert revision.id in all; }
  }

  /**
   Any publication that was accepted, into any store, answered again: the second answer is that nothing
   changed exactly when the revision is valid and was written in canonical order.
   */
  lemma RepublishIff(project: Id, stored: Option<Document>, revision: Revision)
    requires Answer(project, stored, revision, true).Published?
    ensures Answer(project, Stored(project, stored, revision, true), revision, true) ==
      if !Valid(revision) then UnreadableStore
      else if Canonical(revision) == revision then Unchanged
      else AlreadyPublished
  {
    PublishedReads(project, stored, revision);
    if Valid(revision) {
      var all := Held(stored)[revision.id := revision];
      AnswerTo(project, Encode(all, revision.id), revision, CanonicalAll(all));
    }
  }

  /** A valid revision whose two domains are listed out of order. */
  const UNORDERED :=
    Revision(1, 1, 0, [Record(2, Derived, None, 0), Record(1, Derived, None, 0)], [], [], [], [], [], [], [])

  lemma OutOfOrder(r: Revision, i: nat, j: nat)
    requires i < j < |r.domains| && r.domains[i].id > r.domains[j].id
    ensures Canonical(r).domains != r.domains
  {
    SortSorts(r.domains, RecordKey);
    assert RecordKey(r.domains[i]) > RecordKey(r.domains[j]);
  }

  lemma UnorderedIsRefusedAgain()
    ensures Answer(1, Stored(1, None, UNORDERED, true), UNORDERED, true) == AlreadyPublished
  {
    assert AllRecords(UNORDERED) == UNORDERED.domains;
    OutOfOrder(UNORDERED, 0, 1);
    RepublishIff(1, None, UNORDERED);
  }

  lemma AnswerTo(project: Id, doc: Document, revision: Revision, held: map<Id, Revision>)
    requires revision.project == project && Decode(doc) == Store(revision.id, held)
    requires revision.id in held && OneProject(held, project)
    ensures Answer(project, Some(doc), revision, true) ==
      if held[revision.id] == revision then Unchanged else AlreadyPublished
  {
  }

  // ----- runs -----

  /** A publication, or the publication of a refresh assembled over the current revision. */
  datatype Event = Publish(revision: Revision, actorsKnown: bool) | Refresh(generated: Revision, actorsKnown: bool)

  function Next(project: Id, stored: Option<Document>, e: Event): Option<Document> {
    match e
    case Publish(revision, known) => Stored(project, stored, revision, known)
    case Refresh(generated, known) =>
      var prior := CurrentOf(project, stored);
      if prior.None? then stored
      else
        match Assemble(prior.value, generated)
        case Assembled(revision) => Stored(project, stored, revision, known)
        case OtherProject => stored
        case ForgedAuthority => stored
  }

  function After(project: Id, stored: Option<Document>, events: seq<Event>): Option<Document>
    decreases |events|
  {
    if events == [] then stored else After(project, Next(project, stored, events[0]), events[1..])
  }

  /** What publication leaves behind: canonical revisions of one project under their own ids. */
  predicate DocOk(project: Id, stored: Option<Document>) {
    stored.Some? ==>
      && stored.value.Present? && stored.value.current in stored.value.revisions
      && Filed(stored.value.revisions) && OneProject(stored.value.revisions, project)
      && stored.value == Encode(stored.value.revisions, stored.value.current)
  }

  /** Every revision of the earlier document is in the later one, unchanged. */
  predicate Extends(earlier: Option<Document>, later: Option<Document>) {
    earlier.Some? && earlier.value.Present? ==>
      && later.Some? && later.value.Present?
      && forall id :: id in earlier.value.revisions ==>
           id in later.value.revisions && later.value.revisions[id] == earlier.value.revisions[id]
  }

  /** Adding one revision to canonical ones leaves those as they are. */
  lemma AddingKeeps(held: map<Id, Revision>, revision: Revision)
    requires CanonicalAll(held) == held && revision.id !in held
    ensures forall id :: id in held ==> CanonicalAll(held[revision.id := revision])[id] == held[id]
  {
    forall id | id in held ensures Canonical(held[id]) == held[id] {
      assert CanonicalAll(held)[id] == held[id];
    }
  }

  lemma EncodedIsOk(project: Id, all: map<Id, Revision>, current: Id)
    requires current in all && Filed(all) && OneProject(all, project)
    ensures DocOk(project, Some(Encode(all, current)))
  {
    EncodeTwice(all, current);
  }

  lemma AddingExtends(stored: Option<Document>, held: map<Id, Revision>, revision: Revision)
    requires CanonicalAll(held) == held && revision.id !in held
    requires stored.Some? ==> stored.value.Present? && stored.value.revisions == held
    ensures Extends(stored, Some(Encode(held[revision.id := revision], revision.id)))
  {
    AddingKeeps(held, revision);
  }

  /** What a new publication starts from. */
  lemma HeldIsStored(project: Id, stored: Option<Document>, revision: Revision, known: bool)
    requires DocOk(project, stored) && Answer(project, stored, revision, known).Published?
    ensures var held := Held(stored);
      && CanonicalAll(held) == held && Filed(held) && OneProject(held, project) && revision.id !in held
      && revision.project == project && (stored.Some? ==> held == stored.value.revisions)
  {
  }

  lemma PublishKeeps(project: Id, stored: Option<Document>, revision: Revision, known: bool)
    requires DocOk(project, stored)
    ensures DocOk(project, Stored(project, stored, revision, known))
    ensures Extends(stored, Stored(project, stored, revision, known))
  {
    if Answer(project, stored, revision, known).Published? {
      var held := Held(stored);
      HeldIsStored(project, stored, revision, known);
      AddingExtends(stored, held, revision);
      EncodedIsOk(project, held[revision.id := revision], revision.id);
    }
  }

  lemma NextKeeps(project: Id, stored: Option<Document>, e: Event)
    requires DocOk(project, stored)
    ensures DocOk(project, Next(project, stored, e)) && Extends(stored, Next(project, stored, e))
  {
    match e
    case Publish(revision, known) => PublishKeeps(project, stored, revision, known);
    case Refresh(generated, known) =>
      var prior := CurrentOf(project, stored);
      if prior.Some? && Assemble(prior.value, generated).Assembled? {
        PublishKeeps(project, stored, Assemble(prior.value, generated).revision, known);
      }
  }

  /** Immutable history: over any run every revision ever stored stays as it was. */
  lemma {:induction false} HistoryIsImmutable(project: Id, stored: Option<Document>, events: seq<Event>)
    requires DocOk(project, stored)
    ensures DocOk(project, After(project, stored, events)) && Extends(stored, After(project, stored, events))
    decreases |events|
  {
    if events != [] {
      NextKeeps(project, stored, events[0]);
      HistoryIsImmutable(project, Next(project, stored, events[0]), events[1..]);
    }
  }

  /** The store can be read exactly when every revision in it is valid. */
  lemma ReadableIff(project: Id, stored: Option<Document>)
    requires DocOk(project, stored) && stored.Some?
    ensures Decode(stored.value).Store? <==> AllValid(stored.value.revisions)
    ensures Decode(stored.value).Store? ==> Decode(stored.value) == Store(stored.value.current, stored.value.revisions)
  {
    RoundTrip(stored.value.revisions, stored.value.current);
  }

  /** A step adds only valid revisions. */
  ghost predicate Sound(project: Id, stored: Option<Document>, e: Event) {
    match e
    case Publish(revision, _) => Valid(revision)
    case Refresh(generated, _) =>
      Valid(generated) && (CurrentOf(project, stored).Some? ==>
        NoCollision(CurrentOf(project, stored).value, generated))
  }

  ghost predicate AllSound(project: Id, stored: Option<Document>, events: seq<Event>)
    decreases |events|
  {
    events != [] ==>
      Sound(project, stored, events[0]) && AllSound(project, Next(project, stored, events[0]), events[1..])
  }

  lemma PublishStaysReadable(project: Id, stored: Option<Document>, revision: Revision, known: bool)
    requires DocOk(project, stored) && Valid(revision) && (stored.Some? ==> AllValid(stored.value.revisions))
    ensures var next := Stored(project, stored, revision, known); next.Some? ==> AllValid(next.value.revisions)
  {
    if Answer(project, stored, revision, known).Published? {
      var held := Held(stored);
      var all := held[revision.id := revision];
      forall id | id in all ensures Valid(CanonicalAll(all)[id]) {
        CanonicalValid(all[id]);
      }
    }
  }

  lemma NextStaysReadable(project: Id, stored: Option<Document>, e: Event)
    requires DocOk(project, stored) && Sound(project, stored, e) && (stored.Some? ==> AllValid(stored.value.revisions))
    ensures var next := Next(project, stored, e); next.Some? ==> AllValid(next.value.revisions)
  {
    match e
    case Publish(revision, known) => PublishStaysReadable(project, stored, revision, known);
    case Refresh(generated, known) =>
      var prior := CurrentOf(project, stored);
      if prior.Some? && Assemble(prior.value, generated).Assembled? {
        ReadableIff(project, stored);
        AssembledValidIff(prior.value, generated);
        PublishStaysReadable(project, stored, Assemble(prior.value, generated).revision, known);
      }
  }

  /** Sound steps keep the store readable for ever. */
  lemma {:induction false} SoundRunsStayReadable(project: Id, stored: Option<Document>, events: seq<Event>)
    requires DocOk(project, stored) && AllSound(project, stored, events) &&
      (stored.Some? ==> AllValid(stored.value.revisions))
    ensures DocOk(project, After(project, stored, events))
    ensures var last :=
      After(project, stored, events); last.Some? ==> AllValid(last.value.revisions) && Decode(last.value).Store?
    decreases |events|
  {
    if events == [] {
      if stored.Some? { ReadableIff(project, stored); }
    } else {
      NextKeeps(project, stored, events[0]);
      NextStaysReadable(project, stored, events[0]);
      SoundRunsStayReadable(project, Next(project, stored, events[0]), events[1..]);
    }
  }

  /** A colliding refresh is published all the same, and leaves a store that can no longer be read. */
  lemma CollidingRefreshBreaksStore(project: Id, stored: Option<Document>, generated: Revision)
    requires DocOk(project, stored) && stored.Some? && AllValid(stored.value.revisions)
    requires Valid(generated) && generated.id !in stored.value.revisions
    requires CurrentOf(project, stored).Some? && Assemble(CurrentOf(project, stored).value, generated).Assembled?
    ensures var next := Next(project, stored, Refresh(generated, true));
      next.Some? && next != stored &&
        (Decode(next.value).Store? <==> NoCollision(CurrentOf(project, stored).value, generated))
  {
    ReadableIff(project, stored);
    var prior := CurrentOf(project, stored).value;
    AssembledValidIff(prior, generated);
    RefreshPublishes(project, stored, generated, true);
    NewRevisionDecides(project, stored, Assemble(prior, generated).revision);
  }

  /** The published revision alone decides whether a readable store stays readable. */
  lemma NewRevisionDecides(project: Id, stored: Option<Document>, revision: Revision)
    requires DocOk(project, stored) && stored.Some? && AllValid(stored.value.revisions)
    requires revision.project == project && revision.id !in stored.value.revisions
    ensures var next := Stored(project, stored, revision, true);
      next.Some? && next != stored && (Decode(next.value).Store? <==> Valid(revision))
  {
    ReadableIff(project, stored);
    var all := stored.value.revisions[revision.id := revision];
    assert Answer(project, stored, revision, true).Published?;
    RoundTrip(all, revision.id);
    assert all[revision.id] == revision;
  }

  /** Once unreadable, always unreadable: no later publication or refresh changes anything. */
  lemma {:induction false} UnreadableStaysUnreadable(project: Id, stored: Option<Document>, events: seq<Event>)
    requires stored.Some? && !Decode(stored.value).Store?
    ensures After(project, stored, events) == stored
    decreases |events|
  {
    if events != [] { UnreadableStaysUnreadable(project, stored, events[1..]); }
  }

  // ----- protected records -----

  /** Attributed and governing records of one revision are in another, category by category. */
  predicate Carries(later: Revision, earlier: Revision) {
    && (forall x :: x in earlier.annotations && !x.authority.Derived? ==> x in later.annotations)
    && (forall x :: x in earlier.claims && !x.authority.Derived? ==> x in later.claims)
    && (forall x :: x in earlier.constraints && !x.authority.Derived? ==> x in later.constraints)
  }

  lemma AssembledCarries(prior: Revision, generated: Revision)
    requires Assemble(prior, generated).Assembled?
    ensures Carries(Canonical(Assemble(prior, generated).revision), prior)
  {
    var revision := Assemble(prior, generated).revision;
    PreserveMembers(prior.annotations, generated.annotations);
    PreserveMembers(prior.claims, generated.claims);
    PreserveMembers(prior.constraints, generated.constraints);
    SortMembers(revision.annotations, RecordKey);
    SortMembers(revision.claims, RecordKey);
    SortMembers(revision.constraints, RecordKey);
  }

  /** What was published last is current, in canonical order. */
  lemma PublishedIsCurrent(project: Id, stored: Option<Document>, revision: Revision, known: bool)
    requires Answer(project, stored, revision, known).Published?
    requires CurrentOf(project, Stored(project, stored, revision, known)).Some?
    ensures CurrentOf(project, Stored(project, stored, revision, known)).value == Canonical(revision)
  {
  }

  lemma RefreshPublishes(project: Id, stored: Option<Document>, generated: Revision, known: bool)
    requires CurrentOf(project, stored).Some? && Assemble(CurrentOf(project, stored).value, generated).Assembled?
    ensures Next(project, stored, Refresh(generated, known)) ==
      Stored(project, stored, Assemble(CurrentOf(project, stored).value, generated).revision, known)
  {
  }

  lemma RefreshCarries(project: Id, stored: Option<Document>, e: Event)
    requires DocOk(project, stored) && e.Refresh? && CurrentOf(project, stored).Some?
    requires CurrentOf(project, Next(project, stored, e)).Some?
    ensures Carries(CurrentOf(project, Next(project, stored, e)).value, CurrentOf(project, stored).value)
  {
    var prior := CurrentOf(project, stored).value;
    if Next(project, stored, e) != stored {
      RefreshPublishes(project, stored, e.generated, e.actorsKnown);
      AssembledCarries(prior, e.generated);
      PublishedIsCurrent(project, stored, Assemble(prior, e.generated).revision, e.actorsKnown);
    }
  }

  /** Over any run of refreshes no attributed or governing record is lost or changed. */
  lemma {:induction false} RefreshesCarryAuthority(project: Id, stored: Option<Document>, events: seq<Event>)
    requires DocOk(project, stored) && CurrentOf(project, stored).Some?
    requires forall i :: 0 <= i < |events| ==> events[i].Refresh?
    requires CurrentOf(project, After(project, stored, events)).Some?
    ensures Carries(CurrentOf(project, After(project, stored, events)).value, CurrentOf(project, stored).value)
    decreases |events|
  {
    if events != [] {
      var next := Next(project, stored, events[0]);
      NextKeeps(project, stored, events[0]);
      ReadableBefore(project, next, events[1..]);
      RefreshCarries(project, stored, events[0]);
      RefreshesCarryAuthority(project, next, events[1..]);
    }
  }

  /** A store that is readable at the end was readable all along. */
  lemma ReadableBefore(project: Id, stored: Option<Document>, events: seq<Event>)
    requires DocOk(project, stored) && stored.Some? && CurrentOf(project, After(project, stored, events)).Some?
    ensures CurrentOf(project, stored).Some?
  {
    if !Decode(stored.value).Store? {
      UnreadableStaysUnreadable(project, stored, events);
    }
  }
}

/** The event journal, the session index kept beside it, its rebuilding on reopening
    (src/main/database.ts), and forks at a checkpoint (src/main/session-service.ts). */
module Journal {
  import opened Wrappers
  import opened Json
  import opened SessionProjection

  /** SHA-256 of a value, told apart by the value itself. */
  datatype Digest =
    | EntryDigest(thread: nat, turn: Option<nat>, ordinal: nat, kind: Kind, timestamp: int, payload: Record)
    | ContextDigest(entries: seq<Digest>)

  datatype Event = Event(id: nat, thread: nat, turn: Option<nat>, sequence: nat, eventType: EventType,
                         timestamp: int, payload: Record)

  /** A row without its own id. */
  datatype EntryBody = EntryBody(thread: nat, turn: Option<nat>, source: nat, ordinal: nat, kind: Kind,
                                 timestamp: int, payload: Record, digest: Digest)
  datatype Entry = Entry(id: nat, body: EntryBody)

  datatype CheckpointBody = CheckpointBody(thread: nat, turn: nat, source: nat, entryOrdinal: nat,
                                           contextDigest: Digest, timestamp: int)
  datatype Checkpoint = Checkpoint(id: nat, body: CheckpointBody)

  /** The tables, in insertion order. Fresh ids come from one counter. */
  datatype Tables = Tables(threads: set<nat>, events: seq<Event>, entries: seq<Entry>,
                           checkpoints: seq<Checkpoint>, nextId: nat)

  // ----- queries

  function EventsOf(events: seq<Event>, thread: nat): seq<Event> {
    if events == [] then []
    else
      var last := events[|events| - 1];
      EventsOf(events[..|events| - 1], thread) + if last.thread == thread then [last] else []
  }

  function BodiesOf(entries: seq<Entry>, thread: nat): seq<EntryBody> {
    if entries == [] then []
    else
      var last := entries[|entries| - 1].body;
      BodiesOf(entries[..|entries| - 1], thread) + if last.thread == thread then [last] else []
  }

  function CheckpointsOf(checkpoints: seq<Checkpoint>, thread: nat): seq<CheckpointBody> {
    if checkpoints == [] then []
    else
      var last := checkpoints[|checkpoints| - 1].body;
      CheckpointsOf(checkpoints[..|checkpoints| - 1], thread) + if last.thread == thread then [last] else []
  }

  function Max(x: nat, y: nat): nat {
    if x >= y then x else y
  }

  function MaxSequence(events: seq<Event>): nat {
    if events == [] then 0 else Max(MaxSequence(events[..|events| - 1]), events[|events| - 1].sequence)
  }

  function MaxOrdinal(bodies: seq<EntryBody>): nat {
    if bodies == [] then 0 else Max(MaxOrdinal(bodies[..|bodies| - 1]), bodies[|bodies| - 1].ordinal)
  }

  function Digests(bodies: seq<EntryBody>): seq<Digest> {
    seq(|bodies|, k requires 0 <= k < |bodies| => bodies[k].digest)
  }

  predicate HasEntryFrom(t: Tables, source: nat) {
    exists k | 0 <= k < |t.entries| :: t.entries[k].body.source == source
  }

  predicate HasCheckpointFrom(t: Tables, source: nat) {
    exists k | 0 <= k < |t.checkpoints| :: t.checkpoints[k].body.source == source
  }

  // ----- projecting an event into the index

  predicate IsSafeCheckpoint(e: Event) {
    e.eventType == SessionCheckpoint && e.turn.Some? && Get(e.payload, "safe") == Some(Bool(true))
  }

  predicate MakesEntry(e: Event) {
    e.eventType != SessionCheckpoint && Projection(e.eventType, e.payload).Some?
  }

  /** The entry an event makes when `ordinal` entries come to stand in its thread. */
  function EntryFor(e: Event, ordinal: nat): EntryBody
    requires MakesEntry(e)
  {
    var projected := Projection(e.eventType, e.payload).value;
    EntryBody(e.thread, e.turn, e.id, ordinal, projected.kind, e.timestamp, projected.payload,
              EntryDigest(e.thread, e.turn, ordinal, projected.kind, e.timestamp, projected.payload))
  }

  function CheckpointFor(e: Event, entries: seq<EntryBody>): CheckpointBody
    requires IsSafeCheckpoint(e)
  {
    CheckpointBody(e.thread, e.turn.value, e.id, if entries == [] then 0 else entries[|entries| - 1].ordinal,
                   ContextDigest(Digests(entries)), e.timestamp)
  }

  function Project(t: Tables, e: Event): Tables {
    if e.eventType == SessionCheckpoint then
      if !IsSafeCheckpoint(e) || HasCheckpointFrom(t, e.id) then t
      else
        var body := CheckpointFor(e, BodiesOf(t.entries, e.thread));
        t.(checkpoints := t.checkpoints + [Checkpoint(t.nextId, body)], nextId := t.nextId + 1)
    else if !MakesEntry(e) || HasEntryFrom(t, e.id) then t
    else
      var body := EntryFor(e, MaxOrdinal(BodiesOf(t.entries, e.thread)) + 1);
      t.(entries := t.entries + [Entry(t.nextId, body)], nextId := t.nextId + 1)
  }

  function Appended(t: Tables, thread: nat, turn: Option<nat>, eventType: EventType, payload: Record,
                    now: int): Tables {
    if thread !in t.threads then t
    else
      var e := Event(t.nextId, thread, turn, MaxSequence(EventsOf(t.events, thread)) + 1, eventType, now, payload);
      Project(t.(events := t.events + [e], nextId := t.nextId + 1), e)
  }

  /** Projects again every event of a list. */
  function Reprojected(t: Tables, events: seq<Event>): Tables
    decreases |events|
  {
    if events == [] then t else Reprojected(Project(t, events[0]), events[1..])
  }

  /** All events, by thread in the given order and then by sequence. */
  function Ordered(events: seq<Event>, order: seq<nat>): seq<Event> {
    if order == [] then [] else EventsOf(events, order[0]) + Ordered(events, order[1..])
  }

  function Backfilled(t: Tables, order: seq<nat>): Tables {
    Reprojected(t, Ordered(t.events, order))
  }

  // ----- the index, computed from the events of a thread alone

  function Replay(events: seq<Event>): seq<EntryBody> {
    if events == [] then []
    else
      var front, last := Replay(events[..|events| - 1]), events[|events| - 1];
      front + if MakesEntry(last) then [EntryFor(last, |front| + 1)] else []
  }

  function ReplayCheckpoints(events: seq<Event>): seq<CheckpointBody> {
    if events == [] then []
    else
      var front, last := events[..|events| - 1], events[|events| - 1];
      ReplayCheckpoints(front) + if IsSafeCheckpoint(last) then [CheckpointFor(last, Replay(front))] else []
  }

  // ----- invariants

  /** The index of `thread` is the replay of its first `n` events. */
  ghost predicate Covers(t: Tables, thread: nat, n: nat) {
    var events := EventsOf(t.events, thread);
    && n <= |events|
    && BodiesOf(t.entries, thread) == Replay(events[..n])
    && CheckpointsOf(t.checkpoints, thread) == ReplayCheckpoints(events[..n])
  }

  /** How many events of a thread are indexed: all of them, unless `covered` says otherwise. */
  function Covered(t: Tables, covered: map<nat, nat>, thread: nat): nat {
    if thread in covered then covered[thread] else |EventsOf(t.events, thread)|
  }

  ghost predicate IndexCovers(t: Tables, covered: map<nat, nat>) {
    forall thread :: Covers(t, thread, Covered(t, covered, thread))
  }

  ghost predicate JournalOk(t: Tables) {
    && (forall i, j | 0 <= i < j < |t.events| :: t.events[i].id != t.events[j].id)
    && (forall i | 0 <= i < |t.events| :: t.events[i].id < t.nextId && t.events[i].thread in t.threads)
    && (forall thread | thread in t.threads :: thread < t.nextId)
    && (forall thread :: Numbered(EventsOf(t.events, thread)))
  }

  /** The sequence numbers are 1 to n. */
  predicate Numbered(events: seq<Event>) {
    forall k | 0 <= k < |events| :: events[k].sequence == k + 1
  }

  /** The journal is in order and every thread's index is the replay of its events. */
  ghost predicate Inv(t: Tables) {
    JournalOk(t) && IndexCovers(t, map[])
  }

  // ----- queries over one more row

  lemma {:induction false} EventsSnoc(events: seq<Event>, e: Event, thread: nat)
    ensures EventsOf(events + [e], thread) == EventsOf(events, thread) + if e.thread == thread then [e] else []
  {
    assert (events + [e])[..|events|] == events;
  }

  lemma {:induction false} BodiesSnoc(entries: seq<Entry>, entry: Entry, thread: nat)
    ensures BodiesOf(entries + [entry], thread)
         == BodiesOf(entries, thread) + if entry.body.thread == thread then [entry.body] else []
  {
    assert (entries + [entry])[..|entries|] == entries;
  }

  lemma {:induction false} CheckpointsSnoc(checkpoints: seq<Checkpoint>, checkpoint: Checkpoint, thread: nat)
    ensures CheckpointsOf(checkpoints + [checkpoint], thread)
         == CheckpointsOf(checkpoints, thread) + if checkpoint.body.thread == thread then [checkpoint.body] else []
  {
    assert (checkpoints + [checkpoint])[..|checkpoints|] == checkpoints;
  }

  lemma {:induction false} EventsOfAt(events: seq<Event>, thread: nat, k: nat)
    requires k < |EventsOf(events, thread)|
    ensures EventsOf(events, thread)[k] in events && EventsOf(events, thread)[k].thread == thread
  {
    var front := events[..|events| - 1];
    if k < |EventsOf(front, thread)| {
      EventsOfAt(front, thread, k);
    }
  }

  lemma {:induction false} EventsOfDistinct(events: seq<Event>, thread: nat, i: nat, j: nat)
    requires forall x, y | 0 <= x < y < |events| :: events[x].id != events[y].id
    requires i < j < |EventsOf(events, thread)|
    ensures EventsOf(events, thread)[i].id != EventsOf(events, thread)[j].id
  {
    var front := events[..|events| - 1];
    if j < |EventsOf(front, thread)| {
      EventsOfDistinct(front, thread, i, j);
    } else {
      EventsOfAt(front, thread, i);
      var x :| 0 <= x < |front| && front[x] == EventsOf(front, thread)[i];
      assert events[x].id != events[|events| - 1].id;
    }
  }

  lemma {:induction false} BodiesHold(entries: seq<Entry>, k: nat)
    requires k < |entries|
    ensures entries[k].body in BodiesOf(entries, entries[k].body.thread)
  {
    var front, thread := entries[..|entries| - 1], entries[k].body.thread;
    var bodies := BodiesOf(entries, thread);
    if k < |front| {
      BodiesHold(front, k);
      var j :| 0 <= j < |BodiesOf(front, thread)| && BodiesOf(front, thread)[j] == entries[k].body;
      assert bodies[j] == entries[k].body;
    } else {
      assert bodies[|bodies| - 1] == entries[k].body;
    }
  }

  lemma {:induction false} BodiesFrom(entries: seq<Entry>, thread: nat, body: EntryBody)
    requires body in BodiesOf(entries, thread)
    ensures exists k | 0 <= k < |entries| :: entries[k].body == body
  {
    var front := entries[..|entries| - 1];
    if body in BodiesOf(front, thread) {
      BodiesFrom(front, thread, body);
      var k :| 0 <= k < |front| && front[k].body == body;
      assert entries[k].body == body;
    } else {
      assert entries[|entries| - 1].body == body;
    }
  }

  lemma {:induction false} CheckpointsHold(checkpoints: seq<Checkpoint>, k: nat)
    requires k < |checkpoints|
    ensures checkpoints[k].body in CheckpointsOf(checkpoints, checkpoints[k].body.thread)
  {
    var front, thread := checkpoints[..|checkpoints| - 1], checkpoints[k].body.thread;
    var bodies := CheckpointsOf(checkpoints, thread);
    if k < |front| {
      CheckpointsHold(front, k);
      var j :| 0 <= j < |CheckpointsOf(front, thread)| && CheckpointsOf(front, thread)[j] == checkpoints[k].body;
      assert bodies[j] == checkpoints[k].body;
    } else {
      assert bodies[|bodies| - 1] == checkpoints[k].body;
    }
  }

  lemma {:induction false} CheckpointsFrom(checkpoints: seq<Checkpoint>, thread: nat, body: CheckpointBody)
    requires body in CheckpointsOf(checkpoints, thread)
    ensures exists k | 0 <= k < |checkpoints| :: checkpoints[k].body == body
  {
    var front := checkpoints[..|checkpoints| - 1];
    if body in CheckpointsOf(front, thread) {
      CheckpointsFrom(front, thread, body);
      var k :| 0 <= k < |front| && front[k].body == body;
      assert checkpoints[k].body == body;
    } else {
      assert checkpoints[|checkpoints| - 1].body == body;
    }
  }

  // ----- facts about the replay

  lemma {:induction false} ReplaySnoc(events: seq<Event>, n: nat)
    requires n < |events|
    ensures Replay(events[..n + 1])
         == Replay(events[..n]) + if MakesEntry(events[n]) then [EntryFor(events[n], |Replay(events[..n])| + 1)] else []
    ensures ReplayCheckpoints(events[..n + 1])
         == ReplayCheckpoints(events[..n])
            + if IsSafeCheckpoint(events[n]) then [CheckpointFor(events[n], Replay(events[..n]))] else []
  {
    assert events[..n + 1][..n] == events[..n];
  }

  /** The ordinals are 1 to k, and every entry stems from an event of the list. */
  lemma {:induction false} ReplayAt(events: seq<Event>, k: nat)
    requires k < |Replay(events)|
    ensures Replay(events)[k].ordinal == k + 1
    ensures exists i | 0 <= i < |events| :: MakesEntry(events[i]) && Replay(events)[k] == EntryFor(events[i], k + 1)
  {
    var front, last := events[..|events| - 1], events[|events| - 1];
    if k < |Replay(front)| {
      ReplayAt(front, k);
      var i :| 0 <= i < |front| && MakesEntry(front[i]) && Replay(front)[k] == EntryFor(front[i], k + 1);
      assert events[i] == front[i] && Replay(events)[k] == Replay(front)[k];
    } else {
      assert k == |Replay(front)| && MakesEntry(last) && Replay(events)[k] == EntryFor(last, k + 1);
      assert events[|events| - 1] == last;
    }
  }

  lemma {:induction false} ReplayMax(events: seq<Event>)
    ensures MaxOrdinal(Replay(events)) == |Replay(events)|
    ensures Replay(events) != [] ==> Replay(events)[|Replay(events)| - 1].ordinal == |Replay(events)|
  {
    if events != [] {
      var front := Replay(events[..|events| - 1]);
      ReplayMax(events[..|events| - 1]);
      assert Replay(events) != front ==> Replay(events)[..|Replay(events)| - 1] == front;
    }
  }

  lemma {:induction false} ReplayHolds(events: seq<Event>, i: nat)
    requires i < |events|
    ensures MakesEntry(events[i]) ==> exists b | b in Replay(events) :: b.source == events[i].id
    ensures IsSafeCheckpoint(events[i]) ==> exists c | c in ReplayCheckpoints(events) :: c.source == events[i].id
  {
    var front, last := events[..|events| - 1], events[|events| - 1];
    if i < |front| {
      ReplayHolds(front, i);
      assert forall b | b in Replay(front) :: b in Replay(events);
      assert forall c | c in ReplayCheckpoints(front) :: c in ReplayCheckpoints(events);
    } else {
      if MakesEntry(last) {
        assert EntryFor(last, |Replay(front)| + 1) in Replay(events);
      }
      if IsSafeCheckpoint(last) {
        assert CheckpointFor(last, Replay(front)) in ReplayCheckpoints(events);
      }
    }
  }

  lemma {:induction false} ReplayCheckpointFrom(events: seq<Event>, c: CheckpointBody)
    requires c in ReplayCheckpoints(events)
    ensures exists i | 0 <= i < |events| :: events[i].id == c.source
    ensures c.entryOrdinal <= |Replay(events)|
    ensures c.contextDigest == ContextDigest(Digests(Replay(events)[..c.entryOrdinal]))
  {
    var front, last := events[..|events| - 1], events[|events| - 1];
    if c in ReplayCheckpoints(front) {
      ReplayCheckpointFrom(front, c);
      var i :| 0 <= i < |front| && front[i].id == c.source;
      assert events[i] == front[i];
      assert Replay(events)[..c.entryOrdinal] == Replay(front)[..c.entryOrdinal];
    } else {
      ReplayMax(front);
      assert c == CheckpointFor(last, Replay(front));
      assert events[|events| - 1].id == c.source;
      assert Replay(events)[..c.entryOrdinal] == Replay(front);
    }
  }

  // ----- one projection step

  lemma {:induction false} SameId(t: Tables, x: Event, y: Event)
    requires JournalOk(t) && x in t.events && y in t.events && x.id == y.id
    ensures x == y
  {
    var i :| 0 <= i < |t.events| && t.events[i] == x;
    var j :| 0 <= j < |t.events| && t.events[j] == y;
    assert i == j;
  }

  /** An event indexed in some thread's prefix is not the first event behind this one's prefix. */
  lemma {:induction false} NotIndexedYet(t: Tables, thread: nat, n: nat, other: nat, m: nat, i: nat)
    requires JournalOk(t) && n < |EventsOf(t.events, thread)|
    requires i < m <= |EventsOf(t.events, other)| && (other == thread ==> m <= n)
    ensures EventsOf(t.events, other)[i].id != EventsOf(t.events, thread)[n].id
  {
    EventsOfAt(t.events, thread, n);
    EventsOfAt(t.events, other, i);
    if other == thread {
      EventsOfDistinct(t.events, thread, i, n);
    } else if EventsOf(t.events, other)[i].id == EventsOf(t.events, thread)[n].id {
      SameId(t, EventsOf(t.events, other)[i], EventsOf(t.events, thread)[n]);
    }
  }

  lemma {:induction false} FreshSource(t: Tables, covered: map<nat, nat>, thread: nat)
    requires JournalOk(t) && IndexCovers(t, covered)
    requires Covered(t, covered, thread) < |EventsOf(t.events, thread)|
    ensures !HasEntryFrom(t, EventsOf(t.events, thread)[Covered(t, covered, thread)].id)
    ensures !HasCheckpointFrom(t, EventsOf(t.events, thread)[Covered(t, covered, thread)].id)
  {
    var n := Covered(t, covered, thread);
    var e := EventsOf(t.events, thread)[n];
    forall k | 0 <= k < |t.entries|
      ensures t.entries[k].body.source != e.id
    {
      var other := t.entries[k].body.thread;
      var m := Covered(t, covered, other);
      BodiesHold(t.entries, k);
      assert Covers(t, other, m);
      var events := EventsOf(t.events, other)[..m];
      var j :| 0 <= j < |Replay(events)| && Replay(events)[j] == t.entries[k].body;
      ReplayAt(events, j);
      var i :| 0 <= i < |events| && MakesEntry(events[i]) && Replay(events)[j] == EntryFor(events[i], j + 1);
      NotIndexedYet(t, thread, n, other, m, i);
    }
    forall k | 0 <= k < |t.checkpoints|
      ensures t.checkpoints[k].body.source != e.id
    {
      var other := t.checkpoints[k].body.thread;
      var m := Covered(t, covered, other);
      CheckpointsHold(t.checkpoints, k);
      assert Covers(t, other, m);
      var events := EventsOf(t.events, other)[..m];
      ReplayCheckpointFrom(events, t.checkpoints[k].body);
      var i :| 0 <= i < |events| && events[i].id == t.checkpoints[k].body.source;
      NotIndexedYet(t, thread, n, other, m, i);
    }
  }

  lemma {:induction false} ProjectKeepsJournal(t: Tables, e: Event)
    requires JournalOk(t)
    ensures JournalOk(Project(t, e)) && Project(t, e).events == t.events && Project(t, e).threads == t.threads
  {
  }

  /** Projecting the first event behind a thread's indexed prefix extends that prefix by one, and
      changes nothing for the other threads. */
  lemma {:induction false} ProjectNext(t: Tables, covered: map<nat, nat>, thread: nat)
    requires JournalOk(t) && IndexCovers(t, covered)
    requires Covered(t, covered, thread) < |EventsOf(t.events, thread)|
    ensures IndexCovers(Project(t, EventsOf(t.events, thread)[Covered(t, covered, thread)]),
                        covered[thread := Covered(t, covered, thread) + 1])
  {
    var n := Covered(t, covered, thread);
    var events := EventsOf(t.events, thread);
    var e := events[n];
    var t' := Project(t, e);
    EventsOfAt(t.events, thread, n);
    FreshSource(t, covered, thread);
    ProjectKeepsJournal(t, e);
    var covered' := covered[thread := n + 1];
    forall other
      ensures Covers(t', other, Covered(t', covered', other))
    {
      assert Covers(t, other, Covered(t, covered, other));
      if other == thread {
        ProjectedRows(t, e, n);
      } else {
        OtherRows(t, e, other);
      }
    }
  }

  lemma {:induction false} OtherRows(t: Tables, e: Event, other: nat)
    requires other != e.thread
    ensures BodiesOf(Project(t, e).entries, other) == BodiesOf(t.entries, other)
    ensures CheckpointsOf(Project(t, e).checkpoints, other) == CheckpointsOf(t.checkpoints, other)
  {
    var t' := Project(t, e);
    if t'.entries != t.entries {
      BodiesSnoc(t.entries, t'.entries[|t.entries|], other);
    }
    if t'.checkpoints != t.checkpoints {
      CheckpointsSnoc(t.checkpoints, t'.checkpoints[|t.checkpoints|], other);
    }
  }

  lemma {:induction false} ProjectedRows(t: Tables, e: Event, n: nat)
    requires Covers(t, e.thread, n) && n < |EventsOf(t.events, e.thread)| && EventsOf(t.events, e.thread)[n] == e
    requires !HasEntryFrom(t, e.id) && !HasCheckpointFrom(t, e.id)
    ensures Covers(Project(t, e), e.thread, n + 1)
  {
    var events := EventsOf(t.events, e.thread);
    var t' := Project(t, e);
    ReplaySnoc(events, n);
    ReplayMax(events[..n]);
    var bodies := BodiesOf(t.entries, e.thread);
    if MakesEntry(e) {
      BodiesSnoc(t.entries, Entry(t.nextId, EntryFor(e, |bodies| + 1)), e.thread);
    } else {
      assert Replay(events[..n]) + [] == Replay(events[..n]);
    }
    if IsSafeCheckpoint(e) {
      CheckpointsSnoc(t.checkpoints, Checkpoint(t.nextId, CheckpointFor(e, bodies)), e.thread);
    } else {
      assert ReplayCheckpoints(events[..n]) + [] == ReplayCheckpoints(events[..n]);
    }
  }

  /** Projecting an indexed event again changes nothing. */
  lemma {:induction false} ProjectAgain(t: Tables, covered: map<nat, nat>, thread: nat, i: nat)
    requires IndexCovers(t, covered)
    requires i < Covered(t, covered, thread)
    ensures i < |EventsOf(t.events, thread)|
    ensures Project(t, EventsOf(t.events, thread)[i]) == t
  {
    var n := Covered(t, covered, thread);
    assert Covers(t, thread, n);
    var events := EventsOf(t.events, thread)[..n];
    ReplayHolds(events, i);
    var e := events[i];
    EventsOfAt(t.events, thread, i);
    if MakesEntry(e) {
      var b :| b in Replay(events) && b.source == e.id;
      BodiesFrom(t.entries, thread, b);
    }
    if IsSafeCheckpoint(e) {
      var c :| c in ReplayCheckpoints(events) && c.source == e.id;
      CheckpointsFrom(t.checkpoints, thread, c);
    }
  }

  // ----- appending

  lemma {:induction false} NumberedMax(events: seq<Event>)
    requires Numbered(events)
    ensures MaxSequence(events) == |events|
  {
    if events != [] {
      NumberedMax(events[..|events| - 1]);
    }
  }

  function NewEvent(t: Tables, thread: nat, turn: Option<nat>, eventType: EventType, payload: Record, now: int): Event {
    Event(t.nextId, thread, turn, MaxSequence(EventsOf(t.events, thread)) + 1, eventType, now, payload)
  }

  lemma {:induction false} JournalGrows(t: Tables, e: Event)
    requires JournalOk(t) && e.id == t.nextId && e.thread in t.threads
        && e.sequence == MaxSequence(EventsOf(t.events, e.thread)) + 1
    ensures JournalOk(t.(events := t.events + [e], nextId := t.nextId + 1))
  {
    var t1 := t.(events := t.events + [e], nextId := t.nextId + 1);
    forall thread
      ensures Numbered(EventsOf(t1.events, thread))
    {
      StillNumbered(t, e, thread);
    }
  }

  lemma {:induction false} StillNumbered(t: Tables, e: Event, thread: nat)
    requires Numbered(EventsOf(t.events, thread))
    requires e.sequence == MaxSequence(EventsOf(t.events, e.thread)) + 1
    ensures Numbered(EventsOf(t.events + [e], thread))
  {
    EventsSnoc(t.events, e, thread);
    NumberedMax(EventsOf(t.events, thread));
  }

  lemma {:induction false} CoversLonger(t: Tables, e: Event, thread: nat, n: nat)
    requires Covers(t, thread, n)
    ensures Covers(t.(events := t.events + [e], nextId := t.nextId + 1), thread, n)
  {
    EventsSnoc(t.events, e, thread);
    var longer := EventsOf(t.events + [e], thread);
    assert longer[..n] == EventsOf(t.events, thread)[..n];
  }

  lemma {:induction false} FullyCovered(t: Tables, covered: map<nat, nat>)
    requires IndexCovers(t, covered)
    requires forall thread | thread in covered :: covered[thread] == |EventsOf(t.events, thread)|
    ensures IndexCovers(t, map[])
  {
    forall thread
      ensures Covers(t, thread, Covered(t, map[], thread))
    {
      assert Covers(t, thread, Covered(t, covered, thread));
    }
  }

  lemma {:induction false} AppendLeavesOneBehind(t: Tables, e: Event)
    requires IndexCovers(t, map[])
    ensures IndexCovers(t.(events := t.events + [e], nextId := t.nextId + 1),
                        map[e.thread := |EventsOf(t.events, e.thread)|])
  {
    var t1 := t.(events := t.events + [e], nextId := t.nextId + 1);
    var covered := map[e.thread := |EventsOf(t.events, e.thread)|];
    forall other
      ensures Covers(t1, other, Covered(t1, covered, other))
    {
      assert Covers(t, other, Covered(t, map[], other));
      CoversLonger(t, e, other, |EventsOf(t.events, other)|);
      EventsSnoc(t.events, e, other);
    }
  }

  function Grown(t: Tables, e: Event): Tables {
    t.(events := t.events + [e], nextId := t.nextId + 1)
  }

  lemma {:induction false} GrownIndexed(t: Tables, e: Event)
    requires Inv(t) && JournalOk(Grown(t, e))
    ensures IndexCovers(Project(Grown(t, e), e), map[])
  {
    var t1 := Grown(t, e);
    var n := |EventsOf(t.events, e.thread)|;
    EventsSnoc(t.events, e, e.thread);
    assert EventsOf(t1.events, e.thread)[n] == e;
    assert IndexCovers(Project(t1, e), map[e.thread := n][e.thread := n + 1]) by {
      AppendLeavesOneBehind(t, e);
      ProjectNext(t1, map[e.thread := n], e.thread);
    }
    assert Project(t1, e).events == t1.events by {
      ProjectKeepsJournal(t1, e);
    }
    FullyCovered(Project(t1, e), map[e.thread := n][e.thread := n + 1]);
  }

  lemma {:induction false} GrownKeepsInv(t: Tables, e: Event)
    requires Inv(t) && e.id == t.nextId && e.thread in t.threads
    requires e.sequence == MaxSequence(EventsOf(t.events, e.thread)) + 1
    ensures Inv(Project(Grown(t, e), e))
    ensures Project(Grown(t, e), e).events == t.events + [e] && Project(Grown(t, e), e).threads == t.threads
  {
    JournalGrows(t, e);
    GrownIndexed(t, e);
    ProjectKeepsJournal(Grown(t, e), e);
  }

  /** An append keeps the journal numbered and the index equal to its replay. */
  lemma {:induction false} AppendKeepsInv(t: Tables, thread: nat, turn: Option<nat>, eventType: EventType,
                                          payload: Record, now: int)
    requires Inv(t) && thread in t.threads
    ensures Inv(Appended(t, thread, turn, eventType, payload, now))
    ensures Appended(t, thread, turn, eventType, payload, now).events
         == t.events + [NewEvent(t, thread, turn, eventType, payload, now)]
    ensures Appended(t, thread, turn, eventType, payload, now).threads == t.threads
  {
    AppendedIs(t, thread, turn, eventType, payload, now);
    GrownKeepsInv(t, NewEvent(t, thread, turn, eventType, payload, now));
  }

  lemma {:induction false} AppendedIs(t: Tables, thread: nat, turn: Option<nat>, eventType: EventType, payload: Record,
                                      now: int)
    requires thread in t.threads
    ensures var e := NewEvent(t, thread, turn, eventType, payload, now);
            Appended(t, thread, turn, eventType, payload, now) == Project(Grown(t, e), e)
  {
  }

  lemma {:induction false} AppendPreserves(t: Tables, thread: nat, turn: Option<nat>, eventType: EventType,
                                           payload: Record, now: int)
    ensures Inv(t) ==> Inv(Appended(t, thread, turn, eventType, payload, now))
  {
    if Inv(t) && thread in t.threads {
      AppendKeepsInv(t, thread, turn, eventType, payload, now);
    }
  }

  // ----- rebuilding the index

  lemma {:induction false} ReprojectConcat(t: Tables, left: seq<Event>, right: seq<Event>)
    ensures Reprojected(t, left + right) == Reprojected(Reprojected(t, left), right)
    decreases |left|
  {
    if left == [] {
      assert left + right == right;
    } else {
      assert (left + right)[1..] == left[1..] + right;
      ReprojectConcat(Project(t, left[0]), left[1..], right);
    }
  }

  /** What projecting a thread's events again from the i-th on must lead to. */
  ghost predicate Completes(t: Tables, covered: map<nat, nat>, thread: nat, i: nat)
    requires i <= |EventsOf(t.events, thread)|
  {
    var t' := Reprojected(t, EventsOf(t.events, thread)[i..]);
    && JournalOk(t') && t'.events == t.events
    && IndexCovers(t', covered[thread := |EventsOf(t.events, thread)|])
    && (Covered(t, covered, thread) == |EventsOf(t.events, thread)| ==> t' == t)
  }

  lemma {:induction false} CompletesIndexed(t: Tables, covered: map<nat, nat>, thread: nat, i: nat)
    requires IndexCovers(t, covered) && i < Covered(t, covered, thread) <= |EventsOf(t.events, thread)|
    requires Completes(t, covered, thread, i + 1)
    ensures Completes(t, covered, thread, i)
  {
    ReprojectedStep(t, EventsOf(t.events, thread), i);
    ProjectAgain(t, covered, thread, i);
  }

  lemma {:induction false} CompletesNext(t: Tables, t1: Tables, covered: map<nat, nat>, thread: nat)
    requires var n, events := Covered(t, covered, thread), EventsOf(t.events, thread);
             && n < |events| && t1 == Project(t, events[n]) && t1.events == t.events
             && Completes(t1, covered[thread := n + 1], thread, n + 1)
    ensures Completes(t, covered, thread, Covered(t, covered, thread))
  {
    var n, events := Covered(t, covered, thread), EventsOf(t.events, thread);
    ReprojectedStep(t, events, n);
    assert covered[thread := n + 1][thread := |events|] == covered[thread := |events|];
  }

  /** Projecting a thread's events again, from the i-th on, completes its index. */
  lemma {:induction false} ReprojectThread(t: Tables, covered: map<nat, nat>, thread: nat, i: nat)
    requires JournalOk(t) && IndexCovers(t, covered)
    requires i <= Covered(t, covered, thread)
    ensures i <= |EventsOf(t.events, thread)| && Completes(t, covered, thread, i)
    decreases |EventsOf(t.events, thread)| - i
  {
    var events := EventsOf(t.events, thread);
    var n := Covered(t, covered, thread);
    assert Covers(t, thread, n);
    if i == |events| {
      assert events[i..] == [];
      CoveredTheSame(t, covered, covered[thread := |events|]);
    } else if i < n {
      ReprojectThread(t, covered, thread, i + 1);
      CompletesIndexed(t, covered, thread, i);
    } else {
      ProjectKeepsJournal(t, events[i]);
      ProjectNext(t, covered, thread);
      ReprojectThread(Project(t, events[i]), covered[thread := n + 1], thread, i + 1);
      CompletesNext(t, Project(t, events[i]), covered, thread);
    }
  }

  lemma {:induction false} ReprojectedStep(t: Tables, events: seq<Event>, i: nat)
    requires i < |events|
    ensures Reprojected(t, events[i..]) == Reprojected(Project(t, events[i]), events[i + 1..])
  {
    assert events[i..][0] == events[i] && events[i..][1..] == events[i + 1..];
  }

  lemma {:induction false} CoveredTheSame(t: Tables, covered: map<nat, nat>, covered': map<nat, nat>)
    requires IndexCovers(t, covered)
    requires forall thread :: Covered(t, covered', thread) == Covered(t, covered, thread)
    ensures IndexCovers(t, covered')
  {
    forall thread
      ensures Covers(t, thread, Covered(t, covered', thread))
    {
      assert Covers(t, thread, Covered(t, covered, thread));
    }
  }

  lemma {:induction false} BackfillCompletes(t: Tables, covered: map<nat, nat>, order: seq<nat>)
    requires JournalOk(t) && IndexCovers(t, covered)
    ensures var t' := Backfilled(t, order);
            && JournalOk(t') && t'.events == t.events
            && ((forall thread | thread in covered :: thread in order) ==> IndexCovers(t', map[]))
            && ((forall thread | thread in order :: Covered(t, covered, thread) == |EventsOf(t.events, thread)|)
                ==> t' == t)
    decreases |order|
  {
    if order == [] {
      assert (forall thread | thread in covered :: thread in order) ==> covered == map[];
    } else {
      var thread := order[0];
      var events := EventsOf(t.events, thread);
      assert Covers(t, thread, Covered(t, covered, thread));
      ReprojectThread(t, covered, thread, 0);
      assert events[0..] == events;
      var t1 := Reprojected(t, events);
      ReprojectConcat(t, events, Ordered(t.events, order[1..]));
      var rest := covered - {thread};
      CoveredTheSame(t1, covered[thread := |events|], rest);
      BackfillCompletes(t1, rest, order[1..]);
    }
  }

  /** Reopening the database: projecting every event again, thread by thread, gives the complete
      index from any index that covers a prefix of each thread, an empty one included. */
  lemma {:induction false} BackfillRebuilds(t: Tables, covered: map<nat, nat>, order: seq<nat>)
    requires JournalOk(t) && IndexCovers(t, covered)
    requires forall thread | thread in covered :: thread in order
    ensures Inv(Backfilled(t, order)) && Backfilled(t, order).events == t.events
  {
    BackfillCompletes(t, covered, order);
  }

  /** On a complete index it changes nothing at all. */
  lemma {:induction false} BackfillIdempotent(t: Tables, order: seq<nat>)
    requires Inv(t)
    ensures Backfilled(t, order) == t
  {
    BackfillCompletes(t, map[], order);
  }

  lemma {:induction false} EmptyReplay(t: Tables, threads: seq<nat>)
    requires JournalOk(t) && t.entries == [] && t.checkpoints == []
    requires forall e | e in t.events :: e.thread in threads
    ensures IndexCovers(t, map thread | thread in threads :: 0)
  {
    var covered := map thread | thread in threads :: 0;
    forall thread
      ensures Covers(t, thread, Covered(t, covered, thread))
    {
      if thread !in threads && EventsOf(t.events, thread) != [] {
        EventsOfAt(t.events, thread, 0);
      }
      assert EventsOf(t.events, thread)[..0] == [];
    }
  }

  // ----- forks

  datatype ForkResult = Forked(tables: Tables, thread: nat) | NoCheckpoint | IntegrityFailed | InvalidEntry

  function FindCheckpoint(checkpoints: seq<Checkpoint>, id: nat): Option<CheckpointBody> {
    if checkpoints == [] then None
    else if checkpoints[0].id == id then Some(checkpoints[0].body)
    else FindCheckpoint(checkpoints[1..], id)
  }

  /** The entries with an ordinal up to the given one, in order. */
  function UpTo(bodies: seq<EntryBody>, ordinal: nat): seq<EntryBody> {
    if bodies == [] then []
    else
      var last := bodies[|bodies| - 1];
      UpTo(bodies[..|bodies| - 1], ordinal) + if last.ordinal <= ordinal then [last] else []
  }

  function Shape(body: EntryBody): SessionProjection.Projected {
    SessionProjection.Projected(body.kind, body.payload)
  }

  function Shapes(bodies: seq<EntryBody>): seq<SessionProjection.Projected> {
    seq(|bodies|, k requires 0 <= k < |bodies| => Shape(bodies[k]))
  }

  /** `appendEntry`: one event more, or nothing when the entry cannot be copied. */
  function CopiedOne(t: Tables, thread: nat, shape: SessionProjection.Projected, now: int): Option<Tables> {
    var copy := CopyEvent(shape);
    if copy.None? then None
    else Some(Appended(t, thread, None, copy.value.eventType, copy.value.payload, now))
  }

  function Copied(t: Tables, thread: nat, shapes: seq<SessionProjection.Projected>, now: int): Option<Tables>
    decreases |shapes|
  {
    if shapes == [] then Some(t)
    else
      var one := CopiedOne(t, thread, shapes[0], now);
      if one.None? then None else Copied(one.value, thread, shapes[1..], now)
  }

  const FORK_NOTE: EventType := OtherEvent("diagnostic")

  function WithThread(t: Tables): Tables {
    t.(threads := t.threads + {t.nextId}, nextId := t.nextId + 1)
  }

  function ForkOf(t: Tables, checkpointId: nat, note: Record, now: int): ForkResult {
    var found := FindCheckpoint(t.checkpoints, checkpointId);
    if found.None? then NoCheckpoint
    else
      var checkpoint := found.value;
      var entries := UpTo(BodiesOf(t.entries, checkpoint.thread), checkpoint.entryOrdinal);
      if ContextDigest(Digests(entries)) != checkpoint.contextDigest then IntegrityFailed
      else
        var copied := Copied(WithThread(t), t.nextId, Shapes(entries), now);
        if copied.None? then InvalidEntry
        else Forked(Appended(copied.value, t.nextId, None, FORK_NOTE, note, now), t.nextId)
  }

  lemma {:induction false} FindCheckpointFrom(checkpoints: seq<Checkpoint>, id: nat)
    requires FindCheckpoint(checkpoints, id).Some?
    ensures exists k | 0 <= k < |checkpoints| :: checkpoints[k].body == FindCheckpoint(checkpoints, id).value
  {
    if checkpoints[0].id != id {
      FindCheckpointFrom(checkpoints[1..], id);
      var k :| 0 <= k < |checkpoints[1..]| && checkpoints[1..][k].body == FindCheckpoint(checkpoints, id).value;
      assert checkpoints[k + 1].body == FindCheckpoint(checkpoints, id).value;
    }
  }

  lemma {:induction false} UpToIsPrefix(bodies: seq<EntryBody>, ordinal: nat)
    requires forall k | 0 <= k < |bodies| :: bodies[k].ordinal == k + 1
    ensures UpTo(bodies, ordinal) == if ordinal <= |bodies| then bodies[..ordinal] else bodies
  {
    if bodies != [] {
      UpToIsPrefix(bodies[..|bodies| - 1], ordinal);
      assert bodies[..|bodies| - 1] + [bodies[|bodies| - 1]] == bodies;
      if ordinal < |bodies| {
        assert bodies[..|bodies| - 1][..ordinal] == bodies[..ordinal];
      }
    }
  }

  /** Every checkpoint's digest covers exactly the entries up to its ordinal, so the integrity
      check of a fork passes, however many entries have come since. */
  lemma {:induction false} CheckpointIntact(t: Tables, k: nat)
    requires Inv(t) && k < |t.checkpoints|
    ensures var c := t.checkpoints[k].body; var bodies := BodiesOf(t.entries, c.thread);
            && c.entryOrdinal <= |bodies|
            && UpTo(bodies, c.entryOrdinal) == bodies[..c.entryOrdinal]
            && ContextDigest(Digests(UpTo(bodies, c.entryOrdinal))) == c.contextDigest
  {
    var c := t.checkpoints[k].body;
    CheckpointsHold(t.checkpoints, k);
    assert Covers(t, c.thread, Covered(t, map[], c.thread));
    var events := EventsOf(t.events, c.thread);
    assert events[..|events|] == events;
    ReplayCheckpointFrom(events, c);
    forall j | 0 <= j < |Replay(events)|
      ensures Replay(events)[j].ordinal == j + 1
    {
      ReplayAt(events, j);
    }
    UpToIsPrefix(Replay(events), c.entryOrdinal);
  }

  /** An entry of an index in order can be copied, and its copy makes the same entry again. */
  lemma {:induction false} EntryCopies(t: Tables, thread: nat, k: nat)
    requires Inv(t) && k < |BodiesOf(t.entries, thread)|
    ensures Copyable(Shape(BodiesOf(t.entries, thread)[k]))
  {
    assert Covers(t, thread, Covered(t, map[], thread));
    var events := EventsOf(t.events, thread);
    assert events[..|events|] == events;
    ReplayAt(events, k);
    var i :| 0 <= i < |events| && MakesEntry(events[i]) && Replay(events)[k] == EntryFor(events[i], k + 1);
    CopyIsFaithful(events[i].eventType, events[i].payload);
  }

  predicate Copyable(shape: SessionProjection.Projected) {
    var copy := CopyEvent(shape);
    && copy.Some?
    && copy.value.eventType != SessionCheckpoint
    && Projection(copy.value.eventType, copy.value.payload) == Some(shape)
  }

  lemma {:induction false} ReplayShapes(events: seq<Event>, e: Event)
    requires e.eventType != SessionCheckpoint
    ensures var shape := Projection(e.eventType, e.payload);
            Shapes(Replay(events + [e])) == Shapes(Replay(events)) + if shape.Some? then [shape.value] else []
  {
    assert (events + [e])[..|events|] == events;
  }

  lemma {:induction false} InvReplay(t: Tables, thread: nat)
    requires Inv(t)
    ensures BodiesOf(t.entries, thread) == Replay(EventsOf(t.events, thread))
  {
    assert Covers(t, thread, Covered(t, map[], thread));
    var events := EventsOf(t.events, thread);
    assert events[..|events|] == events;
  }

  /** The entries of every thread after one append. */
  lemma {:induction false} AppendedBodies(t: Tables, thread: nat, turn: Option<nat>, eventType: EventType,
                                          payload: Record, now: int, other: nat)
    requires Inv(t) && thread in t.threads && eventType != SessionCheckpoint
    ensures var t' := Appended(t, thread, turn, eventType, payload, now);
            var shape := Projection(eventType, payload);
            Shapes(BodiesOf(t'.entries, other))
            == Shapes(BodiesOf(t.entries, other)) + if other == thread && shape.Some? then [shape.value] else []
  {
    var e := NewEvent(t, thread, turn, eventType, payload, now);
    var t' := Appended(t, thread, turn, eventType, payload, now);
    assert BodiesOf(t'.entries, other) == Replay(EventsOf(t.events + [e], other)) by {
      AppendKeepsInv(t, thread, turn, eventType, payload, now);
      InvReplay(t', other);
    }
    InvReplay(t, other);
    EventsSnoc(t.events, e, other);
    if other == thread {
      ReplayShapes(EventsOf(t.events, other), e);
    }
  }

  ghost predicate SameElsewhere(t: Tables, t': Tables, thread: nat) {
    forall other | other != thread ::
      EventsOf(t'.events, other) == EventsOf(t.events, other)
      && Shapes(BodiesOf(t'.entries, other)) == Shapes(BodiesOf(t.entries, other))
  }

  lemma {:induction false} AppendElsewhere(t: Tables, thread: nat, turn: Option<nat>, eventType: EventType,
                                           payload: Record, now: int)
    requires Inv(t) && thread in t.threads && eventType != SessionCheckpoint
    ensures SameElsewhere(t, Appended(t, thread, turn, eventType, payload, now), thread)
  {
    var e := NewEvent(t, thread, turn, eventType, payload, now);
    var t' := Appended(t, thread, turn, eventType, payload, now);
    AppendKeepsInv(t, thread, turn, eventType, payload, now);
    forall other | other != thread
      ensures EventsOf(t'.events, other) == EventsOf(t.events, other)
      ensures Shapes(BodiesOf(t'.entries, other)) == Shapes(BodiesOf(t.entries, other))
    {
      EventsSnoc(t.events, e, other);
      AppendedBodies(t, thread, turn, eventType, payload, now, other);
    }
  }

  /** What copying `shapes` into `thread` must lead to. */
  ghost predicate CopiedInto(t: Tables, t': Tables, thread: nat, shapes: seq<SessionProjection.Projected>) {
    && Inv(t') && thread in t'.threads
    && Shapes(BodiesOf(t'.entries, thread)) == Shapes(BodiesOf(t.entries, thread)) + shapes
    && SameElsewhere(t, t', thread)
  }

  lemma {:induction false} OneCopied(t: Tables, thread: nat, shape: SessionProjection.Projected, now: int)
    requires Inv(t) && thread in t.threads && Copyable(shape)
    ensures CopiedOne(t, thread, shape, now).Some?
    ensures CopiedInto(t, CopiedOne(t, thread, shape, now).value, thread, [shape])
  {
    var draft := CopyEvent(shape).value;
    AppendKeepsInv(t, thread, None, draft.eventType, draft.payload, now);
    AppendedBodies(t, thread, None, draft.eventType, draft.payload, now, thread);
    AppendElsewhere(t, thread, None, draft.eventType, draft.payload, now);
  }

  lemma {:induction false} CopiedTwice(t: Tables, t1: Tables, t2: Tables, thread: nat,
                                       left: seq<SessionProjection.Projected>,
                                       right: seq<SessionProjection.Projected>)
    requires CopiedInto(t, t1, thread, left) && CopiedInto(t1, t2, thread, right)
    ensures CopiedInto(t, t2, thread, left + right)
  {
    assert Shapes(BodiesOf(t.entries, thread)) + left + right == Shapes(BodiesOf(t.entries, thread)) + (left + right);
  }

  lemma {:induction false} NoneCopied(t: Tables, thread: nat)
    requires Inv(t) && thread in t.threads
    ensures CopiedInto(t, t, thread, [])
  {
    assert Shapes(BodiesOf(t.entries, thread)) + [] == Shapes(BodiesOf(t.entries, thread));
  }

  lemma {:induction false} CopiesAll(t: Tables, thread: nat, shapes: seq<SessionProjection.Projected>, now: int)
    requires Inv(t) && thread in t.threads
    requires forall shape | shape in shapes :: Copyable(shape)
    ensures Copied(t, thread, shapes, now).Some?
    ensures CopiedInto(t, Copied(t, thread, shapes, now).value, thread, shapes)
    decreases |shapes|
  {
    if shapes == [] {
      NoneCopied(t, thread);
    } else {
      var first, rest := shapes[0], shapes[1..];
      OneCopied(t, thread, first, now);
      var t1 := CopiedOne(t, thread, first, now).value;
      assert forall shape | shape in rest :: shape in shapes;
      CopiesAll(t1, thread, rest, now);
      CopiedTwice(t, t1, Copied(t1, thread, rest, now).value, thread, [first], rest);
      assert [first] + rest == shapes;
    }
  }

  lemma {:induction false} NewThread(t: Tables)
    requires Inv(t)
    ensures var t1 := WithThread(t);
            Inv(t1) && t.nextId !in t.threads && BodiesOf(t1.entries, t.nextId) == []
  {
    var t1 := WithThread(t);
    forall thread
      ensures Covers(t1, thread, Covered(t1, map[], thread))
    {
      assert Covers(t, thread, Covered(t, map[], thread));
    }
    if EventsOf(t.events, t.nextId) != [] {
      EventsOfAt(t.events, t.nextId, 0);
    }
    assert Covers(t, t.nextId, Covered(t, map[], t.nextId));
  }

  lemma {:induction false} FoundIntact(t: Tables, checkpointId: nat)
    requires Inv(t) && FindCheckpoint(t.checkpoints, checkpointId).Some?
    ensures var c := FindCheckpoint(t.checkpoints, checkpointId).value; var bodies := BodiesOf(t.entries, c.thread);
            && c.entryOrdinal <= |bodies|
            && UpTo(bodies, c.entryOrdinal) == bodies[..c.entryOrdinal]
            && ContextDigest(Digests(UpTo(bodies, c.entryOrdinal))) == c.contextDigest
  {
    FindCheckpointFrom(t.checkpoints, checkpointId);
    var k :| 0 <= k < |t.checkpoints| && t.checkpoints[k].body == FindCheckpoint(t.checkpoints, checkpointId).value;
    CheckpointIntact(t, k);
  }

  lemma {:induction false} NoteAppended(t: Tables, t1: Tables, thread: nat, shapes: seq<SessionProjection.Projected>,
                                        note: Record, now: int)
    requires CopiedInto(t, t1, thread, shapes)
    ensures CopiedInto(t, Appended(t1, thread, None, FORK_NOTE, note, now), thread, shapes)
  {
    var t2 := Appended(t1, thread, None, FORK_NOTE, note, now);
    assert Projection(FORK_NOTE, note) == None;
    AppendKeepsInv(t1, thread, None, FORK_NOTE, note, now);
    AppendedBodies(t1, thread, None, FORK_NOTE, note, now, thread);
    AppendElsewhere(t1, thread, None, FORK_NOTE, note, now);
    assert CopiedInto(t1, t2, thread, []);
    CopiedTwice(t, t1, t2, thread, shapes, []);
    assert shapes + [] == shapes;
  }

  lemma {:induction false} PrefixCopyable(t: Tables, source: nat, n: nat)
    requires Inv(t) && n <= |BodiesOf(t.entries, source)|
    ensures forall shape | shape in Shapes(BodiesOf(t.entries, source)[..n]) :: Copyable(shape)
  {
    var entries := BodiesOf(t.entries, source)[..n];
    forall shape | shape in Shapes(entries)
      ensures Copyable(shape)
    {
      var j :| 0 <= j < |entries| && Shape(entries[j]) == shape;
      EntryCopies(t, source, j);
    }
  }

  lemma {:induction false} ForkedTables(t: Tables, shapes: seq<SessionProjection.Projected>, note: Record, now: int)
    requires Inv(t) && forall shape | shape in shapes :: Copyable(shape)
    ensures var copied := Copied(WithThread(t), t.nextId, shapes, now);
            && copied.Some?
            && CopiedInto(WithThread(t), Appended(copied.value, t.nextId, None, FORK_NOTE, note, now), t.nextId, shapes)
  {
    NewThread(t);
    CopiesAll(WithThread(t), t.nextId, shapes, now);
    NoteAppended(WithThread(t), Copied(WithThread(t), t.nextId, shapes, now).value, t.nextId, shapes, note, now);
  }

  lemma {:induction false} CopiedIntoNew(t: Tables, t': Tables, shapes: seq<SessionProjection.Projected>)
    requires Inv(t) && CopiedInto(WithThread(t), t', t.nextId, shapes)
    ensures Inv(t') && t.nextId !in t.threads
    ensures Shapes(BodiesOf(t'.entries, t.nextId)) == shapes
    ensures SameElsewhere(t, t', t.nextId)
  {
    NewThread(t);
    assert [] + shapes == shapes;
  }

  /** Forking at any checkpoint succeeds and gives a new thread whose entries equal, in kind and
      payload, the source's entries up to the checkpoint; every other thread keeps its own. The
      result is in order again, so the same holds of forks of forks. */
  lemma {:induction false} ForkIsFaithful(t: Tables, checkpointId: nat, note: Record, now: int)
    requires Inv(t) && FindCheckpoint(t.checkpoints, checkpointId).Some?
    ensures var c := FindCheckpoint(t.checkpoints, checkpointId).value;
            var result := ForkOf(t, checkpointId, note, now);
            && result.Forked? && Inv(result.tables) && result.thread !in t.threads
            && c.entryOrdinal <= |BodiesOf(t.entries, c.thread)|
            && Shapes(BodiesOf(result.tables.entries, result.thread))
                == Shapes(BodiesOf(t.entries, c.thread))[..c.entryOrdinal]
            && SameElsewhere(t, result.tables, result.thread)
  {
    var c := FindCheckpoint(t.checkpoints, checkpointId).value;
    var bodies := BodiesOf(t.entries, c.thread);
    FoundIntact(t, checkpointId);
    var shapes := Shapes(bodies[..c.entryOrdinal]);
    PrefixCopyable(t, c.thread, c.entryOrdinal);
    ForkedTables(t, shapes, note, now);
    CopiedIntoNew(t, ForkOf(t, checkpointId, note, now).tables, shapes);
    assert shapes == Shapes(bodies)[..c.entryOrdinal];
  }

  /** The ordinals of a thread's entries are 1 to k. */
  lemma {:induction false} OrdinalsNumbered(t: Tables, thread: nat, k: nat)
    requires Inv(t) && k < |BodiesOf(t.entries, thread)|
    ensures BodiesOf(t.entries, thread)[k].ordinal == k + 1
  {
    InvReplay(t, thread);
    ReplayAt(EventsOf(t.events, thread), k);
  }

  // ----- runs

  datatype Op =
    | CreateThread
    | Append(thread: nat, turn: Option<nat>, eventType: EventType, payload: Record, now: int)
    | Reopen(order: seq<nat>)
    | ForkAt(checkpointId: nat, note: Record, now: int)

  function Apply(t: Tables, op: Op): Tables {
    match op
    case CreateThread => WithThread(t)
    case Append(thread, turn, eventType, payload, now) => Appended(t, thread, turn, eventType, payload, now)
    case Reopen(order) => Backfilled(t, order)
    case ForkAt(checkpointId, note, now) =>
      var result := ForkOf(t, checkpointId, note, now);
      if result.Forked? then result.tables else t
  }

  function Run(t: Tables, ops: seq<Op>): Tables
    decreases |ops|
  {
    if ops == [] then t else Run(Apply(t, ops[0]), ops[1..])
  }

  const EMPTY: Tables := Tables({}, [], [], [], 0)

  lemma {:induction false} ApplyKeepsInv(t: Tables, op: Op)
    requires Inv(t)
    ensures Inv(Apply(t, op))
  {
    match op
    case CreateThread => NewThread(t);
    case Append(thread, turn, eventType, payload, now) =>
      if thread in t.threads { AppendKeepsInv(t, thread, turn, eventType, payload, now); }
    case Reopen(order) => BackfillIdempotent(t, order);
    case ForkAt(checkpointId, note, now) =>
      if FindCheckpoint(t.checkpoints, checkpointId).Some? { ForkIsFaithful(t, checkpointId, note, now); }
  }

  lemma {:induction false} RunFrom(t: Tables, ops: seq<Op>)
    requires Inv(t)
    ensures Inv(Run(t, ops))
    decreases |ops|
  {
    if ops != [] {
      ApplyKeepsInv(t, ops[0]);
      RunFrom(Apply(t, ops[0]), ops[1..]);
    }
  }

  /** After every run of thread creations, appends, reopenings and forks: sequences and ordinals
      count from 1, and each thread's entries and checkpoints are the replay of its events. */
  lemma {:induction false} EveryRunInOrder(ops: seq<Op>, thread: nat)
    ensures var t := Run(EMPTY, ops); var events := EventsOf(t.events, thread);
        var bodies := BodiesOf(t.entries, thread);
            && Inv(t)
            && Numbered(events)
            && bodies == Replay(events) && CheckpointsOf(t.checkpoints, thread) == ReplayCheckpoints(events)
            && forall k | 0 <= k < |bodies| :: bodies[k].ordinal == k + 1
  {
    var t := Run(EMPTY, ops);
    assert Inv(EMPTY);
    RunFrom(EMPTY, ops);
    assert Covers(t, thread, Covered(t, map[], thread));
    var events := EventsOf(t.events, thread);
    assert events[..|events|] == events;
    forall k | 0 <= k < |BodiesOf(t.entries, thread)|
      ensures BodiesOf(t.entries, thread)[k].ordinal == k + 1
    {
      OrdinalsNumbered(t, thread, k);
    }
  }

  // ----- the classes

  class AppDatabase {
    var threads: set<nat>
    var events: seq<Event>
    var entries: seq<Entry>
    var checkpoints: seq<Checkpoint>
    var nextId: nat

    ghost function View(): Tables
      reads this
    {
      Tables(threads, events, entries, checkpoints, nextId)
    }

    constructor ()
      ensures View() == EMPTY && Inv(View())
    {
      threads, events, entries, checkpoints, nextId := {}, [], [], [], 0;
    }

    method CreateId() returns (id: nat)
      modifies this`nextId
      ensures id == old(nextId) && nextId == id + 1
    {
      id := nextId;
      nextId := nextId + 1;
    }

    method CreateThread() returns (thread: nat)
      modifies this
      ensures View() == WithThread(old(View())) && thread == old(nextId)
    {
      thread := CreateId();
      threads := threads + {thread};
    }

    /** Throws when the thread is unknown; the transaction then leaves no trace. */
    method AppendEvent(thread: nat, turn: Option<nat>, eventType: EventType, payload: Record, now: int)
        returns (ok: bool)
      modifies this
      ensures ok == (thread in old(threads))
      ensures View() == Appended(old(View()), thread, turn, eventType, payload, now)
      ensures old(Inv(View())) ==> Inv(View())
    {
      AppendPreserves(View(), thread, turn, eventType, payload, now);
      if thread !in threads {
        return false;
      }
      var sequence := MaxSequence(EventsOf(events, thread)) + 1;
      var id := CreateId();
      var event := Event(id, thread, turn, sequence, eventType, now, payload);
      events := events + [event];
      ProjectSessionEvent(event);
      ok := true;
    }

    method ProjectSessionEvent(event: Event)
      modifies this`entries, this`checkpoints, this`nextId
      ensures View() == Project(old(View()), event)
    {
      if event.eventType == SessionCheckpoint {
        if event.turn.None? || Get(event.payload, "safe") != Some(Bool(true)) {
          return;
        }
        if exists k | 0 <= k < |checkpoints| :: checkpoints[k].body.source == event.id {
          return;
        }
        var rows := BodiesOf(entries, event.thread);
        var entryOrdinal := if rows == [] then 0 else rows[|rows| - 1].ordinal;
        var id := CreateId();
        checkpoints := checkpoints + [Checkpoint(id, CheckpointBody(
          event.thread, event.turn.value, event.id, entryOrdinal, ContextDigest(Digests(rows)), event.timestamp))];
        return;
      }
      var projection := Projection(event.eventType, event.payload);
      if projection.None? {
        return;
      }
      if exists k | 0 <= k < |entries| :: entries[k].body.source == event.id {
        return;
      }
      var ordinal := MaxOrdinal(BodiesOf(entries, event.thread)) + 1;
      var kind, payload := projection.value.kind, projection.value.payload;
      var digest := EntryDigest(event.thread, event.turn, ordinal, kind, event.timestamp, payload);
      var id := CreateId();
      entries := entries + [Entry(id, EntryBody(
        event.thread, event.turn, event.id, ordinal, kind, event.timestamp, payload, digest))];
    }

    method BackfillSessionProjection(order: seq<nat>)
      modifies this`entries, this`checkpoints, this`nextId
      ensures View() == Backfilled(old(View()), order)
      ensures old(Inv(View())) ==> View() == old(View())
    {
      ghost var before := View();
      if Inv(before) {
        BackfillIdempotent(before, order);
      }
      var all := Ordered(events, order);
      for k := 0 to |all|
        invariant Reprojected(View(), all[k..]) == Reprojected(before, all)
      {
        assert all[k..][0] == all[k] && all[k..][1..] == all[k + 1..];
        ProjectSessionEvent(all[k]);
      }
    }
  }

  class SessionService {
    const database: AppDatabase

    constructor (database: AppDatabase)
      ensures this.database == database
    {
      this.database := database;
    }

    method Fork(checkpointId: nat, note: Record, now: int) returns (fork: Option<nat>)
      requires Inv(database.View())
      modifies database
      ensures fork.Some? <==> FindCheckpoint(old(database.checkpoints), checkpointId).Some?
      ensures fork.Some? ==>
                ForkOf(old(database.View()), checkpointId, note, now) == Forked(database.View(), fork.value)
      ensures fork.None? ==> database.View() == old(database.View())
      ensures Inv(database.View())
    {
      ghost var before := database.View();
      var found := FindCheckpoint(database.checkpoints, checkpointId);
      if found.None? {
        return None;
      }
      ForkIsFaithful(before, checkpointId, note, now);
      var checkpoint := found.value;
      var entries := UpTo(BodiesOf(database.entries, checkpoint.thread), checkpoint.entryOrdinal);
      if ContextDigest(Digests(entries)) != checkpoint.contextDigest {
        assert false;
      }
      var thread := database.CreateThread();
      ghost var shapes := Shapes(entries);
      ghost var whole := Copied(WithThread(before), thread, shapes, now);
      for k := 0 to |entries|
        invariant Copied(database.View(), thread, shapes[k..], now) == whole
      {
        assert shapes[k..][0] == Shape(entries[k]) && shapes[k..][1..] == shapes[k + 1..];
        var copy := CopyEvent(Shape(entries[k]));
        var _ := database.AppendEvent(thread, None, copy.value.eventType, copy.value.payload, now);
      }
      assert shapes[|entries|..] == [];
      var _ := database.AppendEvent(thread, None, FORK_NOTE, note, now);
      fork := Some(thread);
    }
  }
}

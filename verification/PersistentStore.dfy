/** src/persistent_event_store.cpp: the event store behind two files, one JSON object per
    event and one metadata object, at record level. Loading recovers from a crash: an
    event caught in DISPATCHING goes back to PENDING. The two files are written one after
    the other, so a restart may see them from different states. */
module PersistentStores {
  import opened Wrappers
  import opened Sorting
  import opened EventStores

  /** A member of a JSON object: missing, of a type that cannot be read, or read. */
  datatype Field<+T> = Absent | Mistyped | Present(value: T)

  function OrElse<T>(f: Field<T>, default: T): T {
    if f.Present? then f.value else default
  }

  datatype Record = Record(
    id: Field<EventId>, topic: Field<string>, status: Field<string>,
    key: Field<string>, payload: Field<string>, attempts: Field<nat>,
    createdAt: Field<nat>, updatedAt: Field<nat>, error: Field<string>)

  datatype Line = Blank | Corrupt | Json(record: Record)

  /** The metadata members that loading reads. */
  datatype Meta =
    | NoMeta
    | BadMeta                       // empty file or not JSON
    | Meta(next: Field<EventId>, total: Field<nat>, published: Field<nat>, failed: Field<nat>, retried: Field<nat>)

  datatype Disk = Disk(meta: Meta, events: Option<seq<Line>>)

  datatype LoadResult = Threw | Loaded(store: Store, any: bool)

  // ---------------------------------------------------------------------------
  // One record
  // ---------------------------------------------------------------------------

  function StatusName(st: Status): string {
    match st
    case Pending => "PENDING"
    case Dispatching => "DISPATCHING"
    case Published => "PUBLISHED"
    case Failed => "FAILED"
  }

  /** Anything unknown is taken for PENDING. */
  function StatusFrom(name: string): Status {
    if name == "DISPATCHING" then Dispatching
    else if name == "PUBLISHED" then Published
    else if name == "FAILED" then Failed
    else Pending
  }

  lemma StatusRoundTrip(st: Status)
    ensures StatusFrom(StatusName(st)) == st
    ensures StatusName(Pending) == "PENDING" && StatusName(Dispatching) == "DISPATCHING"
    ensures StatusName(Published) == "PUBLISHED" && StatusName(Failed) == "FAILED"
    ensures forall name :: (forall known: Status :: StatusName(known) != name) ==> StatusFrom(name) == Pending
  {
    assert |StatusName(Pending)| == 7 && |StatusName(Dispatching)| == 11;
    assert |StatusName(Published)| == 9 && |StatusName(Failed)| == 6;
  }

  predicate Usable(line: Line) {
    line.Json? && line.record.id.Present? && line.record.topic.Present? && line.record.status.Present?
  }

  /** A mistyped optional member makes the conversion throw out of the load. */
  predicate Readable(r: Record) {
    && !r.key.Mistyped? && !r.payload.Mistyped? && !r.attempts.Mistyped?
    && !r.createdAt.Mistyped? && !r.updatedAt.Mistyped? && !r.error.Mistyped?
  }

  function Recover(event: StoredEvent, now: nat): StoredEvent {
    if event.status == Dispatching then event.(status := Pending, updatedAt := now) else event
  }

  function Decode(r: Record): StoredEvent
    requires Usable(Json(r))
  {
    StoredEvent(r.id.value, r.topic.value, OrElse(r.key, ""), OrElse(r.payload, ""), StatusFrom(r.status.value),
                OrElse(r.attempts, 0), OrElse(r.createdAt, 0), OrElse(r.updatedAt, 0), OrElse(r.error, ""))
  }

  function Encode(event: StoredEvent): Line {
    Json(Record(Present(event.id), Present(event.topic), Present(StatusName(event.status)),
                Present(event.key), Present(event.payload), Present(event.attempts),
                Present(event.createdAt), Present(event.updatedAt), Present(event.error)))
  }

  lemma RecordRoundTrip(event: StoredEvent)
    ensures Usable(Encode(event)) && Readable(Encode(event).record)
    ensures Decode(Encode(event).record) == event
    ensures var r := Encode(event).record;
            && r.id.value == event.id && r.topic.value == event.topic
            && r.key == Present(event.key) && r.payload == Present(event.payload)
            && r.attempts == Present(event.attempts) && r.error == Present(event.error)
            && r.createdAt == Present(event.createdAt) && r.updatedAt == Present(event.updatedAt)
  {
    StatusRoundTrip(event.status);
  }

  // ---------------------------------------------------------------------------
  // The events file
  // ---------------------------------------------------------------------------

  predicate Mentions(line: Line, id: EventId) {
    Usable(line) && line.record.id.value == id
  }

  /** The first usable line about `id`. */
  function FirstLine(lines: seq<Line>, id: EventId): (first: Option<nat>)
    ensures first.Some? ==>
              && first.value < |lines| && Mentions(lines[first.value], id)
              && forall j :: 0 <= j < first.value ==> !Mentions(lines[j], id)
    ensures first.None? ==> forall j :: 0 <= j < |lines| ==> !Mentions(lines[j], id)
  {
    if lines == [] then None
    else
      var n := |lines| - 1;
      var earlier := FirstLine(lines[..n], id);
      assert forall j :: 0 <= j < n ==> lines[..n][j] == lines[j];
      if earlier.Some? then earlier
      else if Mentions(lines[n], id) then Some(n)
      else None
  }

  /** The loaded event is the first usable line's, recovered; without one there is none. */
  ghost predicate RestoredAt(events: map<EventId, StoredEvent>, lines: seq<Line>, clock: nat -> nat, id: EventId) {
    match FirstLine(lines, id)
    case None => id !in events
    case Some(k) => id in events && events[id] == Recover(Decode(lines[k].record), clock(k))
  }

  ghost predicate Restored(events: map<EventId, StoredEvent>, lines: seq<Line>, clock: nat -> nat) {
    forall id: EventId :: RestoredAt(events, lines, clock, id)
  }

  /** Line `k` is kept and has a mistyped optional member. */
  ghost predicate Unreadable(lines: seq<Line>, k: nat) {
    && k < |lines| && Usable(lines[k]) && !Readable(lines[k].record)
    && FirstLine(lines, lines[k].record.id.value) == Some(k)
  }

  function NextAfter(lines: seq<Line>, next: EventId): EventId {
    if lines == [] then next
    else
      var n := |lines| - 1;
      var before := NextAfter(lines[..n], next);
      if Usable(lines[n]) && FirstLine(lines[..n], lines[n].record.id.value).None?
         && lines[n].record.id.value >= before
      then Succ(lines[n].record.id.value)
      else before
  }

  lemma FirstLineSnoc(lines: seq<Line>, n: nat, id: EventId)
    requires n < |lines|
    ensures FirstLine(lines[..n + 1], id)
         == if FirstLine(lines[..n], id).Some? then FirstLine(lines[..n], id)
            else if Mentions(lines[n], id) then Some(n) else None
  {
    assert lines[..n + 1][..n] == lines[..n];
  }

  lemma FirstLineStable(lines: seq<Line>, n: nat, id: EventId)
    requires n <= |lines| && FirstLine(lines[..n], id).Some?
    ensures FirstLine(lines, id) == FirstLine(lines[..n], id)
  {
    var k := FirstLine(lines[..n], id).value;
    assert forall j :: 0 <= j < n ==> lines[..n][j] == lines[j];
    assert Mentions(lines[k], id);
    assert FirstLine(lines, id).Some?;
  }

  /** The next identifier exceeds every loaded one, unless the largest 64-bit number
      was loaded: its successor wraps to 0. */
  lemma {:induction false} NextExceedsEach(lines: seq<Line>, next: EventId)
    requires FirstLine(lines, ID_LIMIT - 1).None?
    ensures next <= NextAfter(lines, next)
    ensures forall id: EventId :: FirstLine(lines, id).Some? ==> id < NextAfter(lines, next)
  {
    if lines != [] {
      var n := |lines| - 1;
      assert lines[..n + 1] == lines;
      FirstLineSnoc(lines, n, ID_LIMIT - 1);
      NextExceedsEach(lines[..n], next);
      if Usable(lines[n]) {
        SuccIsNext(lines[n].record.id.value);
      }
      forall id: EventId | FirstLine(lines, id).Some? ensures id < NextAfter(lines, next) {
        FirstLineSnoc(lines, n, id);
      }
    }
  }

  /** And it is no higher than it must be. */
  lemma {:induction false} NextIsLeast(lines: seq<Line>, next: EventId)
    requires FirstLine(lines, ID_LIMIT - 1).None?
    ensures NextAfter(lines, next) == next ||
            exists id: EventId :: FirstLine(lines, id).Some? && NextAfter(lines, next) == id + 1
  {
    if lines != [] {
      var n := |lines| - 1;
      assert lines[..n + 1] == lines;
      FirstLineSnoc(lines, n, ID_LIMIT - 1);
      NextIsLeast(lines[..n], next);
      if Usable(lines[n]) {
        var last := lines[n].record.id.value;
        FirstLineSnoc(lines, n, last);
        SuccIsNext(last);
        assert FirstLine(lines, last).Some?;
      }
      if NextAfter(lines, next) == NextAfter(lines[..n], next) != next {
        var id: EventId :| FirstLine(lines[..n], id).Some? && NextAfter(lines[..n], next) == id + 1;
        FirstLineSnoc(lines, n, id);
        assert FirstLine(lines, id).Some?;
      }
    }
  }

  lemma RestoredSnoc(events: map<EventId, StoredEvent>, lines: seq<Line>, n: nat, clock: nat -> nat)
    requires n < |lines| && Restored(events, lines[..n], clock)
    ensures (!Usable(lines[n]) || lines[n].record.id.value in events) ==> Restored(events, lines[..n + 1], clock)
    ensures Usable(lines[n]) && lines[n].record.id.value !in events ==>
              Restored(events[lines[n].record.id.value := Recover(Decode(lines[n].record), clock(n))],
                       lines[..n + 1], clock)
  {
    var kept := events;
    if Usable(lines[n]) && lines[n].record.id.value !in events {
      kept := events[lines[n].record.id.value := Recover(Decode(lines[n].record), clock(n))];
    }
    var longer := lines[..n + 1];
    forall id: EventId ensures RestoredAt(kept, longer, clock, id) {
      assert RestoredAt(events, lines[..n], clock, id);
      FirstLineSnoc(lines, n, id);
    }
  }

  lemma NextSnoc(lines: seq<Line>, n: nat, next: EventId)
    requires n < |lines|
    ensures NextAfter(lines[..n + 1], next)
         == if Usable(lines[n]) && FirstLine(lines[..n], lines[n].record.id.value).None?
               && lines[n].record.id.value >= NextAfter(lines[..n], next)
            then Succ(lines[n].record.id.value)
            else NextAfter(lines[..n], next)
  {
    assert lines[..n + 1][..n] == lines[..n];
  }

  // ---------------------------------------------------------------------------
  // Loading
  // ---------------------------------------------------------------------------

  /** Metadata members are read in order; the first mistyped one ends the reading. */
  function ReadMeta(meta: Meta): Store {
    if !meta.Meta? || meta.next.Mistyped? then EMPTY
    else
      var s1 := EMPTY.(nextId := OrElse(meta.next, EMPTY.nextId));
      if meta.total.Mistyped? then s1
      else
        var s2 := s1.(stats := s1.stats.(total := OrElse(meta.total, 0)));
        if meta.published.Mistyped? then s2
        else
          var s3 := s2.(stats := s2.stats.(published := OrElse(meta.published, 0)));
          if meta.failed.Mistyped? then s3
          else
            var s4 := s3.(stats := s3.stats.(failed := OrElse(meta.failed, 0)));
            if meta.retried.Mistyped? then s4
            else s4.(stats := s4.stats.(retried := OrElse(meta.retried, 0)))
  }

  /** A mistyped member keeps its default and so do those after it; those before are read. */
  lemma MistypedEndsReading(meta: Meta)
    requires meta.Meta?
    ensures var s := ReadMeta(meta);
            && (meta.next.Present? ==> s.nextId == meta.next.value)
            && (meta.next.Mistyped? ==> s == EMPTY)
            && (!meta.next.Mistyped? && meta.total.Present? ==> s.stats.total == meta.total.value)
            && (meta.total.Mistyped? ==> s.stats == NO_STATS)
            && (!meta.next.Mistyped? && !meta.total.Mistyped? && !meta.published.Mistyped? && !meta.failed.Mistyped? ==>
                  && s.stats.published == OrElse(meta.published, 0) && s.stats.failed == OrElse(meta.failed, 0)
                  && (meta.retried.Present? ==> s.stats.retried == meta.retried.value))
            && (meta.published.Mistyped? || meta.failed.Mistyped? || meta.retried.Mistyped? ==> s.stats.retried == 0)
  {
  }

  /** What a load yields: the counters are recounted, except the total and the retries. */
  ghost predicate LoadsTo(disk: Disk, clock: nat -> nat, result: LoadResult) {
    var meta := ReadMeta(disk.meta);
    match disk.events
    case None => result == Loaded(meta, false)
    case Some(lines) =>
      && (result.Threw? <==> exists k: nat :: Unreadable(lines, k))
      && (result.Loaded? ==>
            && Restored(result.store.events, lines, clock)
            && result.store.nextId == NextAfter(lines, meta.nextId)
            && Counted(result.store)
            && result.store.stats.total == meta.stats.total && result.store.stats.retried == meta.stats.retried
            && result.any == (result.store.events != map[]))
  }

  /** The counters while the lines are read. */
  ghost predicate Tallied(events: map<EventId, StoredEvent>, pending: nat, published: nat, failed: nat) {
    && pending == |InStatus(events, Pending)|
    && InStatus(events, Dispatching) == {}
    && published == |InStatus(events, Published)|
    && failed == |InStatus(events, Failed)|
  }

  lemma TallyOne(events: map<EventId, StoredEvent>, pending: nat, published: nat, failed: nat,
                 id: EventId, event: StoredEvent)
    requires Tallied(events, pending, published, failed) && id !in events && event.status != Dispatching
    ensures Tallied(events[id := event],
                    pending + (if event.status == Pending then 1 else 0),
                    published + (if event.status == Published then 1 else 0),
                    failed + (if event.status == Failed then 1 else 0))
  {
    NewCounts(events, id, event, Pending);
    NewCounts(events, id, event, Published);
    NewCounts(events, id, event, Failed);
    InStatusAfter(events, id, event, Dispatching);
  }

  method LoadFromDisk(disk: Disk, clock: nat -> nat) returns (result: LoadResult)
    ensures LoadsTo(disk, clock, result)
  {
    var meta := ReadMeta(disk.meta);
    if disk.events.None? {
      return Loaded(meta, false);
    }
    var lines := disk.events.value;
    var events: map<EventId, StoredEvent> := map[];
    var next := meta.nextId;
    var pending, published, failed := 0, 0, 0;
    for n := 0 to |lines|
      invariant Restored(events, lines[..n], clock)
      invariant next == NextAfter(lines[..n], meta.nextId)
      invariant Tallied(events, pending, published, failed)
      invariant forall k: nat :: k < n ==> !Unreadable(lines, k)
    {
      RestoredSnoc(events, lines, n, clock);
      NextSnoc(lines, n, meta.nextId);
      NotKept(events, lines, n, clock);
      if !Usable(lines[n]) { continue; }
      var r := lines[n].record;
      if r.id.value in events { continue; }
      if !Readable(r) {
        assert Unreadable(lines, n);
        return Threw;
      }
      var event := Recover(Decode(r), clock(n));
      TallyOne(events, pending, published, failed, r.id.value, event);
      match event.status {
        case Pending => pending := pending + 1;
        case Published => published := published + 1;
        case Failed => failed := failed + 1;
        case Dispatching =>
      }
      if r.id.value >= next {
        next := Succ(r.id.value);
      }
      events := events[r.id.value := event];
    }
    assert lines[..|lines|] == lines;
    var stats := Stats(meta.stats.total, pending, 0, published, failed, meta.stats.retried);
    result := Loaded(Store(events, next, stats), events != map[]);
  }

  /** A usable line is kept exactly when its identifier is new. */
  lemma NotKept(events: map<EventId, StoredEvent>, lines: seq<Line>, n: nat, clock: nat -> nat)
    requires n < |lines| && Restored(events, lines[..n], clock)
    ensures Usable(lines[n]) ==>
              var id := lines[n].record.id.value;
              && (id in events <==> FirstLine(lines[..n], id).Some?)
              && (id !in events <==> FirstLine(lines, id) == Some(n))
  {
    if Usable(lines[n]) {
      var id := lines[n].record.id.value;
      assert RestoredAt(events, lines[..n], clock, id);
      FirstLineSnoc(lines, n, id);
      if FirstLine(lines[..n], id).Some? {
        FirstLineStable(lines, n, id);
      } else {
        FirstLineStable(lines, n + 1, id);
      }
    }
  }

  /** Whatever is on disk, a load that returns gives right counters, no DISPATCHING
      event and consistent keys; only the total is taken on trust. */
  lemma LoadedIsCounted(disk: Disk, clock: nat -> nat, result: LoadResult)
    requires LoadsTo(disk, clock, result) && result.Loaded? && disk.events.Some?
    ensures Keyed(result.store.events) && result.store.stats.dispatching == 0
    ensures forall id: EventId :: !HasStatus(result.store, id, Dispatching)
    ensures result.store.stats.total
              == result.store.stats.pending + result.store.stats.published + result.store.stats.failed
       <==> ReadMeta(disk.meta).stats.total == |result.store.events|
  {
    RestoredIsRecovered(result.store.events, disk.events.value, clock);
    assert InStatus(result.store.events, Dispatching) == {};
    CountersSum(result.store);
  }

  /** The loaded store hands out identifiers above all it holds exactly when no usable line
      of the file carries the largest 64-bit number. */
  lemma LoadedNextIsFresh(disk: Disk, clock: nat -> nat, result: LoadResult)
    requires LoadsTo(disk, clock, result) && result.Loaded? && disk.events.Some?
    ensures (forall id: EventId :: id in result.store.events ==> id < result.store.nextId)
       <==> FirstLine(disk.events.value, ID_LIMIT - 1).None?
  {
    var top: EventId := ID_LIMIT - 1;
    RestoredIsRecovered(result.store.events, disk.events.value, clock);
    assert top in result.store.events <==> FirstLine(disk.events.value, top).Some?;
    if FirstLine(disk.events.value, top).None? {
      NextExceedsEach(disk.events.value, ReadMeta(disk.meta).nextId);
    }
  }

  /** A file of one line on which it fails: the next identifier wraps to 0. */
  lemma LargestIdWraps(event: StoredEvent, clock: nat -> nat, result: LoadResult)
    requires event.id == ID_LIMIT - 1 && LoadsTo(Disk(NoMeta, Some([Encode(event)])), clock, result)
    ensures result.Loaded? && event.id in result.store.events && result.store.nextId == 0
  {
    var lines := [Encode(event)];
    RecordRoundTrip(event);
    assert lines[..0] == [];
    assert Mentions(lines[0], event.id) && FirstLine(lines, event.id).Some?;
    assert RestoredAt(result.store.events, lines, clock, event.id) || result.Threw?;
  }

  lemma RestoredIsRecovered(events: map<EventId, StoredEvent>, lines: seq<Line>, clock: nat -> nat)
    requires Restored(events, lines, clock)
    ensures Keyed(events)
    ensures forall id: EventId :: id in events <==> FirstLine(lines, id).Some?
    ensures forall id: EventId :: id in events ==> events[id].status != Dispatching
  {
    forall id: EventId
      ensures id in events <==> FirstLine(lines, id).Some?
      ensures id in events ==> events[id].id == id && events[id].status != Dispatching
    {
      assert RestoredAt(events, lines, clock, id);
    }
  }

  // ---------------------------------------------------------------------------
  // Saving
  // ---------------------------------------------------------------------------

  ghost predicate LineBefore(a: Line, b: Line) {
    Usable(a) && Usable(b) && a.record.id.value < b.record.id.value
  }

  ghost predicate IsLineOf(line: Line, events: map<EventId, StoredEvent>) {
    Usable(line) && line.record.id.value in events && line == Encode(events[line.record.id.value])
  }

  ghost predicate HasLine(lines: seq<Line>, events: map<EventId, StoredEvent>, id: EventId) {
    id in events ==> Encode(events[id]) in lines
  }

  /** The events file that a save writes: one line per event in identifier order. */
  ghost predicate IsSaved(lines: seq<Line>, events: map<EventId, StoredEvent>) {
    && SortedBy(lines, LineBefore)
    && (forall l :: l in lines ==> IsLineOf(l, events))
    && (forall id: EventId :: HasLine(lines, events, id))
  }

  function MetaOf(s: Store): Meta
    requires s.stats.total >= 0 && s.stats.published >= 0 && s.stats.failed >= 0 && s.stats.retried >= 0
  {
    Meta(Present(s.nextId), Present(s.stats.total), Present(s.stats.published), Present(s.stats.failed),
         Present(s.stats.retried))
  }

  /** What a store must satisfy to survive a restart unharmed; every store reached from
      an empty or a loaded one does, until identifiers run out. */
  ghost predicate Sound(s: Store) {
    && Counted(s) && Keyed(s.events) && s.stats.total >= 0 && s.stats.retried >= 0
    && forall id: EventId :: id in s.events ==> id < s.nextId
  }

  lemma PerformKeepsSound(s: Store, op: StoreOp, now: nat)
    requires Sound(s) && s.nextId < ID_LIMIT - 1
    ensures Sound(Perform(s, op, now))
  {
    CountsKept(s, op, now);
    SuccIsNext(s.nextId);
    var after := Perform(s, op, now);
    assert after.nextId >= s.nextId;
    forall id: EventId | id in after.events ensures id < after.nextId && after.events[id].id == id {
      assert id in s.events || (op.Create? && id == s.nextId);
    }
  }

  lemma SavedFileUnique(a: seq<Line>, b: seq<Line>, events: map<EventId, StoredEvent>)
    requires IsSaved(a, events) && IsSaved(b, events)
    ensures a == b
  {
    forall l ensures l in a <==> l in b {
      if l in a { assert HasLine(b, events, l.record.id.value); }
      if l in b { assert HasLine(a, events, l.record.id.value); }
    }
    StrictlySortedUnique(a, b, LineBefore);
  }

  lemma SavedFirstLine(lines: seq<Line>, events: map<EventId, StoredEvent>, id: EventId)
    requires IsSaved(lines, events) && Keyed(events)
    ensures id !in events ==> FirstLine(lines, id).None?
    ensures id in events ==> FirstLine(lines, id).Some?
                             && lines[FirstLine(lines, id).value] == Encode(events[id])
  {
    assert HasLine(lines, events, id);
    forall k | 0 <= k < |lines| ensures IsLineOf(lines[k], events) {
      assert lines[k] in lines;
    }
    if id in events {
      RecordRoundTrip(events[id]);
      var k :| 0 <= k < |lines| && lines[k] == Encode(events[id]);
      assert Mentions(lines[k], id);
    }
  }

  lemma SavedIsReadable(lines: seq<Line>, events: map<EventId, StoredEvent>)
    requires IsSaved(lines, events)
    ensures forall k: nat :: !Unreadable(lines, k)
  {
    forall k: nat | k < |lines| ensures Usable(lines[k]) && Readable(lines[k].record) {
      assert lines[k] in lines && IsLineOf(lines[k], events);
      RecordRoundTrip(events[lines[k].record.id.value]);
    }
  }

  lemma {:induction false} NextStays(lines: seq<Line>, next: EventId)
    requires forall k :: 0 <= k < |lines| && Usable(lines[k]) ==> lines[k].record.id.value < next
    ensures NextAfter(lines, next) == next
  {
    if lines != [] { NextStays(lines[..|lines| - 1], next); }
  }

  /** `t` is `s` after a crash: DISPATCHING became PENDING at some time, nothing else
      changed. */
  ghost predicate RecoveredFrom(s: Store, t: Store, lines: seq<Line>, clock: nat -> nat) {
    && t.nextId == s.nextId
    && t.events.Keys == s.events.Keys
    && (forall id: EventId :: id in s.events ==>
          && FirstLine(lines, id).Some?
          && t.events[id] == Recover(s.events[id], clock(FirstLine(lines, id).value)))
    && t.stats == s.stats.(pending := s.stats.pending + s.stats.dispatching, dispatching := 0)
  }

  /** Loading what a flush wrote gives the same events, identifiers and counters, with
      DISPATCHING turned into PENDING and only those events' time changed. */
  lemma SaveLoadRoundTrip(s: Store, lines: seq<Line>, clock: nat -> nat, result: LoadResult)
    requires Sound(s) && IsSaved(lines, s.events)
    requires LoadsTo(Disk(MetaOf(s), Some(lines)), clock, result)
    ensures result.Loaded? && RecoveredFrom(s, result.store, lines, clock) && Sound(result.store)
  {
    hide Restored, IsSaved, ReadMeta, MetaOf, NextAfter, FirstLine, Recover, InStatus, StatusesRecovered;
    SavedIsReadable(lines, s.events);
    MetaRoundTrip(s);
    RestoredFromSaved(s.events, result.store.events, lines, clock);
    NextStaysSaved(s, lines);
    RecoveredCounts(s.events, result.store.events);
  }

  lemma MetaRoundTrip(s: Store)
    requires s.stats.total >= 0 && s.stats.published >= 0 && s.stats.failed >= 0 && s.stats.retried >= 0
    ensures ReadMeta(MetaOf(s)).nextId == s.nextId
    ensures ReadMeta(MetaOf(s)).stats.total == s.stats.total
    ensures ReadMeta(MetaOf(s)).stats.retried == s.stats.retried
  {
  }

  lemma NextStaysSaved(s: Store, lines: seq<Line>)
    requires Sound(s) && IsSaved(lines, s.events)
    ensures NextAfter(lines, s.nextId) == s.nextId
  {
    forall k | 0 <= k < |lines| && Usable(lines[k]) ensures lines[k].record.id.value < s.nextId {
      assert lines[k] in lines && IsLineOf(lines[k], s.events);
    }
    NextStays(lines, s.nextId);
  }

  lemma RestoredFromSaved(before: map<EventId, StoredEvent>, after: map<EventId, StoredEvent>, lines: seq<Line>,
                          clock: nat -> nat)
    requires Keyed(before) && IsSaved(lines, before) && Restored(after, lines, clock)
    ensures after.Keys == before.Keys && Keyed(after) && StatusesRecovered(before, after)
    ensures forall id: EventId :: id in before ==>
              && FirstLine(lines, id).Some?
              && after[id] == Recover(before[id], clock(FirstLine(lines, id).value))
  {
    forall id: EventId
      ensures id in after <==> id in before
      ensures id in before ==>
                && FirstLine(lines, id).Some?
                && after[id] == Recover(before[id], clock(FirstLine(lines, id).value))
    {
      SavedFirstLine(lines, before, id);
      assert RestoredAt(after, lines, clock, id);
      if id in before { RecordRoundTrip(before[id]); }
    }
  }

  ghost predicate StatusesRecovered(before: map<EventId, StoredEvent>, after: map<EventId, StoredEvent>) {
    && before.Keys == after.Keys
    && forall id :: id in before ==>
         after[id].status == if before[id].status == Dispatching then Pending else before[id].status
  }

  lemma RecoveredCounts(before: map<EventId, StoredEvent>, after: map<EventId, StoredEvent>)
    requires StatusesRecovered(before, after)
    ensures |InStatus(after, Pending)| == |InStatus(before, Pending)| + |InStatus(before, Dispatching)|
    ensures |InStatus(after, Dispatching)| == 0
    ensures |InStatus(after, Published)| == |InStatus(before, Published)|
    ensures |InStatus(after, Failed)| == |InStatus(before, Failed)|
  {
    assert InStatus(after, Pending) == InStatus(before, Pending) + InStatus(before, Dispatching);
    DisjointSizes(InStatus(before, Pending), InStatus(before, Dispatching));
    assert InStatus(after, Dispatching) == {};
    assert InStatus(after, Published) == InStatus(before, Published);
    assert InStatus(after, Failed) == InStatus(before, Failed);
  }

  /** Saving the recovered store and loading it again changes nothing at all. */
  lemma SecondRestartIsIdentity(s: Store, lines: seq<Line>, clock: nat -> nat, first: LoadResult,
                                lines2: seq<Line>, clock2: nat -> nat, second: LoadResult)
    requires Sound(s) && IsSaved(lines, s.events)
    requires LoadsTo(Disk(MetaOf(s), Some(lines)), clock, first)
    requires first.Loaded? && Sound(first.store) && IsSaved(lines2, first.store.events)
    requires LoadsTo(Disk(MetaOf(first.store), Some(lines2)), clock2, second)
    ensures second.Loaded? && second.store == first.store
  {
    hide Restored, IsSaved, ReadMeta, MetaOf, NextAfter, FirstLine, InStatus, LoadsTo;
    SaveLoadRoundTrip(s, lines, clock, first);
    NothingDispatching(s, first.store, lines, clock);
    SaveLoadRoundTrip(first.store, lines2, clock2, second);
    assert second.store.events == first.store.events;
  }

  lemma NothingDispatching(s: Store, t: Store, lines: seq<Line>, clock: nat -> nat)
    requires RecoveredFrom(s, t, lines, clock)
    ensures t.stats.dispatching == 0
    ensures forall id: EventId :: id in t.events ==> t.events[id].status != Dispatching
  {
    forall id: EventId | id in t.events ensures t.events[id].status != Dispatching {
      assert id in s.events;
    }
  }

  lemma SnapshotLines(sorted: seq<StoredEvent>, events: map<EventId, StoredEvent>, lines: seq<Line>)
    requires Keyed(events)
    requires forall e :: e in sorted <==> e.id in events && e == events[e.id]
    requires forall i, j :: 0 <= i < j < |sorted| ==> sorted[i].id < sorted[j].id
    requires |lines| == |sorted| && forall i :: 0 <= i < |sorted| ==> lines[i] == Encode(sorted[i])
    ensures IsSaved(lines, events)
  {
    forall id: EventId ensures HasLine(lines, events, id) {
      if id in events {
        assert events[id] in sorted;
        var k :| 0 <= k < |sorted| && sorted[k] == events[id];
        assert lines[k] == Encode(events[id]);
      }
    }
    forall k | 0 <= k < |lines| ensures IsLineOf(lines[k], events) && lines[k].record.id.value == sorted[k].id {
      assert sorted[k] in sorted;
    }
  }

  method SaveToDisk(events: map<EventId, StoredEvent>) returns (lines: seq<Line>)
    requires Keyed(events)
    ensures IsSaved(lines, events)
  {
    var sorted := SortedRecords(events, (e: StoredEvent) => e.id, (e: StoredEvent) => e.id);
    lines := seq(|sorted|, i requires 0 <= i < |sorted| => Encode(sorted[i]));
    SnapshotLines(sorted, events, lines);
  }

  // ---------------------------------------------------------------------------
  // Restarts
  // ---------------------------------------------------------------------------

  /** An event but for what recovery may change: DISPATCHING counts as PENDING, and the
      time of either does not count. */
  function Settled(event: StoredEvent): StoredEvent {
    if event.status == Pending || event.status == Dispatching then event.(status := Pending, updatedAt := 0)
    else event
  }

  /** So two events agree up to recovery exactly when they are the same, or each is PENDING
      or DISPATCHING and they differ at most in status and time of change. */
  lemma SettledIff(a: StoredEvent, b: StoredEvent)
    ensures Settled(a) == Settled(b) <==>
              || a == b
              || (&& (a.status == Pending || a.status == Dispatching)
                  && (b.status == Pending || b.status == Dispatching)
                  && a.id == b.id && a.topic == b.topic && a.key == b.key && a.payload == b.payload
                  && a.attempts == b.attempts && a.createdAt == b.createdAt && a.error == b.error)
  {
  }

  ghost predicate SameSettled(t: map<EventId, StoredEvent>, s: map<EventId, StoredEvent>, id: EventId) {
    && (id in t <==> id in s)
    && (id in t && id in s ==> Settled(t[id]) == Settled(s[id]))
  }

  /** The same events up to recovery. */
  ghost predicate SameEvents(t: map<EventId, StoredEvent>, s: map<EventId, StoredEvent>) {
    forall id: EventId :: SameSettled(t, s, id)
  }

  /** The least identifier from `next` on that exceeds all in use. */
  ghost predicate IsNext(n: EventId, events: map<EventId, StoredEvent>, next: EventId) {
    && next <= n && (forall id: EventId :: id in events ==> id < n)
    && (n == next || exists id: EventId :: id in events && n == id + 1)
  }

  /** What the metadata file holds of a state. */
  function MetaPart(s: Store): Store {
    Store(map[], s.nextId, Stats(s.stats.total, 0, 0, s.stats.published, s.stats.failed, s.stats.retried))
  }

  /** `t` is what a restart makes of an events file written from state `written`, if there
      is one, and a metadata file written from state `noted`: the events, recounted, and
      the numbers that cannot be recounted. */
  ghost predicate IsRestart(t: Store, written: Option<Store>, noted: Store) {
    match written
    case None => t == MetaPart(noted)
    case Some(s) =>
      && SameEvents(t.events, s.events) && Counted(t) && InStatus(t.events, Dispatching) == {}
      && t.stats.total == noted.stats.total && t.stats.retried == noted.stats.retried
      && IsNext(t.nextId, s.events, noted.nextId)
  }

  /** Loading these lines, at any time, gives these events. */
  ghost predicate HoldsEvents(lines: seq<Line>, events: map<EventId, StoredEvent>) {
    && (forall k: nat :: !Unreadable(lines, k)) && FirstLine(lines, ID_LIMIT - 1).None?
    && forall clock: nat -> nat, t: map<EventId, StoredEvent> :: Restored(t, lines, clock) ==> SameEvents(t, events)
  }

  lemma SavedHoldsEvents(lines: seq<Line>, events: map<EventId, StoredEvent>)
    requires Keyed(events) && IsSaved(lines, events) && ID_LIMIT - 1 !in events
    ensures HoldsEvents(lines, events)
  {
    SavedIsReadable(lines, events);
    SavedFirstLine(lines, events, ID_LIMIT - 1);
    forall clock: nat -> nat, t: map<EventId, StoredEvent> | Restored(t, lines, clock) ensures SameEvents(t, events) {
      RestoredFromSaved(events, t, lines, clock);
    }
  }

  /** Two loads of the same lines, whatever is in them, agree up to recovery. */
  lemma LoadedHoldsEvents(lines: seq<Line>, clock: nat -> nat, events: map<EventId, StoredEvent>)
    requires Restored(events, lines, clock) && forall k: nat :: !Unreadable(lines, k)
    requires FirstLine(lines, ID_LIMIT - 1).None?
    ensures HoldsEvents(lines, events)
  {
    forall clock2: nat -> nat, t: map<EventId, StoredEvent> | Restored(t, lines, clock2) ensures SameEvents(t, events) {
      forall id: EventId ensures SameSettled(t, events, id) {
        assert RestoredAt(events, lines, clock, id) && RestoredAt(t, lines, clock2, id);
      }
    }
  }

  /** The store and what its files were written from. */
  datatype Backed = Backed(
    memory: Store,
    dirty: bool,
    written: Option<Store>,   // the state whose events the events file holds, if there is one
    noted: Store)             // the state whose numbers the metadata file holds

  /** The files are as written. */
  ghost predicate Backs(disk: Disk, written: Option<Store>, noted: Store) {
    && ReadMeta(disk.meta) == MetaPart(noted)
    && (disk.events.Some? <==> written.Some?)
    && (disk.events.Some? && written.Some? ==> HoldsEvents(disk.events.value, written.value.events))
  }

  lemma LoadIsRestart(disk: Disk, written: Option<Store>, noted: Store, clock: nat -> nat, result: LoadResult)
    requires Backs(disk, written, noted) && LoadsTo(disk, clock, result)
    ensures result.Loaded? && IsRestart(result.store, written, noted)
  {
    if disk.events.Some? {
      var lines, t := disk.events.value, result.store;
      assert forall k: nat :: !Unreadable(lines, k);
      assert SameEvents(t.events, written.value.events);
      LoadedIsCounted(disk, clock, result);
      assert InStatus(t.events, Dispatching) == {};
      NextOfLoaded(lines, clock, t.events, noted.nextId);
      SameNext(t.nextId, t.events, written.value.events, noted.nextId);
    }
  }

  lemma NextOfLoaded(lines: seq<Line>, clock: nat -> nat, events: map<EventId, StoredEvent>, next: EventId)
    requires Restored(events, lines, clock) && FirstLine(lines, ID_LIMIT - 1).None?
    ensures IsNext(NextAfter(lines, next), events, next)
  {
    RestoredIsRecovered(events, lines, clock);
    NextExceedsEach(lines, next);
    NextIsLeast(lines, next);
  }

  lemma SameNext(n: EventId, t: map<EventId, StoredEvent>, s: map<EventId, StoredEvent>, next: EventId)
    requires SameEvents(t, s) && IsNext(n, t, next)
    ensures IsNext(n, s, next)
  {
    forall id: EventId ensures id in t <==> id in s {
      assert SameSettled(t, s, id);
    }
  }

  /** Whenever the events file was written, a restart restores the four status counters. */
  lemma CountersRestored(t: Store, s: Store, noted: Store)
    requires IsRestart(t, Some(s), noted) && Counted(s)
    ensures t.stats.pending == s.stats.pending + s.stats.dispatching && t.stats.dispatching == 0
    ensures t.stats.published == s.stats.published && t.stats.failed == s.stats.failed
  {
    forall id: EventId
      ensures id in t.events <==> id in s.events
      ensures id in s.events ==>
                t.events[id].status == if s.events[id].status == Dispatching then Pending else s.events[id].status
    {
      assert SameSettled(t.events, s.events, id);
      assert id !in InStatus(t.events, Dispatching);
    }
    RecoveredCounts(s.events, t.events);
  }

  // ---------------------------------------------------------------------------
  // Stores that count too much
  // ---------------------------------------------------------------------------

  /** Without an events file a load takes two counters from the metadata: published and
      failed count events that are no longer there, `p` and `f` of them. */
  function Less(s: Store, p: nat, f: nat): Store {
    s.(stats := s.stats.(published := s.stats.published - p, failed := s.stats.failed - f))
  }

  ghost predicate Sane(s: Store) {
    exists p: nat, f: nat :: Sound(Less(s, p, f))
  }

  lemma PerformKeepsSane(s: Store, op: StoreOp, now: nat)
    requires Sane(s) && s.nextId < ID_LIMIT - 1
    ensures Sane(Perform(s, op, now))
  {
    hide Sound;
    var p: nat, f: nat :| Sound(Less(s, p, f));
    PerformKeepsSound(Less(s, p, f), op, now);
    assert Perform(Less(s, p, f), op, now) == Less(Perform(s, op, now), p, f);
  }

  lemma SaneFits(s: Store)
    requires Sane(s)
    ensures s.stats.total >= 0 && s.stats.published >= 0 && s.stats.failed >= 0 && s.stats.retried >= 0
    ensures Keyed(s.events) && forall id: EventId :: id in s.events ==> id < s.nextId
  {
    var p: nat, f: nat :| Sound(Less(s, p, f));
  }

  lemma SoundIsSane(s: Store)
    requires Sound(s)
    ensures Sane(s)
  {
    assert Less(s, 0, 0) == s;
  }

  /** Only a file with the largest identifier is left out: after it the next one wraps. */
  predicate Wholesome(disk: Disk) {
    disk.events.Some? ==> FirstLine(disk.events.value, ID_LIMIT - 1).None?
  }

  /** A store just loaded from its files. */
  ghost predicate JustLoaded(b: Backed) {
    && !b.dirty && Sane(b.memory)
    && b.written == (if b.written.Some? then Some(b.memory) else None)
    && (b.written.None? ==> b.memory.events == map[])
    && b.noted.stats.total == b.memory.stats.total && b.noted.stats.retried == b.memory.stats.retried
    && IsNext(b.memory.nextId, b.memory.events, b.noted.nextId)
  }

  function LoadedFrom(disk: Disk, s: Store): Backed {
    Backed(s, false, if disk.events.Some? then Some(s) else None, ReadMeta(disk.meta))
  }

  lemma LoadedIsBacked(disk: Disk, clock: nat -> nat, result: LoadResult)
    requires LoadsTo(disk, clock, result) && result.Loaded? && Wholesome(disk)
    ensures var b := LoadedFrom(disk, result.store); JustLoaded(b) && Backs(disk, b.written, b.noted)
  {
    var s := result.store;
    if disk.events.Some? {
      var lines := disk.events.value;
      LoadedIsCounted(disk, clock, result);
      LoadedNextIsFresh(disk, clock, result);
      SoundIsSane(s);
      NextOfLoaded(lines, clock, s.events, ReadMeta(disk.meta).nextId);
      LoadedHoldsEvents(lines, clock, s.events);
    } else {
      var none := Less(s, s.stats.published, s.stats.failed);
      assert InStatus(none.events, Pending) == {} && InStatus(none.events, Dispatching) == {};
      assert InStatus(none.events, Published) == {} && InStatus(none.events, Failed) == {};
      assert Sound(none);
    }
  }

  // ---------------------------------------------------------------------------
  // Any history of calls and flushes
  // ---------------------------------------------------------------------------

  /** Whether a call changes anything; only then does it mark the store dirty. */
  predicate Changes(s: Store, op: StoreOp) {
    match op
    case Create(_, _, _) => true
    case MarkDispatching(id) => HasStatus(s, id, Pending)
    case RecordAttempt(id) => id in s.events
    case MarkPublished(id) => HasStatus(s, id, Dispatching)
    case MarkFailed(id, _) => HasStatus(s, id, Dispatching)
    case Requeue(id) => HasStatus(s, id, Failed)
  }

  /** The store is marked dirty exactly when there is something new to write. */
  lemma DirtyIffChanged(s: Store, op: StoreOp, now: nat)
    ensures Changes(s, op) <==> Perform(s, op, now) != s
  {
    if op.RecordAttempt? && op.id in s.events {
      assert Perform(s, op, now).events[op.id].attempts == s.events[op.id].attempts + 1;
    }
    if op.Create? { assert Perform(s, op, now).nextId != s.nextId; }
    if !op.Create? && !op.RecordAttempt? && Changes(s, op) {
      assert Perform(s, op, now).events[op.id].status != s.events[op.id].status;
    }
  }

  /** How far the writing of a dirty store gets. The events go to a temporary file, the old
      file is removed and the temporary one renamed; then the metadata is written, and the
      flush succeeds whatever becomes of that. A crash in the middle of a flush is a flush
      with the outcome it got to, followed by a restart. */
  datatype FlushOutcome =
    | NothingWritten
    | EventsGone                // removed, but not renamed
    | EventsOnly(torn: bool)    // the metadata file was not opened, or was left cut short
    | BothWritten

  datatype Action = Do(op: StoreOp, now: nat) | Flush(outcome: FlushOutcome)

  function Act(b: Backed, action: Action): Backed {
    match action
    case Do(op, now) => b.(memory := Perform(b.memory, op, now), dirty := b.dirty || Changes(b.memory, op))
    case Flush(outcome) =>
      if !b.dirty then b
      else match outcome
        case NothingWritten => b
        case EventsGone => b.(written := None)
        case EventsOnly(torn) =>
          b.(dirty := false, written := Some(b.memory), noted := if torn then EMPTY else b.noted)
        case BothWritten => b.(dirty := false, written := Some(b.memory), noted := b.memory)
  }

  function After(b: Backed, history: seq<Action>): Backed {
    if history == [] then b else Act(After(b, history[..|history| - 1]), history[|history| - 1])
  }

  /** The state after the first `i` actions. */
  function At(b: Backed, history: seq<Action>, i: nat): Backed
    requires i <= |history|
  {
    After(b, history[..i])
  }

  lemma NextAt(b: Backed, history: seq<Action>, i: nat)
    requires i < |history|
    ensures At(b, history, i + 1) == Act(At(b, history, i), history[i])
  {
    assert history[..i + 1][..i] == history[..i];
  }

  /** Action `i` is a flush that is not skipped, with this kind of outcome. */
  predicate Flushes(b: Backed, history: seq<Action>, i: nat, kind: FlushOutcome -> bool)
    requires i < |history|
  {
    history[i].Flush? && At(b, history, i).dirty && kind(history[i].outcome)
  }

  predicate WritesEvents(o: FlushOutcome) { o.EventsOnly? || o.BothWritten? }
  predicate WritesMeta(o: FlushOutcome) { o.BothWritten? }
  predicate TouchesEvents(o: FlushOutcome) { !o.NothingWritten? }
  predicate TouchesMeta(o: FlushOutcome) { o.BothWritten? || (o.EventsOnly? && o.torn) }

  /** The events file is from the state after `k` actions: the load, or the last flush that
      touched that file. */
  ghost predicate EventsSince(b: Backed, history: seq<Action>, k: nat) {
    && k <= |history|
    && (if k == 0 then b.written.Some? else Flushes(b, history, k - 1, WritesEvents))
    && forall i :: k <= i < |history| ==> !Flushes(b, history, i, TouchesEvents)
  }

  /** The metadata file is from the state after `j` actions. */
  ghost predicate MetaSince(b: Backed, history: seq<Action>, j: nat) {
    && j <= |history|
    && (j > 0 ==> Flushes(b, history, j - 1, WritesMeta))
    && forall i :: j <= i < |history| ==> !Flushes(b, history, i, TouchesMeta)
  }

  /** The last flush to touch the metadata file left it cut short. */
  ghost predicate MetaTorn(b: Backed, history: seq<Action>, j: nat) {
    && j < |history| && Flushes(b, history, j, TouchesMeta) && !Flushes(b, history, j, WritesMeta)
    && forall i :: j < i < |history| ==> !Flushes(b, history, i, TouchesMeta)
  }

  lemma {:induction false} WrittenStays(b: Backed, history: seq<Action>, k: nat, n: nat)
    requires k <= n <= |history| && forall i :: k <= i < n ==> !Flushes(b, history, i, TouchesEvents)
    ensures At(b, history, n).written == At(b, history, k).written
  {
    if k < n {
      WrittenStays(b, history, k, n - 1);
      assert !Flushes(b, history, n - 1, TouchesEvents);
      NextAt(b, history, n - 1);
    }
  }

  lemma {:induction false} NotedStays(b: Backed, history: seq<Action>, j: nat, n: nat)
    requires j <= n <= |history| && forall i :: j <= i < n ==> !Flushes(b, history, i, TouchesMeta)
    ensures At(b, history, n).noted == At(b, history, j).noted
  {
    if j < n {
      NotedStays(b, history, j, n - 1);
      assert !Flushes(b, history, n - 1, TouchesMeta);
      NextAt(b, history, n - 1);
    }
  }

  /** The events file holds the memory as it was when the last flush that touched the file
      succeeded, whatever became of the metadata and of other flushes. */
  lemma WrittenAtLastFlush(b: Backed, history: seq<Action>, k: nat)
    requires JustLoaded(b) && EventsSince(b, history, k)
    ensures After(b, history).written == Some(At(b, history, k).memory)
  {
    WrittenStays(b, history, k, |history|);
    assert history[..|history|] == history;
    if k > 0 { NextAt(b, history, k - 1); }
  }

  lemma NotedAtLastFlush(b: Backed, history: seq<Action>, j: nat)
    requires JustLoaded(b) && MetaSince(b, history, j)
    ensures var noted, memory := After(b, history).noted, At(b, history, j).memory;
            && noted.stats.total == memory.stats.total && noted.stats.retried == memory.stats.retried
            && (noted.nextId == memory.nextId || exists id: EventId :: id in memory.events && memory.nextId == id + 1)
            && noted.nextId <= memory.nextId
  {
    NotedStays(b, history, j, |history|);
    assert history[..|history|] == history && history[..0] == [];
    if j > 0 { NextAt(b, history, j - 1); }
  }

  lemma SameFlushes(b: Backed, history: seq<Action>, n: nat, i: nat, kind: FlushOutcome -> bool)
    requires i < n <= |history|
    ensures Flushes(b, history[..n], i, kind) == Flushes(b, history, i, kind)
  {
    assert history[..n][..i] == history[..i];
  }

  /** There is an events file at the end exactly when some flush wrote it, or it was loaded,
      and no later one removed it: the other flushes never matter. */
  lemma {:induction false} EventsFileSince(b: Backed, history: seq<Action>) returns (k: nat)
    requires JustLoaded(b)
    ensures k <= |history| && (After(b, history).written.Some? <==> EventsSince(b, history, k))
    ensures After(b, history).written.None? <==> forall i: nat :: !EventsSince(b, history, i)
  {
    k := 0;
    if history != [] {
      var n := |history| - 1;
      assert history[..n + 1] == history;
      NextAt(b, history, n);
      k := EventsFileSince(b, history[..n]);
      if Flushes(b, history, n, TouchesEvents) {
        k := |history|;
      } else {
        forall i | 0 <= i < n
          ensures Flushes(b, history[..n], i, TouchesEvents) == Flushes(b, history, i, TouchesEvents)
        {
          SameFlushes(b, history, n, i, TouchesEvents);
        }
        if k > 0 { SameFlushes(b, history, n, k - 1, WritesEvents); }
      }
    }
    forall i: nat | EventsSince(b, history, i) ensures After(b, history).written.Some? {
      WrittenAtLastFlush(b, history, i);
    }
  }

  predicate CreatesAt(history: seq<Action>, i: nat)
    requires i < |history|
  {
    history[i].Do? && history[i].op.Create?
  }

  predicate RequeuesIn(b: Backed, action: Action) {
    action.Do? && action.op.Requeue? && HasStatus(b.memory, action.op.id, Failed)
  }

  predicate RequeuesAt(b: Backed, history: seq<Action>, i: nat)
    requires i < |history|
  {
    RequeuesIn(At(b, history, i), history[i])
  }

  lemma OneActionGrows(b: Backed, action: Action)
    requires Sane(b.memory) && b.memory.nextId < ID_LIMIT - 1
    ensures var creates := action.Do? && action.op.Create?;
            var s, t := b.memory, Act(b, action).memory;
            && t.stats.total == s.stats.total + (if creates then 1 else 0)
            && t.stats.retried == s.stats.retried + (if RequeuesIn(b, action) then 1 else 0)
            && t.nextId == s.nextId + (if creates then 1 else 0)
            && (forall id: EventId :: id in s.events ==> id in t.events)
            && (creates ==> s.nextId in t.events)
  {
    SuccIsNext(b.memory.nextId);
  }

  lemma {:induction false} AtIsSane(b: Backed, history: seq<Action>, i: nat)
    requires Sane(b.memory) && b.memory.nextId + |history| < ID_LIMIT && i <= |history|
    ensures Sane(At(b, history, i).memory) && At(b, history, i).memory.nextId <= b.memory.nextId + i
  {
    if i > 0 {
      hide Sane;
      AtIsSane(b, history, i - 1);
      NextAt(b, history, i - 1);
      SuccIsNext(At(b, history, i - 1).memory.nextId);
      if history[i - 1].Do? {
        PerformKeepsSane(At(b, history, i - 1).memory, history[i - 1].op, history[i - 1].now);
      }
    }
  }

  /** Totals only grow: by creations and by requeues. After a creation the highest
      identifier in use is the one before the next. */
  lemma {:induction false} NumbersGrow(b: Backed, history: seq<Action>, j: nat, k: nat)
    requires Sane(b.memory) && b.memory.nextId + |history| < ID_LIMIT && j <= k <= |history|
    ensures var s, t := At(b, history, j).memory, At(b, history, k).memory;
            && s.stats.total <= t.stats.total && s.stats.retried <= t.stats.retried && s.nextId <= t.nextId
            && (s.stats.total == t.stats.total <==> forall i :: j <= i < k ==> !CreatesAt(history, i))
            && (s.stats.retried == t.stats.retried <==> forall i :: j <= i < k ==> !RequeuesAt(b, history, i))
            && (forall id: EventId :: id in s.events ==> id in t.events)
            && (s.nextId == t.nextId || exists id: EventId :: id in t.events && t.nextId == id + 1)
  {
    if j < k {
      hide Sane, Perform;
      NumbersGrow(b, history, j, k - 1);
      AtIsSane(b, history, k - 1);
      NextAt(b, history, k - 1);
      OneActionGrows(At(b, history, k - 1), history[k - 1]);
      assert CreatesAt(history, k - 1) <==> history[k - 1].Do? && history[k - 1].op.Create?;
      assert RequeuesAt(b, history, k - 1) <==> RequeuesIn(At(b, history, k - 1), history[k - 1]);
    }
  }

  /** The exact account of a restart whose events file is from the state after `k` actions
      and whose metadata is from the state after `j`. Events, identifiers, the next
      identifier and the four status counters are those of the former. The total and the
      retries are too, exactly when nothing was created, or requeued, in between. */
  lemma RestoredExactly(b: Backed, history: seq<Action>, j: nat, k: nat, t: Store)
    requires JustLoaded(b) && b.memory.nextId + |history| < ID_LIMIT
    requires EventsSince(b, history, k) && MetaSince(b, history, j)
    requires IsRestart(t, After(b, history).written, After(b, history).noted)
    ensures j <= k && SameEvents(t.events, At(b, history, k).memory.events)
    ensures t.nextId == At(b, history, k).memory.nextId && Counted(t)
    ensures t.stats.total == At(b, history, k).memory.stats.total <==> forall i :: j <= i < k ==> !CreatesAt(history, i)
    ensures t.stats.retried == At(b, history, k).memory.stats.retried
       <==> forall i :: j <= i < k ==> !RequeuesAt(b, history, i)
  {
    assert j > 0 ==> Flushes(b, history, j - 1, TouchesEvents);
    hide Flushes, JustLoaded, Sane, Counted, SameEvents;
    WrittenAtLastFlush(b, history, k);
    NotedAtLastFlush(b, history, j);
    JustLoadedIsSane(b);
    NumbersGrow(b, history, j, k);
    AtIsSane(b, history, k);
    SaneFits(At(b, history, k).memory);
  }

  lemma JustLoadedIsSane(b: Backed)
    requires JustLoaded(b)
    ensures Sane(b.memory)
  {
  }

  /** With the metadata cut short the total and the retries start again from 0, and the next
      identifier is the least that exceeds all in use. */
  lemma TornMetaForgets(b: Backed, history: seq<Action>, j: nat, k: nat, t: Store)
    requires JustLoaded(b) && EventsSince(b, history, k) && MetaTorn(b, history, j)
    requires IsRestart(t, After(b, history).written, After(b, history).noted)
    ensures SameEvents(t.events, At(b, history, k).memory.events) && Counted(t)
    ensures t.stats.total == 0 && t.stats.retried == 0 && IsNext(t.nextId, At(b, history, k).memory.events, 1)
  {
    WrittenAtLastFlush(b, history, k);
    NextAt(b, history, j);
    NotedStays(b, history, j + 1, |history|);
    assert history[..|history|] == history;
  }

  /** A flush skips a clean store. What is in memory then is in the events file, but not
      necessarily in the metadata: such a loss lasts until the next change. */
  lemma {:induction false} CleanIsWritten(b: Backed, history: seq<Action>)
    requires JustLoaded(b) && !After(b, history).dirty
    ensures var x := After(b, history);
            x.written == Some(x.memory) || (x.written.None? && x.memory.events == map[])
  {
    if history != [] {
      var before, last := After(b, history[..|history| - 1]), history[|history| - 1];
      if !before.dirty {
        CleanIsWritten(b, history[..|history| - 1]);
        if last.Do? { UnchangedByCall(before.memory, last.op, last.now); }
      }
    }
  }

  lemma UnchangedByCall(s: Store, op: StoreOp, now: nat)
    requires !Changes(s, op)
    ensures Perform(s, op, now) == s
  {
  }

  /** A run in which the total is lost although every flush succeeds: the metadata file
      cannot be opened, and the next flush finds nothing to do. */
  lemma SilentLoss() returns (history: seq<Action>)
    ensures JustLoaded(Backed(EMPTY, false, None, EMPTY))
    ensures history == [Do(Create("t", "", ""), 0), Flush(EventsOnly(false)), Flush(BothWritten)]
    ensures var x := After(Backed(EMPTY, false, None, EMPTY), history);
            && !x.dirty && x.written == Some(x.memory) && x.memory.stats.total == 1
            && forall t: Store :: IsRestart(t, x.written, x.noted) ==> t.stats.total == 0
  {
    var b := Backed(EMPTY, false, None, EMPTY);
    assert InStatus(EMPTY.events, Pending) == {} && InStatus(EMPTY.events, Dispatching) == {};
    assert InStatus(EMPTY.events, Published) == {} && InStatus(EMPTY.events, Failed) == {};
    SoundIsSane(EMPTY);
    history := [Do(Create("t", "", ""), 0), Flush(EventsOnly(false)), Flush(BothWritten)];
    assert history[..3] == history && history[..0] == [];
    NextAt(b, history, 0);
    NextAt(b, history, 1);
    NextAt(b, history, 2);
  }

  // ---------------------------------------------------------------------------
  // The object
  // ---------------------------------------------------------------------------

  class PersistentEventStore {
    const memory: EventStore
    var dirty: bool
    var disk: Disk
    ghost var written: Option<Store>
    ghost var noted: Store

    ghost function Model(): Backed
      reads this, memory
    {
      Backed(memory.Model(), dirty, written, noted)
    }

    ghost predicate Valid()
      reads this, memory
    {
      Sane(memory.Model()) && Backs(disk, written, noted)
    }

    constructor (memory: EventStore, disk: Disk)
      ensures this.memory == memory && this.disk == disk
      ensures Model() == LoadedFrom(disk, memory.Model())
    {
      this.memory, this.disk, dirty := memory, disk, false;
      written := if disk.events.Some? then Some(memory.Model()) else None;
      noted := ReadMeta(disk.meta);
    }

    /** The six lifecycle calls. Each marks the store dirty exactly when it changed it. */
    method Call(op: StoreOp, now: nat)
      requires Valid()
      modifies this, memory
      ensures Model() == Act(old(Model()), Do(op, now)) && disk == old(disk)
      ensures old(memory.nextId) < ID_LIMIT - 1 ==> Valid()
    {
      hide Sane, Backs;
      if memory.nextId < ID_LIMIT - 1 { PerformKeepsSane(memory.Model(), op, now); }
      match op {
        case Create(topic, key, payload) =>
          var id := memory.CreateEvent(topic, key, payload, now);
          dirty := true;
        case MarkDispatching(id) =>
          dirty := dirty || (id in memory.events && memory.events[id].status == Pending);
          memory.Dispatch(id, now);
        case RecordAttempt(id) =>
          dirty := dirty || id in memory.events;
          memory.Attempt(id, now);
        case MarkPublished(id) =>
          dirty := dirty || (id in memory.events && memory.events[id].status == Dispatching);
          memory.Publish(id, now);
        case MarkFailed(id, error) =>
          dirty := dirty || (id in memory.events && memory.events[id].status == Dispatching);
          memory.Fail(id, error, now);
        case Requeue(id) =>
          var requeued := memory.Retry(id, now);
          dirty := dirty || requeued;
      }
    }

    /** Writes the files if anything changed; only a failure before the metadata leaves the
        change pending for the next flush. */
    method Flush(outcome: FlushOutcome)
      requires Valid()
      modifies this
      ensures Valid() && Model() == Act(old(Model()), Action.Flush(outcome))
      ensures !old(dirty) || outcome.NothingWritten? ==> disk == old(disk)
      ensures old(dirty) && outcome.EventsGone? ==> disk == old(disk).(events := None)
      ensures old(dirty) && WritesEvents(outcome) ==>
                disk.events.Some? && IsSaved(disk.events.value, memory.Model().events)
      ensures old(dirty) && outcome.EventsOnly? ==> disk.meta == if outcome.torn then BadMeta else old(disk.meta)
      ensures old(dirty) && outcome.BothWritten? ==> ReadMeta(disk.meta) == MetaPart(memory.Model())
    {
      hide Sane, HoldsEvents;
      if !dirty {
        return;
      }
      SaneFits(memory.Model());
      match outcome {
        case NothingWritten => return;
        case EventsGone =>
          disk := disk.(events := None);
          written := None;
          return;
        case _ =>
      }
      var lines := SaveToDisk(memory.events);
      SavedHoldsEvents(lines, memory.events);
      disk := disk.(events := Some(lines));
      written := Some(memory.Model());
      match outcome {
        case BothWritten =>
          disk := disk.(meta := Meta(Present(memory.nextId), Present(memory.stats.total),
                                     Present(memory.stats.published), Present(memory.stats.failed),
                                     Present(memory.stats.retried)));
          noted := memory.Model();
        case EventsOnly(torn) =>
          if torn {
            disk := disk.(meta := BadMeta);
            noted := EMPTY;
          }
        case _ =>
      }
      dirty := false;
    }
  }

  /** The constructor of the source: load the files, or throw. */
  method Open(disk: Disk, clock: nat -> nat) returns (first: Option<PersistentEventStore>)
    ensures first.None? <==> disk.events.Some? && exists k: nat :: Unreadable(disk.events.value, k)
    ensures first.None? ==> LoadsTo(disk, clock, Threw)
    ensures first.Some? ==>
              && fresh(first.value) && fresh(first.value.memory) && first.value.disk == disk
              && (exists any :: LoadsTo(disk, clock, Loaded(first.value.memory.Model(), any)))
              && first.value.Model() == LoadedFrom(disk, first.value.memory.Model())
              && (Wholesome(disk) ==> first.value.Valid() && JustLoaded(first.value.Model()))
  {
    var result := LoadFromDisk(disk, clock);
    if result.Threw? {
      return None;
    }
    if Wholesome(disk) { LoadedIsBacked(disk, clock, result); }
    var memory := new EventStore.Restored(result.store);
    var store := new PersistentEventStore(memory, disk);
    assert LoadsTo(disk, clock, Loaded(memory.Model(), result.any));
    first := Some(store);
  }

  method ActAll(store: PersistentEventStore, history: seq<Action>)
    requires store.Valid() && store.memory.nextId + |history| < ID_LIMIT
    modifies store, store.memory
    ensures store.Valid() && store.Model() == After(old(store.Model()), history)
  {
    ghost var start := store.Model();
    assert history[..0] == [];
    for k := 0 to |history|
      invariant store.Valid() && store.Model() == At(start, history, k)
    {
      hide Sane, Backs;
      NextAt(start, history, k);
      AtIsSane(start, history, k);
      match history[k] {
        case Do(op, now) => store.Call(op, now);
        case Flush(outcome) => store.Flush(outcome);
      }
    }
    assert history[..|history|] == history;
  }

  lemma BackedIsWholesome(disk: Disk, written: Option<Store>, noted: Store)
    requires Backs(disk, written, noted)
    ensures Wholesome(disk)
  {
  }

  /** After any history of calls and flushes, however the flushes end, a restart succeeds and
      gives what the files were written from; the store it gives is as good as the first,
      so that this holds over any number of restarts. */
  method CrashAndRestart(disk: Disk, clock: nat -> nat, history: seq<Action>, clock2: nat -> nat)
    returns (first: Option<PersistentEventStore>, again: Option<PersistentEventStore>, ghost start: Backed)
    requires Wholesome(disk)
    ensures first.Some? ==>
              && (exists any :: LoadsTo(disk, clock, Loaded(start.memory, any)))
              && start == LoadedFrom(disk, start.memory) && JustLoaded(start)
              && (start.memory.nextId + |history| < ID_LIMIT ==>
                    && again.Some? && again.value.Valid() && JustLoaded(again.value.Model())
                    && Wholesome(again.value.disk)
                    && var end := After(start, history);
                       IsRestart(again.value.memory.Model(), end.written, end.noted))
  {
    first := Open(disk, clock);
    again, start := None, Backed(EMPTY, false, None, EMPTY);
    if first.Some? {
      start := first.value.Model();
      if first.value.memory.nextId + |history| < ID_LIMIT {
        ActAll(first.value, history);
        var after := first.value.disk;
        BackedIsWholesome(after, first.value.written, first.value.noted);
        forall result: LoadResult | LoadsTo(after, clock2, result)
          ensures result.Loaded? && IsRestart(result.store, first.value.written, first.value.noted)
        {
          LoadIsRestart(after, first.value.written, first.value.noted, clock2, result);
        }
        again := Open(after, clock2);
      }
    }
  }
}

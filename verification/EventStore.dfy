/** src/event_store.cpp: the lifecycle of domain events. An event goes
    PENDING -> DISPATCHING -> PUBLISHED or FAILED, and FAILED -> PENDING on requeue; the
    store keeps one counter per status beside the events. */
module EventStores {
  const ID_LIMIT := 0x1_0000_0000_0000_0000

  /** A 64-bit unsigned identifier. */
  type EventId = n: int | 0 <= n < ID_LIMIT

  function Succ(id: EventId): EventId { (id + 1) % ID_LIMIT }

  datatype Status = Pending | Dispatching | Published | Failed

  datatype StoredEvent = StoredEvent(
    id: EventId, topic: string, key: string, payload: string, status: Status,
    attempts: nat, createdAt: nat, updatedAt: nat, error: string)

  /** The counters are plain integers here, so that an underflow would show. */
  datatype Stats = Stats(total: int, pending: int, dispatching: int, published: int, failed: int, retried: int)

  datatype Store = Store(events: map<EventId, StoredEvent>, nextId: EventId, stats: Stats)

  const NO_STATS := Stats(0, 0, 0, 0, 0, 0)
  const EMPTY := Store(map[], 1, NO_STATS)

  datatype StoreOp =
    | Create(topic: string, key: string, payload: string)
    | MarkDispatching(id: EventId)
    | RecordAttempt(id: EventId)
    | MarkPublished(id: EventId)
    | MarkFailed(id: EventId, error: string)
    | Requeue(id: EventId)

  predicate HasStatus(s: Store, id: EventId, st: Status) {
    id in s.events && s.events[id].status == st
  }

  function SetEvent(s: Store, id: EventId, event: StoredEvent, stats: Stats): Store {
    Store(s.events[id := event], s.nextId, stats)
  }

  /** One call; `now` is the clock reading it takes. */
  function Perform(s: Store, op: StoreOp, now: nat): Store {
    match op
    case Create(topic, key, payload) =>
      var created := StoredEvent(s.nextId, topic, key, payload, Pending, 0, now, now, "");
      Store(if s.nextId in s.events then s.events else s.events[s.nextId := created],
            Succ(s.nextId),
            s.stats.(total := s.stats.total + 1, pending := s.stats.pending + 1))
    case MarkDispatching(id) =>
      if !HasStatus(s, id, Pending) then s
      else SetEvent(s, id, s.events[id].(status := Dispatching, updatedAt := now),
                    s.stats.(pending := s.stats.pending - 1, dispatching := s.stats.dispatching + 1))
    case RecordAttempt(id) =>
      if id !in s.events then s
      else SetEvent(s, id, s.events[id].(attempts := s.events[id].attempts + 1, updatedAt := now), s.stats)
    case MarkPublished(id) =>
      if !HasStatus(s, id, Dispatching) then s
      else SetEvent(s, id, s.events[id].(status := Published, updatedAt := now),
                    s.stats.(dispatching := s.stats.dispatching - 1, published := s.stats.published + 1))
    case MarkFailed(id, error) =>
      if !HasStatus(s, id, Dispatching) then s
      else SetEvent(s, id, s.events[id].(status := Failed, error := error, updatedAt := now),
                    s.stats.(dispatching := s.stats.dispatching - 1, failed := s.stats.failed + 1))
    case Requeue(id) =>
      if !HasStatus(s, id, Failed) then s
      else SetEvent(s, id, s.events[id].(status := Pending, updatedAt := now),
                    s.stats.(failed := s.stats.failed - 1, pending := s.stats.pending + 1,
                             retried := s.stats.retried + 1))
  }

  /** A created event holds what it was given. */
  lemma CreatedHolds(s: Store, topic: string, key: string, payload: string, now: nat)
    requires s.nextId !in s.events
    ensures var events := Perform(s, Create(topic, key, payload), now).events;
            && events.Keys == s.events.Keys + {s.nextId}
            && var e := events[s.nextId];
               && e.id == s.nextId && e.topic == topic && e.key == key && e.payload == payload
               && e.status == Pending && e.attempts == 0 && e.createdAt == e.updatedAt == now && e.error == ""
  {
  }

  /** Where each call takes an event: to its target from the one status it may leave. */
  lemma WhereCallsLead(s: Store, id: EventId, error: string, now: nat)
    requires id in s.events
    ensures var st := s.events[id].status;
            && HasStatus(Perform(s, MarkDispatching(id), now), id, Dispatching) == (st == Pending || st == Dispatching)
            && (HasStatus(Perform(s, MarkPublished(id), now), id, Published) <==> st == Dispatching || st == Published)
            && (HasStatus(Perform(s, MarkFailed(id, error), now), id, Failed) <==> st == Dispatching || st == Failed)
            && (HasStatus(Perform(s, Requeue(id), now), id, Pending) <==> st == Failed || st == Pending)
            && HasStatus(Perform(s, RecordAttempt(id), now), id, st)
    ensures HasStatus(s, id, Dispatching) ==> Perform(s, MarkFailed(id, error), now).events[id].error == error
  {
  }

  /** Whether an event has this status after a call, from its status before. */
  predicate StatusThen(s: Store, op: StoreOp, id: EventId, st: Status) {
    match op
    case Create(_, _, _) => HasStatus(s, id, st) || (id == s.nextId && st == Pending)
    case RecordAttempt(_) => HasStatus(s, id, st)
    case MarkDispatching(i) => if id == i && HasStatus(s, i, Pending) then st == Dispatching else HasStatus(s, id, st)
    case MarkPublished(i) => if id == i && HasStatus(s, i, Dispatching) then st == Published else HasStatus(s, id, st)
    case MarkFailed(i, _) => if id == i && HasStatus(s, i, Dispatching) then st == Failed else HasStatus(s, id, st)
    case Requeue(i) => if id == i && HasStatus(s, i, Failed) then st == Pending else HasStatus(s, id, st)
  }

  lemma StatusAfter(s: Store, op: StoreOp, now: nat, id: EventId, st: Status)
    requires op.Create? ==> s.nextId !in s.events
    ensures HasStatus(Perform(s, op, now), id, st) <==> StatusThen(s, op, id, st)
  {
  }

  // ---------------------------------------------------------------------------
  // Counters
  // ---------------------------------------------------------------------------

  function InStatus(events: map<EventId, StoredEvent>, st: Status): set<EventId> {
    set id | id in events && events[id].status == st
  }

  /** Every status counter counts, and every event is counted once. */
  ghost predicate Counted(s: Store) {
    && s.stats.pending == |InStatus(s.events, Pending)|
    && s.stats.dispatching == |InStatus(s.events, Dispatching)|
    && s.stats.published == |InStatus(s.events, Published)|
    && s.stats.failed == |InStatus(s.events, Failed)|
  }

  ghost predicate Keyed(events: map<EventId, StoredEvent>) {
    forall id :: id in events ==> events[id].id == id
  }

  /** Identifiers are exactly 1 .. nextId - 1. */
  ghost predicate Contiguous(s: Store) {
    forall id: EventId :: id in s.events <==> 1 <= id < s.nextId
  }

  /** What holds of a store built by these calls until the identifiers run out. */
  ghost predicate Lifecycle(s: Store) {
    && 1 <= s.nextId && Counted(s) && Keyed(s.events) && Contiguous(s)
    && s.stats.total == s.nextId - 1
    && s.stats.retried >= 0
  }

  ghost predicate Exhausted(s: Store) { s.stats.total >= ID_LIMIT - 1 }

  lemma InStatusAfter(events: map<EventId, StoredEvent>, id: EventId, event: StoredEvent, st: Status)
    ensures InStatus(events[id := event], st)
         == if event.status == st then InStatus(events, st) + {id} else InStatus(events, st) - {id}
  {
  }

  /** Replacing one event moves it between counters and touches no others. */
  lemma MoveCounts(events: map<EventId, StoredEvent>, id: EventId, event: StoredEvent, st: Status)
    requires id in events
    ensures |InStatus(events[id := event], st)|
         == |InStatus(events, st)| + (if event.status == st then 1 else 0) - (if events[id].status == st then 1 else 0)
  {
    InStatusAfter(events, id, event, st);
    if events[id].status == st {
      assert id in InStatus(events, st);
      assert event.status == st ==> InStatus(events, st) + {id} == InStatus(events, st);
    } else {
      assert id !in InStatus(events, st);
      assert event.status != st ==> InStatus(events, st) - {id} == InStatus(events, st);
    }
  }

  lemma NewCounts(events: map<EventId, StoredEvent>, id: EventId, event: StoredEvent, st: Status)
    requires id !in events
    ensures |InStatus(events[id := event], st)| == |InStatus(events, st)| + if event.status == st then 1 else 0
  {
    InStatusAfter(events, id, event, st);
    assert id !in InStatus(events, st);
    assert InStatus(events, st) - {id} == InStatus(events, st);
  }

  lemma CountsKept(s: Store, op: StoreOp, now: nat)
    requires Counted(s) && s.nextId !in s.events
    ensures Counted(Perform(s, op, now))
  {
    var after := Perform(s, op, now);
    if op.Create? {
      NewCounts(s.events, s.nextId, after.events[s.nextId], Pending);
      NewCounts(s.events, s.nextId, after.events[s.nextId], Dispatching);
      NewCounts(s.events, s.nextId, after.events[s.nextId], Published);
      NewCounts(s.events, s.nextId, after.events[s.nextId], Failed);
    } else if after != s {
      MoveCounts(s.events, op.id, after.events[op.id], Pending);
      MoveCounts(s.events, op.id, after.events[op.id], Dispatching);
      MoveCounts(s.events, op.id, after.events[op.id], Published);
      MoveCounts(s.events, op.id, after.events[op.id], Failed);
    }
  }

  lemma PerformKeepsLifecycle(s: Store, op: StoreOp, now: nat)
    requires Lifecycle(s)
    ensures !Exhausted(Perform(s, op, now)) ==> Lifecycle(Perform(s, op, now))
  {
    CountsKept(s, op, now);
    if op.Create? {
      var after := Perform(s, op, now);
      if !Exhausted(after) {
        SuccIsNext(s.nextId);
        NextIsContiguous(s, after);
      }
    } else {
      MarksKeepIdentifiers(s, op, now);
    }
  }

  lemma MarksKeepIdentifiers(s: Store, op: StoreOp, now: nat)
    requires Contiguous(s) && Keyed(s.events) && !op.Create?
    ensures Contiguous(Perform(s, op, now)) && Keyed(Perform(s, op, now).events)
  {
    var after := Perform(s, op, now);
    assert forall id: EventId :: id in after.events <==> id in s.events;
  }

  lemma NextIsContiguous(s: Store, after: Store)
    requires Contiguous(s) && Keyed(s.events) && after.nextId == s.nextId + 1
    requires s.nextId in after.events && after.events == s.events[s.nextId := after.events[s.nextId]]
    requires after.events[s.nextId].id == s.nextId && s.nextId >= 1
    ensures Contiguous(after) && Keyed(after.events)
  {
    forall id: EventId ensures id in after.events <==> 1 <= id < after.nextId {
      assert id in after.events <==> id in s.events || id == s.nextId;
    }
  }

  lemma SuccIsNext(id: EventId)
    requires id < ID_LIMIT - 1
    ensures Succ(id) == id + 1
  {
  }

  lemma DisjointSizes<T>(a: set<T>, b: set<T>)
    requires a !! b
    ensures |a + b| == |a| + |b|
  {
  }

  /** The statuses partition the events, so the four counters sum to their number. */
  lemma CountersSum(s: Store)
    requires Counted(s)
    ensures s.stats.pending + s.stats.dispatching + s.stats.published + s.stats.failed == |s.events|
  {
    StatusesPartition(s.events);
    hide InStatus;
    var p, d := InStatus(s.events, Pending), InStatus(s.events, Dispatching);
    var u, f := InStatus(s.events, Published), InStatus(s.events, Failed);
    DisjointSizes(p, d);
    DisjointSizes(u, f);
    DisjointSizes(p + d, u + f);
  }

  lemma StatusesPartition(events: map<EventId, StoredEvent>)
    ensures var p, d := InStatus(events, Pending), InStatus(events, Dispatching);
            var u, f := InStatus(events, Published), InStatus(events, Failed);
            p !! d && u !! f && (p + d) !! (u + f) && events.Keys == (p + d) + (u + f)
  {
  }

  // ---------------------------------------------------------------------------
  // Runs
  // ---------------------------------------------------------------------------

  /** The store after a history of calls, oldest first, each with its clock reading. */
  function PerformAll(s: Store, history: seq<(StoreOp, nat)>): Store {
    if history == [] then s
    else
      var last := history[|history| - 1];
      Perform(PerformAll(s, history[..|history| - 1]), last.0, last.1)
  }

  lemma {:induction false} TotalGrows(history: seq<(StoreOp, nat)>)
    ensures PerformAll(EMPTY, history).stats.total >= 0
    ensures history != [] ==>
              PerformAll(EMPTY, history).stats.total >= PerformAll(EMPTY, history[..|history| - 1]).stats.total
  {
    if history != [] { TotalGrows(history[..|history| - 1]); }
  }

  /** In every run from an empty store, as long as identifiers last: the counters are
      right, no decrement underflows, the identifiers are 1 .. nextId - 1 and the
      counters sum to the total. */
  lemma {:induction false} EveryRunIsCounted(history: seq<(StoreOp, nat)>)
    requires !Exhausted(PerformAll(EMPTY, history))
    ensures Lifecycle(PerformAll(EMPTY, history))
    ensures var s := PerformAll(EMPTY, history);
            s.stats.total == s.stats.pending + s.stats.dispatching + s.stats.published + s.stats.failed == |s.events|
  {
    var s := PerformAll(EMPTY, history);
    if history != [] {
      var before := history[..|history| - 1];
      TotalGrows(history);
      EveryRunIsCounted(before);
      PerformKeepsLifecycle(PerformAll(EMPTY, before), history[|history| - 1].0, history[|history| - 1].1);
    }
    CountersSum(s);
    ContiguousSize(s.events.Keys, s.nextId);
  }

  lemma {:induction false} ContiguousSize(ids: set<EventId>, next: EventId)
    requires 1 <= next && forall id: EventId :: id in ids <==> 1 <= id < next
    ensures |ids| == next - 1
  {
    if next > 1 {
      var last: EventId := next - 1;
      ContiguousSize(ids - {last}, last);
    } else {
      assert ids == {};
    }
  }

  /** The statuses one call can take an event through. */
  predicate LegalMove(from: Status, to: Status) {
    || from == to
    || (from == Pending && to == Dispatching)
    || (from == Dispatching && (to == Published || to == Failed))
    || (from == Failed && to == Pending)
  }

  /** Over any run an event keeps its identity and its attempts never shrink; a
      PUBLISHED event stays PUBLISHED, and its content is never rewritten. */
  lemma {:induction false} PublishedIsForever(s: Store, history: seq<(StoreOp, nat)>, id: EventId)
    requires id in s.events
    ensures var after := PerformAll(s, history).events;
            && id in after
            && after[id].id == s.events[id].id && after[id].topic == s.events[id].topic
            && after[id].key == s.events[id].key && after[id].payload == s.events[id].payload
            && after[id].createdAt == s.events[id].createdAt
            && after[id].attempts >= s.events[id].attempts
            && (s.events[id].status == Published ==> after[id].status == Published)
  {
    if history != [] {
      PublishedIsForever(s, history[..|history| - 1], id);
    }
  }

  function AttemptsOf(history: seq<(StoreOp, nat)>, id: EventId): nat {
    if history == [] then 0
    else AttemptsOf(history[..|history| - 1], id) + (if history[|history| - 1].0 == RecordAttempt(id) then 1 else 0)
  }

  /** One call moves an event along one edge of the lifecycle or not at all, and only
      the event it names. */
  lemma MovesAreLegal(s: Store, op: StoreOp, now: nat, id: EventId)
    requires id in s.events
    ensures id in Perform(s, op, now).events
    ensures LegalMove(s.events[id].status, Perform(s, op, now).events[id].status)
    ensures op.Create? || op.id != id ==> Perform(s, op, now).events[id] == s.events[id]
  {
  }

  /** The attempt count of an event is exactly the number of attempts recorded for it. */
  lemma {:induction false} AttemptsAreExact(s: Store, history: seq<(StoreOp, nat)>, id: EventId)
    requires id in s.events
    ensures id in PerformAll(s, history).events
    ensures PerformAll(s, history).events[id].attempts == s.events[id].attempts + AttemptsOf(history, id)
  {
    if history != [] {
      AttemptsAreExact(s, history[..|history| - 1], id);
    }
  }

  // ---------------------------------------------------------------------------
  // The object
  // ---------------------------------------------------------------------------

  class EventStore {
    var events: map<EventId, StoredEvent>
    var nextId: EventId
    var stats: Stats

    ghost function Model(): Store
      reads this
    {
      Store(events, nextId, stats)
    }

    constructor ()
      ensures Model() == EMPTY
    {
      events, nextId, stats := map[], 1, NO_STATS;
    }

    constructor Restored(store: Store)
      ensures Model() == store
    {
      events, nextId, stats := store.events, store.nextId, store.stats;
    }

    method CreateEvent(topic: string, key: string, payload: string, now: nat) returns (id: EventId)
      modifies this
      ensures id == old(nextId)
      ensures Model() == Perform(old(Model()), Create(topic, key, payload), now)
    {
      id := nextId;
      nextId := Succ(nextId);
      var event := StoredEvent(id, topic, key, payload, Pending, 0, now, now, "");
      if id !in events {
        events := events[id := event];
      }
      stats := stats.(total := stats.total + 1);
      stats := stats.(pending := stats.pending + 1);
    }

    method Dispatch(id: EventId, now: nat)
      modifies this
      ensures Model() == Perform(old(Model()), MarkDispatching(id), now)
    {
      if id !in events { return; }
      var event := events[id];
      if event.status != Pending { return; }
      events := events[id := event.(status := Dispatching, updatedAt := now)];
      stats := stats.(pending := stats.pending - 1);
      stats := stats.(dispatching := stats.dispatching + 1);
    }

    method Attempt(id: EventId, now: nat)
      modifies this
      ensures Model() == Perform(old(Model()), RecordAttempt(id), now)
    {
      if id !in events { return; }
      events := events[id := events[id].(attempts := events[id].attempts + 1, updatedAt := now)];
    }

    method Publish(id: EventId, now: nat)
      modifies this
      ensures Model() == Perform(old(Model()), MarkPublished(id), now)
    {
      if id !in events { return; }
      var event := events[id];
      if event.status != Dispatching { return; }
      events := events[id := event.(status := Published, updatedAt := now)];
      stats := stats.(dispatching := stats.dispatching - 1);
      stats := stats.(published := stats.published + 1);
    }

    method Fail(id: EventId, error: string, now: nat)
      modifies this
      ensures Model() == Perform(old(Model()), MarkFailed(id, error), now)
    {
      if id !in events { return; }
      var event := events[id];
      if event.status != Dispatching { return; }
      events := events[id := event.(status := Failed, error := error, updatedAt := now)];
      stats := stats.(dispatching := stats.dispatching - 1);
      stats := stats.(failed := stats.failed + 1);
    }

    method Retry(id: EventId, now: nat) returns (requeued: bool)
      modifies this
      ensures requeued == HasStatus(old(Model()), id, Failed)
      ensures Model() == Perform(old(Model()), Requeue(id), now)
    {
      if id !in events { return false; }
      var event := events[id];
      if event.status != Failed { return false; }
      events := events[id := event.(status := Pending, updatedAt := now)];
      stats := stats.(failed := stats.failed - 1);
      stats := stats.(pending := stats.pending + 1);
      stats := stats.(retried := stats.retried + 1);
      requeued := true;
    }
  }
}

/** src/event_dispatcher.cpp: a bounded queue between producers and one worker thread that
    publishes to a broker with retries. Producers, worker, broker reports, replay, start
    and stop interleave; each step below is one critical section or one store call. */
module Dispatchers {
  import opened EventStores
  import opened PersistentStores

  datatype Config = Config(maxQueueSize: nat, maxRetries: nat)

  /** Identifier 0 means the event is not tracked in the store. */
  datatype Event = Event(id: EventId, topic: string, key: string, payload: string)

  datatype Worker = NoThread | Idle | Holding(event: Event, position: nat, tries: nat)

  /** A producer has marked its event DISPATCHING, and then passed the running check
      with or without a timeout. */
  datatype Stage = Marked | Untimed | Timed
  datatype Producer = Producer(event: Event, stage: Stage)

  datatype Dispatcher = Dispatcher(
    store: Store,
    running: bool,
    stopping: bool,
    admitting: map<EventId, Producer>,
    untimed: nat,              // untracked producers past the running check, no timeout
    timed: nat,                // the same, with a timeout
    queue: seq<Event>,
    worker: Worker,
    awaiting: set<EventId>,    // taken by the broker, delivery not yet reported
    log: seq<Event>,           // history: everything that entered the queue
    taken: nat,                // history: how much of it has left the queue
    accepted: seq<nat>,        // history: log positions the broker took
    raced: bool,               // history: stop() began with an untimed producer past the check
    late: nat)                 // history: entries since the worker thread ended

  datatype Step =
    | Create(topic: string, key: string, payload: string)
    | Begin(event: Event)
    | Check(id: EventId, timed: bool)
    | Enter(id: EventId, expired: bool)
    | CheckUntracked(timed: bool)
    | EnterUntracked(event: Event, timed: bool, expired: bool)
    | Dequeue
    | Exit
    | Attempt(ok: bool)
    | Report(id: EventId, ok: bool, error: string)
    | Replay(id: EventId)
    | Start
    | BeginStop
    | FinishStop

  predicate Full(cfg: Config, d: Dispatcher) { |d.queue| >= cfg.maxQueueSize }

  /** The verdict under the queue's lock: without a timeout only the size is looked at;
      with one, a stop in progress refuses, and so does a deadline with the queue full. */
  predicate Admits(cfg: Config, d: Dispatcher, timed: bool) {
    !Full(cfg, d) && !(timed && d.stopping)
  }

  ghost predicate Enabled(cfg: Config, d: Dispatcher, step: Step) {
    match step
    case Create(_, _, _) => d.store.nextId < ID_LIMIT - 1
    case Begin(event) => event.id != 0 && HasStatus(d.store, event.id, Pending)
    case Check(id, timed) => id in d.admitting && d.admitting[id].stage == Marked
    case Enter(id, expired) =>
      && id in d.admitting && d.admitting[id].stage != Marked
      && (d.admitting[id].stage == Timed && Full(cfg, d) && !d.stopping ==> expired)
    case CheckUntracked(timed) => d.running && !d.stopping
    case EnterUntracked(event, timed, expired) =>
      && event.id == 0 && (if timed then d.timed > 0 else d.untimed > 0)
      && (timed && Full(cfg, d) && !d.stopping ==> expired)
    case Dequeue => d.worker == Idle && d.queue != []
    case Exit => d.worker == Idle && d.queue == [] && d.stopping
    case Attempt(ok) => d.worker.Holding?
    case Report(id, ok, error) => id in d.awaiting
    case Replay(id) => HasStatus(d.store, id, Failed)
    case Start => !d.running && d.worker == NoThread
    case BeginStop => d.running && !d.stopping
    case FinishStop => d.running && d.stopping && d.worker == NoThread
  }

  function Push(d: Dispatcher, event: Event): Dispatcher {
    d.(queue := d.queue + [event], log := d.log + [event],
       late := if d.worker == NoThread then d.late + 1 else d.late)
  }

  /** What a delivery attempt tells the store; a retry first requeues and re-marks. */
  function AttemptStore(s: Store, event: Event, tries: nat, now: nat): Store {
    if event.id == 0 then s
    else
      var again := if tries > 0
                   then Perform(Perform(s, StoreOp.Requeue(event.id), now), MarkDispatching(event.id), now)
                   else s;
      Perform(again, RecordAttempt(event.id), now)
  }

  function AttemptOnce(cfg: Config, d: Dispatcher, ok: bool, now: nat): Dispatcher
    requires d.worker.Holding?
  {
    var e, k := d.worker.event, d.worker.tries;
    var s := AttemptStore(d.store, e, k, now);
    if ok then
      d.(store := s, worker := Idle,
         awaiting := if e.id == 0 then d.awaiting else d.awaiting + {e.id},
         accepted := d.accepted + [d.worker.position])
    else if k < cfg.maxRetries then
      d.(store := s, worker := Holding(e, d.worker.position, k + 1))
    else
      d.(store := if e.id == 0 then s else Perform(s, MarkFailed(e.id, "broker rejected"), now), worker := Idle)
  }

  /** Some producer without a timeout has passed the running check but not the lock. */
  ghost predicate UntimedInFlight(d: Dispatcher) {
    d.untimed > 0 || exists id :: id in d.admitting && d.admitting[id].stage == Untimed
  }

  ghost function Apply(cfg: Config, d: Dispatcher, step: Step, now: nat): Dispatcher
    requires Enabled(cfg, d, step)
  {
    match step
    case Create(topic, key, payload) =>
      d.(store := Perform(d.store, StoreOp.Create(topic, key, payload), now))
    case Begin(event) =>
      d.(store := Perform(d.store, MarkDispatching(event.id), now),
         admitting := d.admitting[event.id := Producer(event, Marked)])
    case Check(id, timed) =>
      if !d.running || d.stopping then
        d.(store := Perform(d.store, MarkFailed(id, "dispatcher not running"), now), admitting := d.admitting - {id})
      else
        d.(admitting := d.admitting[id := d.admitting[id].(stage := if timed then Timed else Untimed)])
    case Enter(id, expired) =>
      var p := d.admitting[id];
      if Admits(cfg, d, p.stage == Timed) then
        Push(d.(admitting := d.admitting - {id}), p.event)
      else
        var error := if p.stage == Untimed then "queue full"
                     else if d.stopping then "dispatcher stopping"
                     else "queue full (timeout)";
        d.(store := Perform(d.store, MarkFailed(id, error), now), admitting := d.admitting - {id})
    case CheckUntracked(timed) =>
      if timed then d.(timed := d.timed + 1) else d.(untimed := d.untimed + 1)
    case EnterUntracked(event, timed, expired) =>
      var left := if timed then d.(timed := d.timed - 1) else d.(untimed := d.untimed - 1);
      if Admits(cfg, d, timed) then Push(left, event) else left
    case Dequeue =>
      d.(worker := Holding(d.queue[0], d.taken, 0), taken := d.taken + 1, queue := d.queue[1..])
    case Exit =>
      d.(worker := NoThread, late := 0)
    case Attempt(ok) =>
      AttemptOnce(cfg, d, ok, now)
    case Report(id, ok, error) =>
      d.(store := Perform(d.store, if ok then MarkPublished(id) else MarkFailed(id, error), now),
         awaiting := d.awaiting - {id})
    case Replay(id) =>
      d.(store := Perform(d.store, StoreOp.Requeue(id), now))
    case Start =>
      d.(running := true, stopping := false, worker := Idle, raced := false)
    case BeginStop =>
      d.(stopping := true, raced := UntimedInFlight(d))
    case FinishStop =>
      d.(running := false)
  }

  // ---------------------------------------------------------------------------
  // Conservation
  // ---------------------------------------------------------------------------

  function Occurrences(events: seq<Event>, id: EventId): nat {
    if events == [] then 0
    else Occurrences(events[..|events| - 1], id) + (if events[|events| - 1].id == id then 1 else 0)
  }

  lemma OccurrencesSnoc(events: seq<Event>, event: Event, id: EventId)
    ensures Occurrences(events + [event], id) == Occurrences(events, id) + if event.id == id then 1 else 0
  {
    assert (events + [event])[..|events|] == events;
  }

  lemma {:induction false} OccurrencesHead(events: seq<Event>, id: EventId)
    requires events != []
    ensures Occurrences(events, id) == (if events[0].id == id then 1 else 0) + Occurrences(events[1..], id)
  {
    var n := |events| - 1;
    if n > 0 {
      OccurrencesHead(events[..n], id);
      assert events[1..][..n - 1] == events[..n][1..];
    }
  }

  /** In how many hands an event is. */
  function Hands(d: Dispatcher, id: EventId): nat {
    (if id in d.admitting then 1 else 0)
    + Occurrences(d.queue, id)
    + (if d.worker.Holding? && d.worker.event.id == id then 1 else 0)
    + (if id in d.awaiting then 1 else 0)
  }

  /** An event is DISPATCHING exactly when it is in one pair of hands, and it is never in
      two. */
  ghost predicate InOnePlace(d: Dispatcher, id: EventId) {
    id != 0 ==> Hands(d, id) == if HasStatus(d.store, id, Dispatching) then 1 else 0
  }

  ghost predicate Conserved(d: Dispatcher) {
    && Sound(d.store) && 0 !in d.store.events && 1 <= d.store.nextId
    && 0 !in d.admitting && 0 !in d.awaiting
    && (forall id :: id in d.admitting ==> d.admitting[id].event.id == id)
    && forall id: EventId :: InOnePlace(d, id)
  }

  /** How each store call changes which events are DISPATCHING. */
  lemma DispatchingAfter(s: Store, op: StoreOp, now: nat, id: EventId)
    requires Sound(s)
    ensures HasStatus(Perform(s, op, now), id, Dispatching) ==
      match op
      case MarkDispatching(i) => HasStatus(s, id, Dispatching) || (id == i && HasStatus(s, i, Pending))
      case MarkPublished(i) => id != i && HasStatus(s, id, Dispatching)
      case MarkFailed(i, _) => id != i && HasStatus(s, id, Dispatching)
      case _ => HasStatus(s, id, Dispatching)
  {
  }

  lemma PerformKeepsZeroOut(s: Store, op: StoreOp, now: nat)
    requires Sound(s) && 0 !in s.events && 1 <= s.nextId < ID_LIMIT
    requires op.Create? ==> s.nextId < ID_LIMIT - 1
    ensures Sound(Perform(s, op, now)) && 0 !in Perform(s, op, now).events && 1 <= Perform(s, op, now).nextId
  {
    if op.Create? {
      PerformKeepsSound(s, op, now);
      SuccIsNext(s.nextId);
    } else {
      MarkKeepsSound(s, op, now);
    }
  }

  lemma MarkKeepsSound(s: Store, op: StoreOp, now: nat)
    requires Sound(s) && !op.Create?
    ensures Sound(Perform(s, op, now))
    ensures Perform(s, op, now).nextId == s.nextId && Perform(s, op, now).events.Keys == s.events.Keys
  {
    hide Counted, InStatus, Perform;
    CountsKept(s, op, now);
    MarkKeepsKeys(s, op, now);
  }

  lemma MarkKeepsKeys(s: Store, op: StoreOp, now: nat)
    requires Keyed(s.events) && !op.Create?
    ensures Perform(s, op, now).events.Keys == s.events.Keys && Keyed(Perform(s, op, now).events)
    ensures Perform(s, op, now).nextId == s.nextId
    ensures Perform(s, op, now).stats.total == s.stats.total
    ensures Perform(s, op, now).stats.retried >= s.stats.retried
  {
  }

  /** Store calls that are no lifecycle move for any event in hand. */
  lemma AttemptStoreEffect(s: Store, event: Event, tries: nat, now: nat, id: EventId)
    requires Sound(s) && 0 !in s.events && 1 <= s.nextId
    requires event.id != 0 ==> HasStatus(s, event.id, Dispatching)
    ensures var after := AttemptStore(s, event, tries, now);
            && Sound(after) && 0 !in after.events && after.nextId == s.nextId
            && HasStatus(after, id, Dispatching) == HasStatus(s, id, Dispatching)
            && (event.id != 0 ==> after == Perform(s, RecordAttempt(event.id), now))
  {
    if event.id != 0 {
      MarkKeepsSound(s, RecordAttempt(event.id), now);
      assert Perform(s, StoreOp.Requeue(event.id), now) == s;
      assert Perform(s, MarkDispatching(event.id), now) == s;
    }
  }

  lemma BeginConserves(cfg: Config, d: Dispatcher, step: Step, now: nat, id: EventId)
    requires Conserved(d) && Enabled(cfg, d, step) && (step.Create? || step.Begin? || step.Replay?)
    ensures InOnePlace(Apply(cfg, d, step, now), id)
  {
    hide Perform, Occurrences, Sound, AttemptStore;
    assert InOnePlace(d, id);
    match step
    case Create(t, k, p) => DispatchingAfter(d.store, StoreOp.Create(t, k, p), now, id);
    case Begin(event) => DispatchingAfter(d.store, MarkDispatching(event.id), now, id);
    case Replay(i) => DispatchingAfter(d.store, StoreOp.Requeue(i), now, id);
    case _ =>
  }

  lemma CheckConserves(cfg: Config, d: Dispatcher, step: Step, now: nat, id: EventId)
    requires Conserved(d) && Enabled(cfg, d, step) && step.Check?
    ensures InOnePlace(Apply(cfg, d, step, now), id)
  {
    hide Perform, Occurrences, Sound, AttemptStore;
    assert InOnePlace(d, id);
    DispatchingAfter(d.store, MarkFailed(step.id, "dispatcher not running"), now, id);
  }

  lemma EnterConserves(cfg: Config, d: Dispatcher, step: Step, now: nat, id: EventId)
    requires Conserved(d) && Enabled(cfg, d, step) && step.Enter?
    ensures InOnePlace(Apply(cfg, d, step, now), id)
  {
    hide Perform, Occurrences, Sound, AttemptStore;
    assert InOnePlace(d, id);
    var p := d.admitting[step.id];
    OccurrencesSnoc(d.queue, p.event, id);
    var error := if p.stage == Untimed then "queue full"
                 else if d.stopping then "dispatcher stopping"
                 else "queue full (timeout)";
    DispatchingAfter(d.store, MarkFailed(step.id, error), now, id);
  }

  lemma AttemptStatus(cfg: Config, d: Dispatcher, ok: bool, now: nat, id: EventId)
    requires Conserved(d) && d.worker.Holding?
    ensures HasStatus(AttemptOnce(cfg, d, ok, now).store, id, Dispatching)
         == (HasStatus(d.store, id, Dispatching)
             && (ok || d.worker.tries < cfg.maxRetries || d.worker.event.id == 0 || id != d.worker.event.id))
  {
    hide Perform, Occurrences, Sound, AttemptStore;
    var e, k := d.worker.event, d.worker.tries;
    assert InOnePlace(d, e.id);
    AttemptStoreEffect(d.store, e, k, now, id);
    DispatchingAfter(AttemptStore(d.store, e, k, now), MarkFailed(e.id, "broker rejected"), now, id);
  }

  lemma AttemptConserves(cfg: Config, d: Dispatcher, ok: bool, now: nat, id: EventId)
    requires Conserved(d) && d.worker.Holding?
    ensures InOnePlace(AttemptOnce(cfg, d, ok, now), id)
  {
    hide Perform, Occurrences, Sound, AttemptStore, HasStatus;
    assert InOnePlace(d, id);
    AttemptStatus(cfg, d, ok, now, id);
  }

  lemma ReportConserves(cfg: Config, d: Dispatcher, step: Step, now: nat, id: EventId)
    requires Conserved(d) && Enabled(cfg, d, step) && step.Report?
    ensures InOnePlace(Apply(cfg, d, step, now), id)
  {
    hide Perform, Occurrences, Sound, AttemptStore;
    assert InOnePlace(d, id);
    var op := if step.ok then MarkPublished(step.id) else MarkFailed(step.id, step.error);
    DispatchingAfter(d.store, op, now, id);
  }

  lemma PushConserves(d: Dispatcher, event: Event, id: EventId)
    requires event.id == 0 && InOnePlace(d, id)
    ensures InOnePlace(Push(d, event), id)
  {
    hide Occurrences;
    OccurrencesSnoc(d.queue, event, id);
  }

  lemma DequeueConserves(cfg: Config, d: Dispatcher, id: EventId)
    requires Enabled(cfg, d, Dequeue) && InOnePlace(d, id)
    ensures InOnePlace(Apply(cfg, d, Dequeue, 0), id)
  {
    hide Occurrences;
    OccurrencesHead(d.queue, id);
  }

  lemma StepKeepsPlaces(cfg: Config, d: Dispatcher, step: Step, now: nat, id: EventId)
    requires Conserved(d) && Enabled(cfg, d, step)
    ensures InOnePlace(Apply(cfg, d, step, now), id)
  {
    hide Perform, Occurrences, Sound, AttemptStore;
    match step
    case Create(_, _, _) => BeginConserves(cfg, d, step, now, id);
    case Begin(_) => BeginConserves(cfg, d, step, now, id);
    case Replay(_) => BeginConserves(cfg, d, step, now, id);
    case Check(_, _) => CheckConserves(cfg, d, step, now, id);
    case Enter(_, _) => EnterConserves(cfg, d, step, now, id);
    case Attempt(ok) => AttemptConserves(cfg, d, ok, now, id);
    case Report(_, _, _) => ReportConserves(cfg, d, step, now, id);
    case EnterUntracked(event, timed, _) =>
      assert InOnePlace(d, id);
      PushConserves(if timed then d.(timed := d.timed - 1) else d.(untimed := d.untimed - 1), event, id);
    case Dequeue =>
      assert InOnePlace(d, id);
      DequeueConserves(cfg, d, id);
    case _ => assert InOnePlace(d, id);
  }

  ghost predicate StoreFine(s: Store) {
    Sound(s) && 0 !in s.events && 1 <= s.nextId
  }

  lemma StepKeepsStore(cfg: Config, d: Dispatcher, step: Step, now: nat)
    requires Conserved(d) && Enabled(cfg, d, step)
    ensures StoreFine(Apply(cfg, d, step, now).store)
  {
    hide Perform, Sound, AttemptStore;
    match step
    case Create(t, k, p) => PerformKeepsZeroOut(d.store, StoreOp.Create(t, k, p), now);
    case Begin(event) => MarkKeepsSound(d.store, MarkDispatching(event.id), now);
    case Check(id, _) => MarkKeepsSound(d.store, MarkFailed(id, "dispatcher not running"), now);
    case Enter(id, _) =>
      var p := d.admitting[id];
      var error := if p.stage == Untimed then "queue full"
                   else if d.stopping then "dispatcher stopping"
                   else "queue full (timeout)";
      MarkKeepsSound(d.store, MarkFailed(id, error), now);
    case Attempt(_) =>
      var e, k := d.worker.event, d.worker.tries;
      assert InOnePlace(d, e.id);
      AttemptStoreEffect(d.store, e, k, now, e.id);
      MarkKeepsSound(AttemptStore(d.store, e, k, now), MarkFailed(e.id, "broker rejected"), now);
    case Report(id, ok, error) =>
      MarkKeepsSound(d.store, if ok then MarkPublished(id) else MarkFailed(id, error), now);
    case Replay(id) => MarkKeepsSound(d.store, StoreOp.Requeue(id), now);
    case _ =>
  }

  ghost predicate ProducersFine(d: Dispatcher) {
    && 0 !in d.admitting && 0 !in d.awaiting
    && forall id :: id in d.admitting ==> d.admitting[id].event.id == id
  }

  lemma StepKeepsProducers(cfg: Config, d: Dispatcher, step: Step, now: nat)
    requires ProducersFine(d) && Enabled(cfg, d, step)
    ensures ProducersFine(Apply(cfg, d, step, now))
  {
    hide Perform, AttemptOnce, HasStatus;
    if step.Attempt? { AttemptKeepsProducers(cfg, d, step.ok, now); }
  }

  lemma AttemptKeepsProducers(cfg: Config, d: Dispatcher, ok: bool, now: nat)
    requires ProducersFine(d) && d.worker.Holding?
    ensures ProducersFine(AttemptOnce(cfg, d, ok, now))
  {
    hide Perform, AttemptStore;
  }

  lemma StepKeepsConserved(cfg: Config, d: Dispatcher, step: Step, now: nat)
    requires Conserved(d) && Enabled(cfg, d, step)
    ensures Conserved(Apply(cfg, d, step, now))
  {
    hide Apply, Enabled, Sound, InOnePlace;
    StepKeepsStore(cfg, d, step, now);
    StepKeepsProducers(cfg, d, step, now);
    forall id: EventId ensures InOnePlace(Apply(cfg, d, step, now), id) {
      StepKeepsPlaces(cfg, d, step, now, id);
    }
  }

  // ---------------------------------------------------------------------------
  // What moves an event
  // ---------------------------------------------------------------------------

  /** This step gives up on the event: a failure report, a stop or a full queue before the
      event is queued, or the last refusal of the broker. */
  predicate GivesUp(cfg: Config, d: Dispatcher, step: Step, id: EventId) {
    match step
    case Report(i, ok, _) => i == id && !ok
    case Check(i, _) => i == id && (!d.running || d.stopping)
    case Enter(i, _) =>
      i == id && id in d.admitting
      && (|d.queue| >= cfg.maxQueueSize || (d.admitting[id].stage == Timed && d.stopping))
    case Attempt(ok) =>
      !ok && d.worker.Holding? && d.worker.event.id == id && d.worker.tries >= cfg.maxRetries
    case _ => false
  }

  /** The reason the event is left with. */
  function Reason(d: Dispatcher, step: Step, id: EventId): string {
    match step
    case Report(_, _, error) => error
    case Check(_, _) => "dispatcher not running"
    case Enter(_, _) =>
      if id in d.admitting && d.admitting[id].stage == Untimed then "queue full"
      else if d.stopping then "dispatcher stopping"
      else "queue full (timeout)"
    case _ => "broker rejected"
  }

  lemma AttemptMoves(cfg: Config, d: Dispatcher, ok: bool, now: nat, id: EventId)
    requires Conserved(d) && d.worker.Holding? && id != 0
    ensures var s, t := d.store, AttemptOnce(cfg, d, ok, now).store;
            && (HasStatus(t, id, Pending) <==> HasStatus(s, id, Pending))
            && (HasStatus(t, id, Published) <==> HasStatus(s, id, Published))
            && (HasStatus(t, id, Failed) <==> HasStatus(s, id, Failed) || GivesUp(cfg, d, Attempt(ok), id))
            && (GivesUp(cfg, d, Attempt(ok), id) ==> id in t.events && t.events[id].error == "broker rejected")
            && (HasStatus(t, id, Dispatching) <==> HasStatus(s, id, Dispatching) && !GivesUp(cfg, d, Attempt(ok), id))
  {
    hide Perform, Occurrences, Sound, Hands;
    var e, k := d.worker.event, d.worker.tries;
    HeldIsDispatching(d);
    if e.id != 0 {
      var tried := AttemptStore(d.store, e, k, now);
      AttemptStoreEffect(d.store, e, k, now, e.id);
      forall st ensures HasStatus(tried, id, st) == HasStatus(d.store, id, st) {
        StatusAfter(d.store, RecordAttempt(e.id), now, id, st);
      }
      forall st ensures HasStatus(Perform(tried, MarkFailed(e.id, "broker rejected"), now), id, st)
                   == if id == e.id then st == Failed else HasStatus(d.store, id, st)
      {
        StatusAfter(tried, MarkFailed(e.id, "broker rejected"), now, id, st);
      }
      WhereCallsLead(tried, e.id, "broker rejected", now);
    }
  }

  /** What a step makes of the status of an event in `s`. */
  ghost predicate Moves(cfg: Config, d: Dispatcher, step: Step, id: EventId, s: Store, t: Store) {
    && (HasStatus(s, id, Pending) ==>
          HasStatus(t, id, if step.Begin? && step.event.id == id then Dispatching else Pending))
    && (HasStatus(s, id, Dispatching) ==>
          HasStatus(t, id, if step.Report? && step.id == id && step.ok then Published
                           else if GivesUp(cfg, d, step, id) then Failed
                           else Dispatching))
    && (HasStatus(s, id, Failed) ==> HasStatus(t, id, if step == Replay(id) then Pending else Failed))
    && (HasStatus(s, id, Published) ==> HasStatus(t, id, Published))
  }

  /** Exactly what moves a tracked event, whatever the threads do: a producer begins with it,
      a success report publishes it, giving up fails it with the reason, a replay requeues it. */
  lemma StepMoves(cfg: Config, d: Dispatcher, step: Step, now: nat, id: EventId)
    requires Conserved(d) && Enabled(cfg, d, step) && id != 0 && id in d.store.events
    ensures var t := Apply(cfg, d, step, now).store;
            && Moves(cfg, d, step, id, d.store, t)
            && (HasStatus(d.store, id, Dispatching) && GivesUp(cfg, d, step, id) ==>
                  id in t.events && t.events[id].error == Reason(d, step, id))
  {
    hide Perform, Occurrences, Sound, Hands, AttemptOnce, GivesUp, InOnePlace, Reason;
    if step.Attempt? {
      AttemptMoves(cfg, d, step.ok, now, id);
      AttemptReason(d, step, id);
    } else {
      StoreStepMoves(cfg, d, step, now, id);
      if HasStatus(d.store, id, Dispatching) && GivesUp(cfg, d, step, id) { ReasonGiven(cfg, d, step, now, id); }
    }
  }

  lemma AttemptReason(d: Dispatcher, step: Step, id: EventId)
    requires step.Attempt?
    ensures Reason(d, step, id) == "broker rejected"
  {
  }

  /** The store call of a step other than an attempt. */
  function CallOf(d: Dispatcher, step: Step): StoreOp
    requires CallsStore(step)
  {
    match step
    case Create(topic, key, payload) => StoreOp.Create(topic, key, payload)
    case Begin(event) => MarkDispatching(event.id)
    case Check(i, _) => MarkFailed(i, "dispatcher not running")
    case Enter(i, _) => MarkFailed(i, Reason(d, step, i))
    case Report(i, ok, error) => if ok then MarkPublished(i) else MarkFailed(i, error)
    case Replay(i) => StoreOp.Requeue(i)
  }

  predicate CallsStore(step: Step) {
    step.Create? || step.Begin? || step.Check? || step.Enter? || step.Report? || step.Replay?
  }

  lemma StoreStepMoves(cfg: Config, d: Dispatcher, step: Step, now: nat, id: EventId)
    requires Conserved(d) && Enabled(cfg, d, step) && id != 0 && id in d.store.events && !step.Attempt?
    ensures Moves(cfg, d, step, id, d.store, Apply(cfg, d, step, now).store)
  {
    hide Occurrences, Hands, InOnePlace, Counted, Reason, Perform;
    if CallsStore(step) {
      CalledOrSame(cfg, d, step, now);
      assert d.store.nextId !in d.store.events;
      if !(step.Check? || step.Enter?) || GivesUp(cfg, d, step, step.id) { CallMoves(cfg, d, step, now, id); }
    }
  }

  lemma CallMoves(cfg: Config, d: Dispatcher, step: Step, now: nat, id: EventId)
    requires d.store.nextId !in d.store.events && Enabled(cfg, d, step) && CallsStore(step)
    requires step.Check? || step.Enter? ==> GivesUp(cfg, d, step, step.id)
    ensures Moves(cfg, d, step, id, d.store, Perform(d.store, CallOf(d, step), now))
  {
    hide Perform, Reason, HasStatus, Apply;
    var s, op := d.store, CallOf(d, step);
    StatusAfter(s, op, now, id, Pending);
    StatusAfter(s, op, now, id, Dispatching);
    StatusAfter(s, op, now, id, Published);
    StatusAfter(s, op, now, id, Failed);
    OneStatus(s, id);
  }

  lemma OneStatus(s: Store, id: EventId)
    ensures forall a, b :: HasStatus(s, id, a) && HasStatus(s, id, b) ==> a == b
  {
  }

  lemma CalledOrSame(cfg: Config, d: Dispatcher, step: Step, now: nat)
    requires Enabled(cfg, d, step) && CallsStore(step)
    ensures var t := Apply(cfg, d, step, now).store;
            if (step.Check? || step.Enter?) && !GivesUp(cfg, d, step, step.id) then t == d.store
            else t == Perform(d.store, CallOf(d, step), now)
  {
    hide Perform;
  }

  lemma ReasonGiven(cfg: Config, d: Dispatcher, step: Step, now: nat, id: EventId)
    requires Enabled(cfg, d, step) && HasStatus(d.store, id, Dispatching)
    requires GivesUp(cfg, d, step, id) && !step.Attempt?
    ensures var t := Apply(cfg, d, step, now).store;
            id in t.events && t.events[id].error == Reason(d, step, id)
  {
    hide Perform, Reason;
    CalledOrSame(cfg, d, step, now);
    WhereCallsLead(d.store, id, Reason(d, step, id), now);
    ReportReason(d, step, id);
  }

  lemma ReportReason(d: Dispatcher, step: Step, id: EventId)
    ensures step.Report? ==> Reason(d, step, id) == step.error
    ensures step.Check? ==> Reason(d, step, id) == "dispatcher not running"
  {
  }

  // ---------------------------------------------------------------------------
  // Order
  // ---------------------------------------------------------------------------

  /** The queue is the part of the log not yet taken, the worker holds the last one taken,
      and the broker has accepted messages in log order, none twice. */
  ghost predicate InOrder(d: Dispatcher) {
    && d.taken <= |d.log| && d.queue == d.log[d.taken..]
    && (d.worker.Holding? ==> d.worker.position + 1 == d.taken && d.worker.event == d.log[d.worker.position])
    && (forall i, j :: 0 <= i < j < |d.accepted| ==> d.accepted[i] < d.accepted[j])
    && (forall i :: 0 <= i < |d.accepted| ==> d.accepted[i] < d.taken)
    && (d.worker.Holding? ==> forall i :: 0 <= i < |d.accepted| ==> d.accepted[i] < d.worker.position)
  }

  lemma PushKeepsOrder(d: Dispatcher, event: Event)
    requires InOrder(d)
    ensures InOrder(Push(d, event))
  {
  }

  lemma DequeueKeepsOrder(cfg: Config, d: Dispatcher)
    requires InOrder(d) && Enabled(cfg, d, Dequeue)
    ensures InOrder(Apply(cfg, d, Dequeue, 0))
  {
    assert d.log[d.taken..][1..] == d.log[d.taken + 1..];
  }

  lemma AttemptKeepsOrder(cfg: Config, d: Dispatcher, ok: bool, now: nat)
    requires InOrder(d) && d.worker.Holding?
    ensures InOrder(AttemptOnce(cfg, d, ok, now))
  {
    hide Perform, AttemptStore;
  }

  ghost predicate SameOrder(d: Dispatcher, after: Dispatcher) {
    after.log == d.log && after.taken == d.taken && after.queue == d.queue && after.accepted == d.accepted
    && (after.worker == d.worker || !after.worker.Holding?)
  }

  lemma StepKeepsOrder(cfg: Config, d: Dispatcher, step: Step, now: nat)
    requires InOrder(d) && Enabled(cfg, d, step)
    ensures InOrder(Apply(cfg, d, step, now))
    ensures d.log <= Apply(cfg, d, step, now).log
  {
    hide Perform, AttemptStore, InOrder, HasStatus;
    match step
    case Enter(_, _) => EnterKeepsOrder(cfg, d, step, now);
    case EnterUntracked(_, _, _) => EnterKeepsOrder(cfg, d, step, now);
    case Dequeue => DequeueKeepsOrder(cfg, d);
    case Attempt(ok) => AttemptKeepsOrder(cfg, d, ok, now);
    case _ => SameOrderKept(d, Apply(cfg, d, step, now));
  }

  lemma EnterKeepsOrder(cfg: Config, d: Dispatcher, step: Step, now: nat)
    requires InOrder(d) && Enabled(cfg, d, step) && (step.Enter? || step.EnterUntracked?)
    ensures InOrder(Apply(cfg, d, step, now))
    ensures d.log <= Apply(cfg, d, step, now).log
  {
    hide Perform, InOrder, HasStatus;
    var timed := if step.Enter? then d.admitting[step.id].stage == Timed else step.timed;
    if Admits(cfg, d, timed) {
      var left := if step.Enter? then d.(admitting := d.admitting - {step.id})
                  else if timed then d.(timed := d.timed - 1)
                  else d.(untimed := d.untimed - 1);
      SameOrderKept(d, left);
      PushKeepsOrder(left, if step.Enter? then d.admitting[step.id].event else step.event);
    } else {
      SameOrderKept(d, Apply(cfg, d, step, now));
    }
  }

  lemma SameOrderKept(d: Dispatcher, after: Dispatcher)
    requires InOrder(d) && SameOrder(d, after)
    ensures InOrder(after)
  {
  }

  // ---------------------------------------------------------------------------
  // Retries
  // ---------------------------------------------------------------------------

  /** Attempts recorded before the run for events the run started with. */
  function AttemptsIn(s: Store, id: EventId): nat {
    if id in s.events then s.events[id].attempts else 0
  }

  /** Each time the worker takes an event it tries at most maxRetries + 1 times. */
  ghost predicate WithinBudget(cfg: Config, before: Store, d: Dispatcher, id: EventId)
    requires d.taken <= |d.log|
  {
    id != 0 ==>
      AttemptsIn(d.store, id)
        + (if d.worker.Holding? && d.worker.event.id == id then cfg.maxRetries + 1 - d.worker.tries else 0)
      <= AttemptsIn(before, id) + (cfg.maxRetries + 1) * Occurrences(d.log[..d.taken], id)
  }

  ghost predicate Budgeted(cfg: Config, before: Store, d: Dispatcher) {
    && d.taken <= |d.log|
    && (d.worker.Holding? ==> d.worker.tries <= cfg.maxRetries)
    && forall id: EventId :: WithinBudget(cfg, before, d, id)
  }

  lemma AttemptsAfter(s: Store, op: StoreOp, now: nat, id: EventId)
    requires op.Create? ==> s.nextId !in s.events
    ensures AttemptsIn(Perform(s, op, now), id)
         == AttemptsIn(s, id) + if op == RecordAttempt(id) && id in s.events then 1 else 0
  {
  }

  lemma AttemptStoreCounts(s: Store, event: Event, tries: nat, now: nat, id: EventId)
    requires id != 0
    ensures AttemptsIn(AttemptStore(s, event, tries, now), id)
         == AttemptsIn(s, id) + if event.id == id && id in s.events then 1 else 0
  {
    hide Perform;
    if event.id != 0 {
      var requeued := Perform(s, StoreOp.Requeue(event.id), now);
      AttemptsAfter(s, StoreOp.Requeue(event.id), now, id);
      AttemptsAfter(requeued, MarkDispatching(event.id), now, id);
      var again := if tries > 0 then Perform(requeued, MarkDispatching(event.id), now) else s;
      AttemptsAfter(again, RecordAttempt(event.id), now, id);
      PerformKeepsKnown(s, StoreOp.Requeue(event.id), now, id);
      PerformKeepsKnown(requeued, MarkDispatching(event.id), now, id);
    }
  }

  lemma PerformKeepsKnown(s: Store, op: StoreOp, now: nat, id: EventId)
    requires !op.Create?
    ensures id in Perform(s, op, now).events <==> id in s.events
  {
  }

  lemma DequeueBudget(cfg: Config, before: Store, d: Dispatcher, id: EventId)
    requires Budgeted(cfg, before, d) && InOrder(d) && d.worker == Idle && d.queue != []
    ensures WithinBudget(cfg, before, Apply(cfg, d, Dequeue, 0), id)
  {
    assert WithinBudget(cfg, before, d, id);
    var head := d.log[d.taken];
    assert d.log[..d.taken + 1] == d.log[..d.taken] + [head];
    OccurrencesSnoc(d.log[..d.taken], head, id);
    var m, n := cfg.maxRetries + 1, Occurrences(d.log[..d.taken], id);
    assert m * (n + 1) == m * n + m;
  }

  lemma AttemptBudget(cfg: Config, before: Store, d: Dispatcher, ok: bool, now: nat, id: EventId)
    requires Budgeted(cfg, before, d) && d.worker.Holding?
    ensures AttemptOnce(cfg, d, ok, now).taken <= |AttemptOnce(cfg, d, ok, now).log|
    ensures WithinBudget(cfg, before, AttemptOnce(cfg, d, ok, now), id)
  {
    hide Perform, AttemptStore, Occurrences;
    assert WithinBudget(cfg, before, d, id);
    var e, k := d.worker.event, d.worker.tries;
    if id != 0 {
      AttemptStoreCounts(d.store, e, k, now, id);
      AttemptsAfter(AttemptStore(d.store, e, k, now), MarkFailed(e.id, "broker rejected"), now, id);
    }
  }

  /** A queue entry moves the log's end, not its taken part. */
  lemma PushBudget(cfg: Config, before: Store, d: Dispatcher, event: Event, id: EventId)
    requires d.taken <= |d.log| && WithinBudget(cfg, before, d, id)
    ensures WithinBudget(cfg, before, Push(d, event), id)
  {
    assert (d.log + [event])[..d.taken] == d.log[..d.taken];
  }

  lemma OtherBudget(cfg: Config, before: Store, d: Dispatcher, after: Dispatcher, op: StoreOp, now: nat, id: EventId)
    requires d.taken <= |d.log| && WithinBudget(cfg, before, d, id)
    requires after.log == d.log && after.taken == d.taken && (after.worker == d.worker || !after.worker.Holding?)
    requires after.store == d.store || after.store == Perform(d.store, op, now)
    requires !op.RecordAttempt? && (op.Create? ==> d.store.nextId !in d.store.events)
    requires d.worker.Holding? ==> d.worker.tries <= cfg.maxRetries
    ensures WithinBudget(cfg, before, after, id)
  {
    hide Perform, Occurrences;
    AttemptsAfter(d.store, op, now, id);
  }

  lemma AdmittedBudget(cfg: Config, before: Store, d: Dispatcher, left: Dispatcher, event: Event, id: EventId)
    requires Budgeted(cfg, before, d)
    requires left.store == d.store && left.worker == d.worker && left.taken == d.taken && left.log == d.log
    ensures left.taken <= |left.log| && WithinBudget(cfg, before, Push(left, event), id)
  {
    hide Occurrences;
    assert WithinBudget(cfg, before, d, id);
    PushBudget(cfg, before, left, event, id);
  }

  lemma EnterBudget(cfg: Config, before: Store, d: Dispatcher, step: Step, now: nat, id: EventId)
    requires Budgeted(cfg, before, d) && Enabled(cfg, d, step) && (step.Enter? || step.EnterUntracked?)
    ensures Apply(cfg, d, step, now).taken <= |Apply(cfg, d, step, now).log|
    ensures WithinBudget(cfg, before, Apply(cfg, d, step, now), id)
  {
    hide Perform, Occurrences, WithinBudget, HasStatus;
    assert WithinBudget(cfg, before, d, id);
    var timed := if step.Enter? then d.admitting[step.id].stage == Timed else step.timed;
    if Admits(cfg, d, timed) {
      var left := if step.Enter? then d.(admitting := d.admitting - {step.id})
                  else if timed then d.(timed := d.timed - 1)
                  else d.(untimed := d.untimed - 1);
      AdmittedBudget(cfg, before, d, left, if step.Enter? then d.admitting[step.id].event else step.event, id);
    } else {
      var error := if !step.Enter? || !timed then "queue full"
                   else if d.stopping then "dispatcher stopping"
                   else "queue full (timeout)";
      var refused := if step.Enter? then step.id else 0;
      OtherBudget(cfg, before, d, Apply(cfg, d, step, now), MarkFailed(refused, error), now, id);
    }
  }

  lemma StoreStepBudget(cfg: Config, before: Store, d: Dispatcher, step: Step, now: nat, id: EventId)
    requires Budgeted(cfg, before, d) && Conserved(d) && Enabled(cfg, d, step)
    requires step.Create? || step.Begin? || step.Check? || step.Report? || step.Replay?
    ensures WithinBudget(cfg, before, Apply(cfg, d, step, now), id)
  {
    hide Perform, Occurrences, Hands;
    assert WithinBudget(cfg, before, d, id);
    var after := Apply(cfg, d, step, now);
    match step
    case Create(t, k, p) => OtherBudget(cfg, before, d, after, StoreOp.Create(t, k, p), now, id);
    case Begin(event) => OtherBudget(cfg, before, d, after, MarkDispatching(event.id), now, id);
    case Check(i, _) => OtherBudget(cfg, before, d, after, MarkFailed(i, "dispatcher not running"), now, id);
    case Report(i, ok, error) =>
      OtherBudget(cfg, before, d, after, if ok then MarkPublished(i) else MarkFailed(i, error), now, id);
    case Replay(i) => OtherBudget(cfg, before, d, after, StoreOp.Requeue(i), now, id);
  }

  lemma StepBudgetAt(cfg: Config, before: Store, d: Dispatcher, step: Step, now: nat, id: EventId)
    requires Budgeted(cfg, before, d) && Conserved(d) && InOrder(d) && Enabled(cfg, d, step)
    ensures Apply(cfg, d, step, now).taken <= |Apply(cfg, d, step, now).log|
    ensures WithinBudget(cfg, before, Apply(cfg, d, step, now), id)
  {
    hide Perform, Occurrences, Hands, AttemptOnce, Sound, WithinBudget, InOnePlace, HasStatus;
    assert WithinBudget(cfg, before, d, id);
    match step
    case Dequeue => DequeueBudget(cfg, before, d, id);
    case Attempt(ok) => AttemptBudget(cfg, before, d, ok, now, id);
    case Enter(_, _) => EnterBudget(cfg, before, d, step, now, id);
    case EnterUntracked(_, _, _) => EnterBudget(cfg, before, d, step, now, id);
    case CheckUntracked(_) => OtherBudget(cfg, before, d, Apply(cfg, d, step, now), MarkFailed(0, ""), now, id);
    case Exit => OtherBudget(cfg, before, d, Apply(cfg, d, step, now), MarkFailed(0, ""), now, id);
    case Start => OtherBudget(cfg, before, d, Apply(cfg, d, step, now), MarkFailed(0, ""), now, id);
    case BeginStop => OtherBudget(cfg, before, d, Apply(cfg, d, step, now), MarkFailed(0, ""), now, id);
    case FinishStop => OtherBudget(cfg, before, d, Apply(cfg, d, step, now), MarkFailed(0, ""), now, id);
    case _ => StoreStepBudget(cfg, before, d, step, now, id);
  }

  lemma StepKeepsBudget(cfg: Config, before: Store, d: Dispatcher, step: Step, now: nat)
    requires Budgeted(cfg, before, d) && Conserved(d) && InOrder(d) && Enabled(cfg, d, step)
    ensures Budgeted(cfg, before, Apply(cfg, d, step, now))
  {
    hide Perform, Occurrences, Hands, AttemptStore, Conserved, InOrder, WithinBudget;
    StepBudgetAt(cfg, before, d, step, now, 0);
    forall id: EventId ensures WithinBudget(cfg, before, Apply(cfg, d, step, now), id) {
      StepBudgetAt(cfg, before, d, step, now, id);
    }
  }

  // ---------------------------------------------------------------------------
  // Delivery
  // ---------------------------------------------------------------------------

  /** The broker has taken a message for `id`. */
  ghost predicate Delivered(d: Dispatcher, id: EventId) {
    exists i :: 0 <= i < |d.accepted| && d.accepted[i] < |d.log| && d.log[d.accepted[i]].id == id
  }

  ghost predicate HonestAt(before: Store, d: Dispatcher, id: EventId) {
    && (id in d.awaiting ==> Delivered(d, id))
    && (HasStatus(d.store, id, Published) ==> HasStatus(before, id, Published) || Delivered(d, id))
  }

  /** Nothing is reported PUBLISHED that the broker did not take. */
  ghost predicate Honest(before: Store, d: Dispatcher) {
    forall id: EventId :: HonestAt(before, d, id)
  }

  lemma PublishedAfter(s: Store, op: StoreOp, now: nat, id: EventId)
    requires op.Create? ==> s.nextId !in s.events
    ensures HasStatus(Perform(s, op, now), id, Published)
         == (HasStatus(s, id, Published) || (op == MarkPublished(id) && HasStatus(s, id, Dispatching)))
  {
  }

  lemma DeliveredGrows(d: Dispatcher, after: Dispatcher, id: EventId)
    requires Delivered(d, id) && d.log <= after.log && d.accepted <= after.accepted
    ensures Delivered(after, id)
  {
    var i :| 0 <= i < |d.accepted| && d.accepted[i] < |d.log| && d.log[d.accepted[i]].id == id;
    assert after.accepted[i] == d.accepted[i] && after.log[d.accepted[i]] == d.log[d.accepted[i]];
  }

  lemma AttemptHonest(cfg: Config, before: Store, d: Dispatcher, ok: bool, now: nat, id: EventId)
    requires HonestAt(before, d, id) && InOrder(d) && Conserved(d) && d.worker.Holding?
    ensures HonestAt(before, AttemptOnce(cfg, d, ok, now), id)
  {
    hide Perform, Sound, Hands, Delivered;
    var e, k := d.worker.event, d.worker.tries;
    var after := AttemptOnce(cfg, d, ok, now);
    assert InOnePlace(d, e.id);
    if Delivered(d, id) { DeliveredGrows(d, after, id); }
    if ok { AcceptDelivers(d, after); }
    AttemptPublishesNothing(d, now, id);
    PublishedAfter(AttemptStore(d.store, e, k, now), MarkFailed(e.id, "broker rejected"), now, id);
  }

  lemma AcceptDelivers(d: Dispatcher, after: Dispatcher)
    requires InOrder(d) && d.worker.Holding?
    requires after.log == d.log && after.accepted == d.accepted + [d.worker.position]
    ensures Delivered(after, d.worker.event.id)
  {
    assert after.accepted[|d.accepted|] == d.worker.position;
  }

  lemma AttemptPublishesNothing(d: Dispatcher, now: nat, id: EventId)
    requires Conserved(d) && d.worker.Holding?
    ensures HasStatus(AttemptStore(d.store, d.worker.event, d.worker.tries, now), id, Published)
         == HasStatus(d.store, id, Published)
  {
    var e, k := d.worker.event, d.worker.tries;
    assert InOnePlace(d, e.id);
    if e.id != 0 {
      AttemptStoreEffect(d.store, e, k, now, id);
      PublishedAfter(d.store, RecordAttempt(e.id), now, id);
    }
  }

  lemma StoreStepHonest(cfg: Config, before: Store, d: Dispatcher, step: Step, now: nat, id: EventId)
    requires HonestAt(before, d, id) && Conserved(d) && Enabled(cfg, d, step)
    requires step.Create? || step.Begin? || step.Check? || step.Report? || step.Replay? || step.Enter?
    ensures HonestAt(before, Apply(cfg, d, step, now), id)
  {
    hide Perform, Hands, Delivered;
    var after := Apply(cfg, d, step, now);
    if Delivered(d, id) { DeliveredGrows(d, after, id); }
    match step
    case Create(t, k, p) => PublishedAfter(d.store, StoreOp.Create(t, k, p), now, id);
    case Begin(event) => PublishedAfter(d.store, MarkDispatching(event.id), now, id);
    case Check(i, _) => PublishedAfter(d.store, MarkFailed(i, "dispatcher not running"), now, id);
    case Report(i, ok, error) =>
      PublishedAfter(d.store, if ok then MarkPublished(i) else MarkFailed(i, error), now, id);
    case Replay(i) => PublishedAfter(d.store, StoreOp.Requeue(i), now, id);
    case Enter(i, _) =>
      var error := if d.admitting[i].stage == Untimed then "queue full"
                   else if d.stopping then "dispatcher stopping"
                   else "queue full (timeout)";
      PublishedAfter(d.store, MarkFailed(i, error), now, id);
  }

  lemma QuietStepHonest(cfg: Config, before: Store, d: Dispatcher, step: Step, now: nat, id: EventId)
    requires HonestAt(before, d, id) && Enabled(cfg, d, step)
    requires step.CheckUntracked? || step.EnterUntracked? || step.Dequeue? || step.Exit? || step.Start?
          || step.BeginStop? || step.FinishStop?
    ensures HonestAt(before, Apply(cfg, d, step, now), id)
  {
    hide Delivered, HasStatus, Occurrences;
    if Delivered(d, id) { DeliveredGrows(d, Apply(cfg, d, step, now), id); }
  }

  lemma StepKeepsHonest(cfg: Config, before: Store, d: Dispatcher, step: Step, now: nat)
    requires Honest(before, d) && InOrder(d) && Conserved(d) && Enabled(cfg, d, step)
    ensures Honest(before, Apply(cfg, d, step, now))
  {
    hide Perform, Conserved, InOrder, Delivered, AttemptStore;
    forall id: EventId ensures HonestAt(before, Apply(cfg, d, step, now), id) {
      assert HonestAt(before, d, id);
      match step
      case Attempt(ok) => AttemptHonest(cfg, before, d, ok, now, id);
      case Create(_, _, _) => StoreStepHonest(cfg, before, d, step, now, id);
      case Begin(_) => StoreStepHonest(cfg, before, d, step, now, id);
      case Check(_, _) => StoreStepHonest(cfg, before, d, step, now, id);
      case Report(_, _, _) => StoreStepHonest(cfg, before, d, step, now, id);
      case Replay(_) => StoreStepHonest(cfg, before, d, step, now, id);
      case Enter(_, _) => StoreStepHonest(cfg, before, d, step, now, id);
      case _ => QuietStepHonest(cfg, before, d, step, now, id);
    }
  }

  /** A success report is harmless exactly when it is about a message the broker holds:
      for an event that is DISPATCHING but elsewhere, it breaks conservation. (A broker
      that invents identifiers for untracked messages can report such a one.) */
  lemma ReportsMustBeAwaited(d: Dispatcher, id: EventId, now: nat)
    requires Conserved(d) && HasStatus(d.store, id, Dispatching)
    ensures var after := d.(store := Perform(d.store, MarkPublished(id), now), awaiting := d.awaiting - {id});
            InOnePlace(after, id) <==> id in d.awaiting
  {
    hide Perform, Occurrences, Sound;
    assert InOnePlace(d, id);
    DispatchingAfter(d.store, MarkPublished(id), now, id);
  }

  // ---------------------------------------------------------------------------
  // Stopping
  // ---------------------------------------------------------------------------

  ghost predicate StopSafe(d: Dispatcher) {
    && (!d.running ==> d.worker == NoThread)
    && (d.running && d.worker == NoThread ==> d.stopping)
    && (d.worker == NoThread ==> |d.queue| == d.late)
    && (d.stopping && !d.raced ==> !UntimedInFlight(d))
    && (d.stopping && !d.raced && d.worker == NoThread ==> d.late == 0)
  }

  lemma StepKeepsStopSafe(cfg: Config, d: Dispatcher, step: Step, now: nat)
    requires StopSafe(d) && Enabled(cfg, d, step)
    ensures StopSafe(Apply(cfg, d, step, now))
  {
    hide Perform, AttemptStore;
  }

  // ---------------------------------------------------------------------------
  // Whole runs
  // ---------------------------------------------------------------------------

  /** A fresh dispatcher over a store with nothing in flight: an empty one, or one just
      loaded from disk (PersistentStores.LoadedIsCounted). */
  ghost predicate Initial(d: Dispatcher) {
    && StoreFine(d.store) && (forall id: EventId :: !HasStatus(d.store, id, Dispatching))
    && d == Dispatcher(d.store, false, false, map[], 0, 0, [], NoThread, {}, [], 0, [], false, 0)
  }

  ghost predicate IsRun(cfg: Config, steps: seq<Step>, clock: nat -> nat, states: seq<Dispatcher>) {
    && |states| == |steps| + 1 && Initial(states[0])
    && forall k :: 0 <= k < |steps| ==>
         Enabled(cfg, states[k], steps[k]) && states[k + 1] == Apply(cfg, states[k], steps[k], clock(k))
  }

  ghost predicate Inv(cfg: Config, before: Store, d: Dispatcher) {
    Conserved(d) && InOrder(d) && Budgeted(cfg, before, d) && Honest(before, d) && StopSafe(d)
  }

  lemma InitialInv(cfg: Config, d: Dispatcher)
    requires Initial(d)
    ensures Inv(cfg, d.store, d)
  {
    forall id: EventId ensures InOnePlace(d, id) && WithinBudget(cfg, d.store, d, id) && HonestAt(d.store, d, id) {
      assert !HasStatus(d.store, id, Dispatching);
      assert Occurrences([], id) == 0 && d.log[..0] == [];
    }
  }

  lemma {:induction false} RunKeepsInv(cfg: Config, steps: seq<Step>, clock: nat -> nat, states: seq<Dispatcher>,
                                       k: nat)
    requires IsRun(cfg, steps, clock, states) && k < |states|
    ensures Inv(cfg, states[0].store, states[k])
  {
    hide Conserved, InOrder, Budgeted, Honest, StopSafe, Apply, Enabled;
    if k == 0 {
      InitialInv(cfg, states[0]);
    } else {
      RunKeepsInv(cfg, steps, clock, states, k - 1);
      var d, step, now := states[k - 1], steps[k - 1], clock(k - 1);
      StepKeepsConserved(cfg, d, step, now);
      StepKeepsOrder(cfg, d, step, now);
      StepKeepsBudget(cfg, states[0].store, d, step, now);
      StepKeepsHonest(cfg, states[0].store, d, step, now);
      StepKeepsStopSafe(cfg, d, step, now);
    }
  }

  /** In every reachable state a tracked event is DISPATCHING iff it is in exactly one of:
      a producer's hands, the queue, the worker's hands, or awaiting its delivery report;
      in every other status it is in none of them. */
  lemma EveryEventInOnePlace(cfg: Config, steps: seq<Step>, clock: nat -> nat, states: seq<Dispatcher>, k: nat,
                             id: EventId)
    requires IsRun(cfg, steps, clock, states) && k < |states| && id != 0
    ensures Hands(states[k], id) <= 1
    ensures Hands(states[k], id) == 1 <==> HasStatus(states[k].store, id, Dispatching)
    ensures Counted(states[k].store)
  {
    RunKeepsInv(cfg, steps, clock, states, k);
    assert InOnePlace(states[k], id);
  }

  /** The queue never holds more than it may. */
  lemma {:induction false} QueueIsBounded(cfg: Config, steps: seq<Step>, clock: nat -> nat, states: seq<Dispatcher>,
                                          k: nat)
    requires IsRun(cfg, steps, clock, states) && k < |states|
    ensures |states[k].queue| <= cfg.maxQueueSize
  {
    if k > 0 {
      QueueIsBounded(cfg, steps, clock, states, k - 1);
      StepBoundsQueue(cfg, states[k - 1], steps[k - 1], clock(k - 1));
    }
  }

  lemma StepBoundsQueue(cfg: Config, d: Dispatcher, step: Step, now: nat)
    requires Enabled(cfg, d, step) && |d.queue| <= cfg.maxQueueSize
    ensures |Apply(cfg, d, step, now).queue| <= cfg.maxQueueSize
  {
    hide Perform, AttemptStore;
  }

  /** In every reachable state the broker has taken messages in the order they entered the
      queue, each log entry at most once, and never more than maxRetries + 1 attempts per
      time an event was taken from the queue. */
  lemma BrokerSeesQueueOrder(cfg: Config, steps: seq<Step>, clock: nat -> nat, states: seq<Dispatcher>, k: nat,
                             id: EventId)
    requires IsRun(cfg, steps, clock, states) && k < |states| && id != 0
    ensures var d := states[k];
            && (forall i, j :: 0 <= i < j < |d.accepted| ==> d.accepted[i] < d.accepted[j])
            && d.taken <= |d.log| && (forall i :: 0 <= i < |d.accepted| ==> d.accepted[i] < d.taken)
            && d.queue == d.log[d.taken..]
            && AttemptsIn(d.store, id) <= AttemptsIn(states[0].store, id)
                                          + (cfg.maxRetries + 1) * Occurrences(d.log[..d.taken], id)
  {
    RunKeepsInv(cfg, steps, clock, states, k);
    assert WithinBudget(cfg, states[0].store, states[k], id);
  }

  /** An event the run did not start with as PUBLISHED is PUBLISHED only if the broker
      took a message for it. */
  lemma PublishedWasTaken(cfg: Config, steps: seq<Step>, clock: nat -> nat, states: seq<Dispatcher>, k: nat,
                          id: EventId)
    requires IsRun(cfg, steps, clock, states) && k < |states|
    requires HasStatus(states[k].store, id, Published) && !HasStatus(states[0].store, id, Published)
    ensures Delivered(states[k], id)
  {
    RunKeepsInv(cfg, steps, clock, states, k);
    assert HonestAt(states[0].store, states[k], id);
  }

  /** A tracked event is PUBLISHED exactly when the run started with it so, or a success
      report for it came while the broker's report was awaited. */
  lemma {:induction false} PublishedIffReported(cfg: Config, steps: seq<Step>, clock: nat -> nat,
                                                states: seq<Dispatcher>, k: nat, id: EventId)
    requires IsRun(cfg, steps, clock, states) && k < |states| && id != 0
    ensures HasStatus(states[k].store, id, Published) <==>
              HasStatus(states[0].store, id, Published) || ReportedBefore(steps, states, k, id)
  {
    if k > 0 {
      hide Apply, Enabled, Inv, Conserved, IsRun, HasStatus, ReportedBefore, SucceedsAt;
      PublishedIffReported(cfg, steps, clock, states, k - 1, id);
      RunKeepsInv(cfg, steps, clock, states, k - 1);
      RunStep(cfg, steps, clock, states, k - 1);
      InvConserves(cfg, states[0].store, states[k - 1]);
      OneStepPublishes(cfg, states[k - 1], steps[k - 1], clock(k - 1), id);
      ReportedSnoc(steps, states, k, id);
    }
  }

  predicate SucceedsAt(step: Step, d: Dispatcher, id: EventId) {
    step.Report? && step.id == id && step.ok && id in d.awaiting
  }

  ghost predicate ReportedBefore(steps: seq<Step>, states: seq<Dispatcher>, k: nat, id: EventId)
    requires k <= |steps| < |states|
  {
    exists i :: 0 <= i < k && SucceedsAt(steps[i], states[i], id)
  }

  lemma ReportedSnoc(steps: seq<Step>, states: seq<Dispatcher>, k: nat, id: EventId)
    requires 0 < k <= |steps| < |states|
    ensures ReportedBefore(steps, states, k, id) <==>
              ReportedBefore(steps, states, k - 1, id) || SucceedsAt(steps[k - 1], states[k - 1], id)
  {
  }

  lemma OneStepPublishes(cfg: Config, d: Dispatcher, step: Step, now: nat, id: EventId)
    requires Conserved(d) && Enabled(cfg, d, step) && id != 0
    ensures HasStatus(Apply(cfg, d, step, now).store, id, Published) <==>
              HasStatus(d.store, id, Published) || SucceedsAt(step, d, id)
  {
    hide Perform, Occurrences, AttemptOnce, GivesUp, Sound, Apply;
    assert InOnePlace(d, id);
    if id in d.store.events {
      StepMoves(cfg, d, step, now, id);
      OneStatus(Apply(cfg, d, step, now).store, id);
      if step.Report? { AwaitedNeedsEnabled(cfg, d, step); }
    } else {
      UnknownIsNotPublished(cfg, d, step, now, id);
    }
  }

  lemma AwaitedNeedsEnabled(cfg: Config, d: Dispatcher, step: Step)
    requires Enabled(cfg, d, step) && step.Report?
    ensures step.id in d.awaiting
  {
  }

  lemma UnknownIsNotPublished(cfg: Config, d: Dispatcher, step: Step, now: nat, id: EventId)
    requires Conserved(d) && Enabled(cfg, d, step) && id != 0 && id !in d.store.events
    ensures !HasStatus(Apply(cfg, d, step, now).store, id, Published)
  {
    hide Perform, Occurrences, Hands, InOnePlace, Counted, Reason;
    if CallsStore(step) {
      assert d.store.nextId !in d.store.events;
      CalledOrSame(cfg, d, step, now);
      StatusAfter(d.store, CallOf(d, step), now, id, Published);
    } else if step.Attempt? {
      AttemptMoves(cfg, d, step.ok, now, id);
    }
  }

  /** Some stop began with an untimed producer past the check, with no start since. */
  ghost predicate StopRaced(steps: seq<Step>, states: seq<Dispatcher>, k: nat)
    requires k <= |steps| < |states|
  {
    exists j :: 0 <= j < k && steps[j] == BeginStop && UntimedInFlight(states[j])
                && forall i :: j < i < k ==> steps[i] != Start
  }

  lemma StopRacedSnoc(steps: seq<Step>, states: seq<Dispatcher>, k: nat)
    requires 0 < k <= |steps| < |states|
    ensures StopRaced(steps, states, k) <==>
              || (steps[k - 1] == BeginStop && UntimedInFlight(states[k - 1]))
              || (StopRaced(steps, states, k - 1) && steps[k - 1] != Start)
  {
    hide UntimedInFlight;
    if StopRaced(steps, states, k - 1) && steps[k - 1] != Start {
      var j :| 0 <= j < k - 1 && steps[j] == BeginStop && UntimedInFlight(states[j])
               && forall i :: j < i < k - 1 ==> steps[i] != Start;
      assert steps[j] == BeginStop && forall i :: j < i < k ==> steps[i] != Start;
    }
  }

  /** The history is no more than it says. */
  lemma {:induction false} RacedIff(cfg: Config, steps: seq<Step>, clock: nat -> nat, states: seq<Dispatcher>, k: nat)
    requires IsRun(cfg, steps, clock, states) && k < |states|
    ensures states[k].raced <==> StopRaced(steps, states, k)
    ensures states[k].raced ==> states[k].stopping
  {
    if k > 0 {
      hide Apply, UntimedInFlight, IsRun, StopRaced, Initial;
      RacedIff(cfg, steps, clock, states, k - 1);
      RunStep(cfg, steps, clock, states, k - 1);
      StopRacedSnoc(steps, states, k);
      RacedStep(cfg, states[k - 1], steps[k - 1], clock(k - 1));
    } else {
      hide UntimedInFlight;
    }
  }

  lemma RacedStep(cfg: Config, d: Dispatcher, step: Step, now: nat)
    requires Enabled(cfg, d, step)
    ensures step != Start && step != BeginStop ==> Apply(cfg, d, step, now).raced == d.raced
    ensures step == BeginStop ==> Apply(cfg, d, step, now).raced == UntimedInFlight(d)
    ensures step == Start ==> !Apply(cfg, d, step, now).raced
    ensures step != Start ==> Apply(cfg, d, step, now).stopping == (d.stopping || step == BeginStop)
  {
    hide Perform, AttemptStore, UntimedInFlight;
  }

  /** A completed stop() leaves in the queue exactly what entered it after the worker had
      ended: nothing, unless some producer without a timeout was past the running check
      when the stop began. */
  lemma StopDrains(cfg: Config, steps: seq<Step>, clock: nat -> nat, states: seq<Dispatcher>, k: nat, id: EventId)
    requires IsRun(cfg, steps, clock, states) && k < |steps| && steps[k] == FinishStop
    ensures |states[k + 1].queue| == states[k].late
    ensures !states[k].raced ==> states[k + 1].queue == []
    ensures !states[k].raced && id != 0 && HasStatus(states[k + 1].store, id, Dispatching) ==>
              id in states[k + 1].admitting || id in states[k + 1].awaiting
  {
    RunKeepsInv(cfg, steps, clock, states, k);
    RunKeepsInv(cfg, steps, clock, states, k + 1);
    assert InOnePlace(states[k + 1], id);
  }

  /** With such a producer the queue can be left non-empty: the worker ends on an empty
      queue, then the producer, which does not look at `stopping` again, enqueues. */
  lemma EnqueueCanOutliveStop(cfg: Config, event: Event) returns (steps: seq<Step>, states: seq<Dispatcher>)
    requires cfg.maxQueueSize > 0 && event.id == 0
    ensures IsRun(cfg, steps, n => n, states)
    ensures steps != [] && steps[|steps| - 1] == FinishStop
    ensures states[|steps|].queue == [event] && states[|steps|].worker == NoThread
  {
    hide Apply, Enabled;
    var d0 := Dispatcher(EMPTY, false, false, map[], 0, 0, [], NoThread, {}, [], 0, [], false, 0);
    EmptyIsFine();
    var d2 := d0.(running := true, worker := Idle, untimed := 1);
    var d4 := d2.(stopping := true, raced := true, worker := NoThread);
    var d5 := d4.(untimed := 0, queue := [event], log := [event], late := 1);
    UpToTheRace(cfg, d0, d2);
    PastTheStop(cfg, event, d2, d4, d5);
    steps := [Start, CheckUntracked(false), BeginStop, Exit, EnterUntracked(event, false, false), FinishStop];
    states := [d0, d2.(untimed := 0), d2, d4.(worker := Idle), d4, d5, d5.(running := false)];
  }

  lemma EmptyIsFine()
    ensures StoreFine(EMPTY)
  {
    assert InStatus(EMPTY.events, Pending) == {} && InStatus(EMPTY.events, Dispatching) == {};
    assert InStatus(EMPTY.events, Published) == {} && InStatus(EMPTY.events, Failed) == {};
  }

  lemma UpToTheRace(cfg: Config, d0: Dispatcher, d2: Dispatcher)
    requires d0 == Dispatcher(EMPTY, false, false, map[], 0, 0, [], NoThread, {}, [], 0, [], false, 0)
    requires d2 == d0.(running := true, worker := Idle, untimed := 1)
    ensures Enabled(cfg, d0, Start) && Enabled(cfg, d2.(untimed := 0), CheckUntracked(false))
    ensures forall now: nat :: Apply(cfg, d0, Start, now) == d2.(untimed := 0)
    ensures forall now: nat :: Apply(cfg, d2.(untimed := 0), CheckUntracked(false), now) == d2
  {
  }

  lemma PastTheStop(cfg: Config, event: Event, d2: Dispatcher, d4: Dispatcher, d5: Dispatcher)
    requires cfg.maxQueueSize > 0 && event.id == 0
    requires d2.running && !d2.stopping && d2.worker == Idle && d2.queue == [] && d2.log == [] && d2.untimed == 1
    requires d2.late == 0 && d4 == d2.(stopping := true, raced := true, worker := NoThread)
    requires d5 == d4.(untimed := 0, queue := [event], log := [event], late := 1)
    ensures Enabled(cfg, d2, BeginStop) && Enabled(cfg, d4.(worker := Idle), Exit)
    ensures Enabled(cfg, d4, EnterUntracked(event, false, false)) && Enabled(cfg, d5, FinishStop)
    ensures forall now: nat :: Apply(cfg, d2, BeginStop, now) == d4.(worker := Idle)
    ensures forall now: nat :: Apply(cfg, d4.(worker := Idle), Exit, now) == d4
    ensures forall now: nat :: Apply(cfg, d4, EnterUntracked(event, false, false), now) == d5
    ensures forall now: nat :: Apply(cfg, d5, FinishStop, now) == d5.(running := false)
  {
  }

  // ---------------------------------------------------------------------------
  // Producers that outlive a stop
  // ---------------------------------------------------------------------------

  /** A stretch of a run, at one clock reading. */
  ghost predicate IsPath(cfg: Config, now: nat, steps: seq<Step>, states: seq<Dispatcher>) {
    && |states| == |steps| + 1
    && forall k :: 0 <= k < |steps| ==>
         Enabled(cfg, states[k], steps[k]) && states[k + 1] == Apply(cfg, states[k], steps[k], now)
  }

  lemma PathThen(cfg: Config, now: nat, steps: seq<Step>, states: seq<Dispatcher>, step: Step)
    requires IsPath(cfg, now, steps, states) && Enabled(cfg, states[|steps|], step)
    ensures IsPath(cfg, now, steps + [step], states + [Apply(cfg, states[|steps|], step, now)])
  {
    hide Enabled, Apply;
    var steps', states' := steps + [step], states + [Apply(cfg, states[|steps|], step, now)];
    forall k | 0 <= k < |steps'|
      ensures Enabled(cfg, states'[k], steps'[k]) && states'[k + 1] == Apply(cfg, states'[k], steps'[k], now)
    {
      if k < |steps| {
        assert Enabled(cfg, states[k], steps[k]) && states[k + 1] == Apply(cfg, states[k], steps[k], now);
      }
    }
  }

  /** What the worker's steps leave alone. */
  ghost predicate SameProducers(d: Dispatcher, after: Dispatcher) {
    && after.admitting == d.admitting && after.untimed == d.untimed && after.raced == d.raced
    && after.running == d.running && after.stopping == d.stopping
  }

  /** The worker empties the queue, the broker taking everything, and stays. */
  lemma {:induction false} WorkerDrains(cfg: Config, now: nat, start: Dispatcher, before: seq<Step>,
                                        visited: seq<Dispatcher>)
    returns (steps: seq<Step>, states: seq<Dispatcher>)
    requires IsPath(cfg, now, before, visited) && visited[0] == start
    requires visited[|before|].worker != NoThread
    ensures IsPath(cfg, now, steps, states) && states[0] == start
    ensures states[|steps|].worker == Idle && states[|steps|].queue == []
    ensures SameProducers(visited[|before|], states[|steps|])
    decreases |visited[|before|].queue|, if visited[|before|].worker.Holding? then 1 else 0
  {
    var d := visited[|before|];
    steps, states := before, visited;
    if d.worker.Holding? {
      PathThen(cfg, now, before, visited, Attempt(true));
      AttemptFrees(cfg, d, now);
      steps, states := WorkerDrains(cfg, now, start, before + [Attempt(true)],
                                    visited + [Apply(cfg, d, Attempt(true), now)]);
    } else if d.queue != [] {
      PathThen(cfg, now, before, visited, Dequeue);
      steps, states := WorkerDrains(cfg, now, start, before + [Dequeue], visited + [Apply(cfg, d, Dequeue, now)]);
    }
  }

  lemma AttemptFrees(cfg: Config, d: Dispatcher, now: nat)
    requires d.worker.Holding?
    ensures var after := Apply(cfg, d, Attempt(true), now);
            after.worker == Idle && after.queue == d.queue && SameProducers(d, after)
  {
  }

  /** The producer's last step: the tracked event `id` enters, or an untracked one. */
  predicate IsLateEntry(d: Dispatcher, step: Step) {
    || (step.Enter? && step.id in d.admitting && d.admitting[step.id].stage == Untimed)
    || (step.EnterUntracked? && !step.timed && step.event.id == 0 && d.untimed > 0)
  }

  function EntryOf(d: Dispatcher, step: Step): Event
    requires IsLateEntry(d, step)
  {
    if step.Enter? then d.admitting[step.id].event else step.event
  }

  /** From every state in which a stop can begin while a producer without a timeout is past
      the running check, tracked or not, some continuation completes the stop with that
      producer's event left in the queue. */
  lemma RacingProducerStrands(cfg: Config, d: Dispatcher, entry: Step, now: nat)
    returns (steps: seq<Step>, states: seq<Dispatcher>)
    requires StopSafe(d) && d.running && !d.stopping && cfg.maxQueueSize > 0 && IsLateEntry(d, entry)
    ensures IsPath(cfg, now, steps, states) && states[0] == d
    ensures steps != [] && steps[0] == BeginStop && steps[|steps| - 1] == FinishStop
    ensures states[|steps|].queue == [EntryOf(d, entry)] && states[|steps|].worker == NoThread
  {
    hide Enabled, Apply;
    BeginsStop(cfg, d, entry, now);
    var first := Apply(cfg, d, BeginStop, now);
    steps, states := WorkerDrainsAfter(cfg, now, d, first);
    var last := states[|steps|];
    LateEntry(cfg, first, last, entry, now);
    PathThen(cfg, now, steps, states, Exit);
    var ended := Apply(cfg, last, Exit, now);
    steps, states := steps + [Exit], states + [ended];
    PathThen(cfg, now, steps, states, entry);
    var late := Apply(cfg, ended, entry, now);
    steps, states := steps + [entry], states + [late];
    PathThen(cfg, now, steps, states, FinishStop);
    steps, states := steps + [FinishStop], states + [Apply(cfg, late, FinishStop, now)];
  }

  lemma BeginsStop(cfg: Config, d: Dispatcher, entry: Step, now: nat)
    requires d.running && !d.stopping && IsLateEntry(d, entry)
    ensures Enabled(cfg, d, BeginStop)
    ensures var first := Apply(cfg, d, BeginStop, now);
            && first.stopping && first.running && IsLateEntry(first, entry)
            && EntryOf(first, entry) == EntryOf(d, entry)
  {
  }

  lemma LateEntry(cfg: Config, first: Dispatcher, last: Dispatcher, entry: Step, now: nat)
    requires cfg.maxQueueSize > 0 && first.stopping && first.running && IsLateEntry(first, entry)
    requires SameProducers(first, last) && last.worker == Idle && last.queue == []
    ensures Enabled(cfg, last, Exit)
    ensures var ended := Apply(cfg, last, Exit, now);
            && Enabled(cfg, ended, entry)
            && var late := Apply(cfg, ended, entry, now);
               && Enabled(cfg, late, FinishStop)
               && var done := Apply(cfg, late, FinishStop, now);
                  done.queue == [EntryOf(first, entry)] && done.worker == NoThread
  {
    hide Perform, AttemptStore, HasStatus;
  }

  lemma WorkerDrainsAfter(cfg: Config, now: nat, d: Dispatcher, first: Dispatcher)
    returns (steps: seq<Step>, states: seq<Dispatcher>)
    requires StopSafe(d) && d.running && !d.stopping && first == Apply(cfg, d, BeginStop, now)
    ensures IsPath(cfg, now, steps, states) && states[0] == d && steps != [] && steps[0] == BeginStop
    ensures states[|steps|].worker == Idle && states[|steps|].queue == [] && SameProducers(first, states[|steps|])
  {
    var later, after := WorkerDrains(cfg, now, first, [], [first]);
    steps, states := [BeginStop] + later, [d] + after;
    hide Enabled, Apply;
    forall k | 0 <= k < |steps|
      ensures Enabled(cfg, states[k], steps[k]) && states[k + 1] == Apply(cfg, states[k], steps[k], now)
    {
      if k > 0 {
        assert Enabled(cfg, after[k - 1], later[k - 1]) && after[k] == Apply(cfg, after[k - 1], later[k - 1], now);
      }
    }
  }

  // ---------------------------------------------------------------------------
  // Recovered events
  // ---------------------------------------------------------------------------

  /** Producers begin only with events just created or just requeued, as the coordinator
      and replay do. */
  ghost predicate Disciplined(steps: seq<Step>, states: seq<Dispatcher>)
    requires |states| == |steps| + 1
  {
    forall k :: 0 <= k < |steps| && steps[k].Begin? ==>
      exists j :: 0 <= j < k && MakesPending(states[j], steps[j], steps[k].event.id)
  }

  ghost predicate MakesPending(d: Dispatcher, step: Step, id: EventId) {
    (step.Create? && d.store.nextId == id) || step == Replay(id)
  }

  /** Nobody picks up what recovery left: an event that is PENDING at the start, such as one
      reset from DISPATCHING by a load, is PENDING in every reachable state. */
  lemma {:induction false} RecoveredStaysPending(cfg: Config, steps: seq<Step>, clock: nat -> nat,
                                                 states: seq<Dispatcher>, k: nat, id: EventId)
    requires IsRun(cfg, steps, clock, states) && Disciplined(steps, states) && k < |states|
    requires HasStatus(states[0].store, id, Pending)
    ensures HasStatus(states[k].store, id, Pending) && NeverMade(steps, states, k, id)
  {
    if k > 0 {
      hide Inv, Apply, Enabled, HasStatus, MakesPending, Disciplined, IsRun, Initial, NeverMade, Conserved;
      RecoveredStaysPending(cfg, steps, clock, states, k - 1, id);
      NeverBegun(steps, states, k - 1, id);
      RunKeepsInv(cfg, steps, clock, states, k - 1);
      RunStep(cfg, steps, clock, states, k - 1);
      InvConserves(cfg, states[0].store, states[k - 1]);
      StepLeavesPending(cfg, states[k - 1], steps[k - 1], clock(k - 1), id);
      NeverMadeSnoc(steps, states, k, id);
    } else {
      assert |states| == |steps| + 1;
    }
  }

  lemma InvConserves(cfg: Config, before: Store, d: Dispatcher)
    requires Inv(cfg, before, d)
    ensures Conserved(d)
  {
  }

  /** The event is neither created nor requeued in the first k steps. */
  ghost predicate NeverMade(steps: seq<Step>, states: seq<Dispatcher>, k: nat, id: EventId)
    requires k <= |steps| < |states|
  {
    forall j :: 0 <= j < k ==> !MakesPending(states[j], steps[j], id)
  }

  lemma NeverMadeSnoc(steps: seq<Step>, states: seq<Dispatcher>, k: nat, id: EventId)
    requires 0 < k <= |steps| < |states|
    requires NeverMade(steps, states, k - 1, id) && !MakesPending(states[k - 1], steps[k - 1], id)
    ensures NeverMade(steps, states, k, id)
  {
  }

  lemma NeverBegun(steps: seq<Step>, states: seq<Dispatcher>, k: nat, id: EventId)
    requires |states| == |steps| + 1 && Disciplined(steps, states) && k < |steps|
    requires NeverMade(steps, states, k, id)
    ensures !(steps[k].Begin? && steps[k].event.id == id)
  {
  }

  lemma RunStep(cfg: Config, steps: seq<Step>, clock: nat -> nat, states: seq<Dispatcher>, k: nat)
    requires IsRun(cfg, steps, clock, states) && k < |steps|
    ensures |states| == |steps| + 1
    ensures Enabled(cfg, states[k], steps[k]) && states[k + 1] == Apply(cfg, states[k], steps[k], clock(k))
  {
  }

  lemma PendingAfter(s: Store, op: StoreOp, now: nat, id: EventId)
    requires HasStatus(s, id, Pending) && op != MarkDispatching(id)
    ensures HasStatus(Perform(s, op, now), id, Pending)
  {
  }

  lemma AttemptLeavesPending(cfg: Config, d: Dispatcher, ok: bool, now: nat, id: EventId)
    requires Conserved(d) && d.worker.Holding? && HasStatus(d.store, id, Pending)
    ensures HasStatus(AttemptOnce(cfg, d, ok, now).store, id, Pending)
  {
    hide Perform, Hands, Occurrences, Sound, AttemptStore;
    var e, k := d.worker.event, d.worker.tries;
    HeldIsDispatching(d);
    AttemptStoreEffect(d.store, e, k, now, id);
    PendingAfter(d.store, RecordAttempt(e.id), now, id);
    AttemptOfUntracked(d.store, e, k, now);
    PendingAfter(AttemptStore(d.store, e, k, now), MarkFailed(e.id, "broker rejected"), now, id);
  }

  lemma AttemptOfUntracked(s: Store, event: Event, tries: nat, now: nat)
    ensures event.id == 0 ==> AttemptStore(s, event, tries, now) == s
  {
  }

  lemma StepLeavesPending(cfg: Config, d: Dispatcher, step: Step, now: nat, id: EventId)
    requires Conserved(d) && Enabled(cfg, d, step) && HasStatus(d.store, id, Pending)
    requires !(step.Begin? && step.event.id == id)
    ensures HasStatus(Apply(cfg, d, step, now).store, id, Pending) && !MakesPending(d, step, id)
  {
    hide Perform, Hands, Occurrences, InOnePlace, AttemptOnce;
    match step
    case Create(t, k, p) => PendingAfter(d.store, StoreOp.Create(t, k, p), now, id);
    case Begin(event) => PendingAfter(d.store, MarkDispatching(event.id), now, id);
    case Check(i, _) => PendingAfter(d.store, MarkFailed(i, "dispatcher not running"), now, id);
    case Enter(i, _) =>
      var error := if d.admitting[i].stage == Untimed then "queue full"
                   else if d.stopping then "dispatcher stopping"
                   else "queue full (timeout)";
      PendingAfter(d.store, MarkFailed(i, error), now, id);
    case Attempt(ok) => AttemptLeavesPending(cfg, d, ok, now, id);
    case Report(i, ok, error) => PendingAfter(d.store, if ok then MarkPublished(i) else MarkFailed(i, error), now, id);
    case Replay(i) => PendingAfter(d.store, StoreOp.Requeue(i), now, id);
    case _ =>
  }

  lemma HeldIsDispatching(d: Dispatcher)
    requires Conserved(d) && d.worker.Holding?
    ensures d.worker.event.id != 0 ==> HasStatus(d.store, d.worker.event.id, Dispatching)
  {
    assert InOnePlace(d, d.worker.event.id);
  }

  // ---------------------------------------------------------------------------
  // The worker's side, as code
  // ---------------------------------------------------------------------------

  /** Attempts with the given broker answers until the worker lets the event go. */
  ghost function AttemptAll(cfg: Config, d: Dispatcher, answers: seq<bool>, now: nat): Dispatcher
    requires d.worker.Holding?
    decreases |answers|
  {
    if answers == [] then d
    else
      var next := AttemptOnce(cfg, d, answers[0], now);
      if next.worker.Holding? then AttemptAll(cfg, next, answers[1..], now) else next
  }

  /** A refused producer marks its event FAILED. */
  function Refused(s: Store, id: EventId, ok: bool, error: string, now: nat): Store {
    if ok then s else Perform(s, MarkFailed(id, error), now)
  }

  /** What a replay makes of one event. */
  predicate Replayed(before: StoredEvent, after: StoredEvent, queue: seq<Event>) {
    if before.status != Failed then after == before
    else
      && after.id == before.id && after.topic == before.topic && after.key == before.key
      && after.payload == before.payload && after.attempts == before.attempts
      && (after.status == Failed
          || (after.status == Dispatching && Event(before.id, before.topic, before.key, before.payload) in queue))
  }

  class EventDispatcher {
    const cfg: Config
    const store: EventStore
    var queue: seq<Event>
    var running: bool
    var stopping: bool
    var enqueued: nat
    var rejected: nat
    var published: nat
    var brokerErrors: nat
    var retried: nat

    constructor (cfg: Config, store: EventStore)
      ensures this.cfg == cfg && this.store == store
      ensures queue == [] && !running && !stopping
    {
      this.cfg, this.store := cfg, store;
      queue, running, stopping := [], false, false;
      enqueued, rejected, published, brokerErrors, retried := 0, 0, 0, 0, 0;
    }

    /** The critical section of `enqueue_with_event`, for a producer past the running
        check; `expired` says the deadline passed first. */
    method EnterQueue(event: Event, timed: bool, expired: bool, now: nat, ghost d: Dispatcher) returns (ok: bool)
      requires d.queue == queue && d.stopping == stopping && d.store == store.Model()
      requires event.id in d.admitting
      requires d.admitting[event.id] == Producer(event, if timed then Timed else Untimed)
      requires Enabled(cfg, d, Enter(event.id, expired))
      modifies this, store
      ensures queue == Apply(cfg, d, Enter(event.id, expired), now).queue
      ensures store.Model() == Apply(cfg, d, Enter(event.id, expired), now).store
      ensures ok <==> |old(queue)| < cfg.maxQueueSize && !(timed && stopping)
      ensures ok ==> store.Model() == old(store.Model())
      ensures !ok && old(HasStatus(store.Model(), event.id, Dispatching)) ==>
                IsFailed(store.Model(), event.id, if !timed then "queue full"
                                                  else if stopping then "dispatcher stopping"
                                                  else "queue full (timeout)")
      ensures queue == old(queue) + if ok then [event] else []
      ensures enqueued + rejected == old(enqueued + rejected) + 1
      ensures running == old(running) && stopping == old(stopping)
    {
      ok := false;
      if !timed {
        if |queue| >= cfg.maxQueueSize {
          store.Fail(event.id, "queue full", now);
          rejected := rejected + 1;
          return;
        }
      } else {
        if expired && |queue| >= cfg.maxQueueSize && !stopping {
          store.Fail(event.id, "queue full (timeout)", now);
          rejected := rejected + 1;
          return;
        }
        if stopping {
          store.Fail(event.id, "dispatcher stopping", now);
          rejected := rejected + 1;
          return;
        }
      }
      queue := queue + [event];
      enqueued := enqueued + 1;
      ok := true;
    }

    /** `enqueue_with_event` without a timeout, undisturbed by other threads. */
    method EnqueueWithEvent(event: Event, now: nat) returns (ok: bool)
      modifies this, store
      ensures ok <==> running && !stopping && |old(queue)| < cfg.maxQueueSize
      ensures queue == old(queue) + if ok then [event] else []
      ensures running == old(running) && stopping == old(stopping)
      ensures store.Model() == Refused(Perform(old(store.Model()), MarkDispatching(event.id), now), event.id, ok,
                                       if running && !stopping then "queue full" else "dispatcher not running", now)
      ensures old(HasStatus(store.Model(), event.id, Pending)) ==>
                if ok then HasStatus(store.Model(), event.id, Dispatching)
                else IsFailed(store.Model(), event.id,
                              if running && !stopping then "queue full" else "dispatcher not running")
    {
      store.Dispatch(event.id, now);
      if !running || stopping {
        store.Fail(event.id, "dispatcher not running", now);
        rejected := rejected + 1;
        return false;
      }
      if |queue| >= cfg.maxQueueSize {
        store.Fail(event.id, "queue full", now);
        rejected := rejected + 1;
        return false;
      }
      queue := queue + [event];
      enqueued := enqueued + 1;
      ok := true;
    }

    /** `replay_failed`: every event that was FAILED is requeued once. It ends up either in
        the queue, DISPATCHING, with its stored topic, key and payload, or FAILED again;
        every other event is left alone. */
    method ReplayFailed(now: nat) returns (requeued: nat)
      requires Keyed(store.events)
      modifies this, store
      ensures requeued == |InStatus(old(store.events), Failed)|
      ensures store.stats.retried == old(store.stats.retried) + requeued
      ensures old(queue) <= queue && store.events.Keys == old(store.events.Keys)
      ensures forall id :: id in store.events ==> Replayed(old(store.events)[id], store.events[id], queue)
    {
      var ids := InStatus(store.events, Failed);
      ghost var events := store.events;
      requeued := 0;
      var remaining := ids;
      while remaining != {}
        invariant remaining <= ids == InStatus(events, Failed)
        invariant requeued == |ids| - |remaining|
        invariant store.stats.retried == old(store.stats.retried) + requeued
        invariant old(queue) <= queue && store.events.Keys == events.Keys
        invariant forall id :: id in remaining ==> store.events[id] == events[id]
        invariant forall id :: id in events && id !in remaining ==> Replayed(events[id], store.events[id], queue)
        decreases remaining
      {
        var id :| id in remaining;
        ReplayOne(id, now);
        requeued := requeued + 1;
        remaining := remaining - {id};
      }
    }

    /** One turn of `replay_failed`. */
    method ReplayOne(id: EventId, now: nat)
      requires Keyed(store.events) && HasStatus(store.Model(), id, Failed)
      modifies this, store
      ensures Keyed(store.events) && store.events.Keys == old(store.events.Keys) && old(queue) <= queue
      ensures forall other :: other in store.events && other != id ==> store.events[other] == old(store.events)[other]
      ensures Replayed(old(store.events)[id], store.events[id], queue)
      ensures store.stats.retried == old(store.stats.retried) + 1
    {
      var stored := store.events[id];
      var requeued := store.Retry(id, now);
      var ok := EnqueueWithEvent(Event(id, stored.topic, stored.key, stored.payload), now);
      if ok { assert queue[|queue| - 1] == Event(id, stored.topic, stored.key, stored.payload); }
    }

    method RecordTry(event: Event, attempt: nat, now: nat)
      modifies store
      ensures store.Model() == AttemptStore(old(store.Model()), event, attempt, now)
      ensures old(HasStatus(store.Model(), event.id, Dispatching)) ==> HasStatus(store.Model(), event.id, Dispatching)
    {
      if event.id != 0 {
        if attempt > 0 {
          var requeued := store.Retry(event.id, now);
          store.Dispatch(event.id, now);
        }
        store.Attempt(event.id, now);
      }
    }

    /** The delivery callback: a success publishes the event, a failure fails it with the
        broker's reason. */
    method OnDelivery(id: EventId, success: bool, error: string, now: nat, ghost d: Dispatcher)
      requires d.store == store.Model() && Conserved(d) && Enabled(cfg, d, Report(id, success, error))
      modifies store
      ensures store.Model() == Apply(cfg, d, Report(id, success, error), now).store
      ensures HasStatus(store.Model(), id, if success then Published else Failed)
      ensures !success ==> store.events[id].error == error
    {
      assert InOnePlace(d, id);
      if success {
        store.Publish(id, now);
      } else {
        store.Fail(id, error, now);
      }
    }

    /** `process_event`: refines the worker's Attempt steps. `answers` is what the broker
        would say to each attempt. */
    method ProcessEvent(event: Event, answers: seq<bool>, now: nat, ghost d: Dispatcher) returns (ok: bool, tries: nat)
      requires d.worker.Holding? && d.worker.event == event && d.worker.tries == 0
      requires d.store == store.Model() && |answers| == cfg.maxRetries + 1
      modifies this, store
      ensures store.Model() == AttemptAll(cfg, d, answers, now).store
      ensures AttemptAll(cfg, d, answers, now).worker == Idle
      ensures ok == (true in answers) && 1 <= tries <= cfg.maxRetries + 1
      ensures ok ==> answers[tries - 1] && true !in answers[..tries - 1]
      ensures !ok ==> tries == cfg.maxRetries + 1
      ensures event.id != 0 && old(HasStatus(store.Model(), event.id, Dispatching)) ==>
                if ok then HasStatus(store.Model(), event.id, Dispatching)
                else IsFailed(store.Model(), event.id, "broker rejected")
      ensures published == old(published) + (if ok then 1 else 0)
      ensures brokerErrors == old(brokerErrors) + tries - (if ok then 1 else 0)
      ensures retried == old(retried) + tries - 1
      ensures queue == old(queue)
    {
      hide Perform, HasStatus, AttemptStore, IsFailed, AttemptOnce, AttemptAll;
      ghost var cur := d;
      ghost var dispatching := HasStatus(store.Model(), event.id, Dispatching);
      assert answers[0..] == answers;
      tries := 0;
      while tries < cfg.maxRetries + 1
        invariant 0 <= tries <= cfg.maxRetries + 1
        invariant cur.worker.Holding? && cur.worker.event == event
        invariant forall i :: 0 <= i < tries ==> !answers[i]
        invariant tries <= cfg.maxRetries ==>
                    && cur.worker.tries == tries && cur.store == store.Model()
                    && AttemptAll(cfg, cur, answers[tries..], now) == AttemptAll(cfg, d, answers, now)
        invariant tries == cfg.maxRetries + 1 ==>
                    && cur.worker.tries == cfg.maxRetries
                    && store.Model() == AttemptStore(cur.store, event, cfg.maxRetries, now)
                    && AttemptOnce(cfg, cur, false, now) == AttemptAll(cfg, d, answers, now)
        invariant dispatching ==> HasStatus(store.Model(), event.id, Dispatching)
        invariant published == old(published) && brokerErrors == old(brokerErrors) + tries
        invariant retried == old(retried) + if tries == 0 then 0 else tries - 1
        invariant queue == old(queue)
      {
        RecordTry(event, tries, now);
        if tries > 0 {
          retried := retried + 1;
        }
        AttemptAllHead(cfg, cur, answers, tries, now);
        OneAttempt(cfg, cur, answers[tries], now);
        if answers[tries] {
          published := published + 1;
          tries := tries + 1;
          ok := true;
          return;
        }
        brokerErrors := brokerErrors + 1;
        cur := if tries < cfg.maxRetries then AttemptOnce(cfg, cur, false, now) else cur;
        tries := tries + 1;
      }
      OneAttempt(cfg, cur, false, now);
      if event.id != 0 {
        FailEnds(store.Model(), event.id, "broker rejected", now);
        store.Fail(event.id, "broker rejected", now);
      }
      ok := false;
    }
  }

  /** The event is FAILED for this reason. */
  predicate IsFailed(s: Store, id: EventId, error: string) {
    HasStatus(s, id, Failed) && s.events[id].error == error
  }

  lemma FailEnds(s: Store, id: EventId, error: string, now: nat)
    ensures HasStatus(s, id, Dispatching) ==> IsFailed(Perform(s, MarkFailed(id, error), now), id, error)
  {
  }

  lemma OneAttempt(cfg: Config, d: Dispatcher, ok: bool, now: nat)
    requires d.worker.Holding?
    ensures var e, k, next := d.worker.event, d.worker.tries, AttemptOnce(cfg, d, ok, now);
            var tried := AttemptStore(d.store, e, k, now);
            if !ok && k < cfg.maxRetries then
              next.store == tried && next.worker == Holding(e, d.worker.position, k + 1)
            else
              && next.worker == Idle
              && next.store == if ok || e.id == 0 then tried
                               else Perform(tried, MarkFailed(e.id, "broker rejected"), now)
  {
    hide Perform, AttemptStore;
  }

  lemma AttemptAllHead(cfg: Config, d: Dispatcher, answers: seq<bool>, n: nat, now: nat)
    requires d.worker.Holding? && n < |answers|
    ensures AttemptAll(cfg, d, answers[n..], now) ==
      var next := AttemptOnce(cfg, d, answers[n], now);
      if next.worker.Holding? then AttemptAll(cfg, next, answers[n + 1..], now) else next
  {
    assert answers[n..][1..] == answers[n + 1..];
  }
}

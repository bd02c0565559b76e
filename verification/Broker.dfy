/** src/in_memory_message_broker.cpp: per-topic queues, consumer threads that call a
    handler without holding the lock, retries up to a limit, dead letters, and a stop that
    drains. Each step is one critical section. */
module Brokers {
  import opened Wrappers
  import opened Sorting

  datatype Config = Config(maxQueueSize: nat, consumerThreads: nat, maxDeliveryAttempts: nat,
                           enableIdempotency: bool, idempotencyWindow: nat)

  datatype Message = Message(id: nat, payload: string, offset: nat, attempts: nat)

  datatype Topic = Topic(
    name: string,
    pending: seq<Message>,
    dead: seq<Message>,
    busy: map<nat, Message>,     // consumer threads inside the handler
    alive: set<nat>,             // consumer threads that have not ended
    subscribed: bool,
    next: nat,
    acked: set<nat>,             // history: offsets acknowledged
    late: nat)                   // history: messages published since the consumers ended

  datatype Broker = Broker(
    topics: seq<Topic>, running: bool, nextId: nat, processed: set<nat>,
    published: nat, delivered: nat, acknowledged: nat, retried: nat, deadLettered: nat)

  datatype Step =
    | Subscribe(name: string)
    | Start
    | BeginStop
    | Publish(name: string, id: nat, payload: string)
    | Take(topic: nat, thread: nat)
    | Settle(topic: nat, thread: nat, ok: bool)
    | End(topic: nat, thread: nat)

  function NewTopic(name: string): Topic {
    Topic(name, [], [], map[], {}, false, 0, {}, 0)
  }

  function Find(topics: seq<Topic>, name: string): (found: Option<nat>)
    ensures found.Some? ==> found.value < |topics| && topics[found.value].name == name
    ensures found.None? ==> forall i :: 0 <= i < |topics| ==> topics[i].name != name
  {
    if topics == [] then None
    else if topics[|topics| - 1].name == name then Some(|topics| - 1)
    else Find(topics[..|topics| - 1], name)
  }

  function WithTopic(topics: seq<Topic>, name: string): seq<Topic> {
    if Find(topics, name).Some? then topics else topics + [NewTopic(name)]
  }

  function IndexOf(topics: seq<Topic>, name: string): (i: nat)
    ensures i < |WithTopic(topics, name)|
  {
    if Find(topics, name).Some? then Find(topics, name).value else |topics|
  }

  /** `publish` waits until the topic's queue has room; a new topic always has. */
  predicate HasRoom(cfg: Config, topics: seq<Topic>, name: string) {
    var found := Find(topics, name);
    found.Some? ==> |topics[found.value].pending| < cfg.maxQueueSize
  }

  ghost predicate Enabled(cfg: Config, b: Broker, step: Step) {
    match step
    case Subscribe(_) => !b.running
    case Start => !b.running && forall i :: 0 <= i < |b.topics| ==> b.topics[i].alive == {}
    case BeginStop => b.running
    case Publish(name, _, _) => HasRoom(cfg, b.topics, name)
    case Take(i, t) =>
      i < |b.topics| && t in b.topics[i].alive && t !in b.topics[i].busy && b.topics[i].pending != []
    case Settle(i, t, _) =>
      i < |b.topics| && t in b.topics[i].busy
    case End(i, t) =>
      && !b.running && i < |b.topics| && t in b.topics[i].alive && t !in b.topics[i].busy
      && b.topics[i].pending == []
  }

  function Seen(cfg: Config, b: Broker, id: nat): bool {
    cfg.enableIdempotency && id in b.processed
  }

  function Remember(cfg: Config, processed: set<nat>, id: nat): set<nat> {
    if !cfg.enableIdempotency then processed
    else if |processed| >= cfg.idempotencyWindow then {id}
    else processed + {id}
  }

  /** One topic's part of each step. */
  function Enqueued(t: Topic, id: nat, payload: string): Topic {
    t.(pending := t.pending + [Message(id, payload, t.next, 0)], next := t.next + 1,
       late := if t.alive == {} then t.late + 1 else t.late)
  }

  function Front(t: Topic): Message
    requires t.pending != []
  {
    t.pending[0].(attempts := t.pending[0].attempts + 1)
  }

  function Taken(t: Topic, thread: nat, seen: bool): Topic
    requires t.pending != []
  {
    if seen then t.(pending := t.pending[1..], acked := t.acked + {Front(t).offset})
    else t.(pending := t.pending[1..], busy := t.busy[thread := Front(t)])
  }

  function Ended(t: Topic, thread: nat): Topic {
    t.(alive := t.alive - {thread}, late := 0)
  }

  datatype Verdict = Acknowledge | Retry | DeadLetter

  function Judge(cfg: Config, message: Message, running: bool, ok: bool): Verdict {
    if ok then Acknowledge
    else if message.attempts >= cfg.maxDeliveryAttempts || !running then DeadLetter
    else Retry
  }

  function Settled(t: Topic, thread: nat, verdict: Verdict): Topic
    requires thread in t.busy
  {
    var message, free := t.busy[thread], t.(busy := t.busy - {thread});
    match verdict
    case Acknowledge => free.(acked := t.acked + {message.offset})
    case Retry => free.(pending := t.pending + [message])
    case DeadLetter => free.(dead := t.dead + [message])
  }

  function PublishTo(b: Broker, name: string, id: nat, payload: string): Broker {
    var topics, i := WithTopic(b.topics, name), IndexOf(b.topics, name);
    b.(topics := topics[i := Enqueued(topics[i], if id == 0 then b.nextId else id, payload)],
       nextId := if id == 0 then b.nextId + 1 else b.nextId,
       published := b.published + 1)
  }

  function TakeFront(cfg: Config, b: Broker, i: nat, thread: nat): Broker
    requires i < |b.topics| && b.topics[i].pending != []
  {
    var seen := Seen(cfg, b, Front(b.topics[i]).id);
    b.(topics := b.topics[i := Taken(b.topics[i], thread, seen)],
       delivered := b.delivered + 1,
       acknowledged := if seen then b.acknowledged + 1 else b.acknowledged)
  }

  function SettleOne(cfg: Config, b: Broker, i: nat, thread: nat, ok: bool): Broker
    requires i < |b.topics| && thread in b.topics[i].busy
  {
    var message := b.topics[i].busy[thread];
    var verdict := Judge(cfg, message, b.running, ok);
    b.(topics := b.topics[i := Settled(b.topics[i], thread, verdict)],
       acknowledged := if verdict == Acknowledge then b.acknowledged + 1 else b.acknowledged,
       processed := if verdict == Acknowledge then Remember(cfg, b.processed, message.id) else b.processed,
       retried := if verdict == Retry then b.retried + 1 else b.retried,
       deadLettered := if verdict == DeadLetter then b.deadLettered + 1 else b.deadLettered)
  }

  function Started(cfg: Config, t: Topic): Topic {
    if t.subscribed then t.(alive := Below(cfg.consumerThreads)) else t
  }

  ghost function Apply(cfg: Config, b: Broker, step: Step): Broker
    requires Enabled(cfg, b, step)
  {
    match step
    case Subscribe(name) =>
      var topics, i := WithTopic(b.topics, name), IndexOf(b.topics, name);
      b.(topics := topics[i := topics[i].(subscribed := true)])
    case Start =>
      b.(running := true, topics := seq(|b.topics|, i requires 0 <= i < |b.topics| => Started(cfg, b.topics[i])))
    case BeginStop => b.(running := false)
    case Publish(name, id, payload) => PublishTo(b, name, id, payload)
    case Take(i, thread) => TakeFront(cfg, b, i, thread)
    case Settle(i, thread, ok) => SettleOne(cfg, b, i, thread, ok)
    case End(i, thread) =>
      b.(topics := b.topics[i := Ended(b.topics[i], thread)])
  }

  // ---------------------------------------------------------------------------
  // Sums over topics
  // ---------------------------------------------------------------------------

  function Total(topics: seq<Topic>, size: Topic -> nat): nat {
    if topics == [] then 0 else Total(topics[..|topics| - 1], size) + size(topics[|topics| - 1])
  }

  function PendingIn(t: Topic): nat { |t.pending| }
  function BusyIn(t: Topic): nat { |t.busy| }
  function DeadIn(t: Topic): nat { |t.dead| }
  function AliveIn(t: Topic): nat { |t.alive| }

  lemma {:induction false} TotalUpdate(topics: seq<Topic>, i: nat, t: Topic, size: Topic -> nat)
    requires i < |topics|
    ensures Total(topics[i := t], size) == Total(topics, size) - size(topics[i]) + size(t)
  {
    var n := |topics| - 1;
    assert topics[i := t][..n] == if i < n then topics[..n][i := t] else topics[..n];
    if i < n { TotalUpdate(topics[..n], i, t, size); }
  }

  lemma TotalSnoc(topics: seq<Topic>, t: Topic, size: Topic -> nat)
    ensures Total(topics + [t], size) == Total(topics, size) + size(t)
  {
    assert (topics + [t])[..|topics|] == topics;
  }

  lemma {:induction false} TotalSame(a: seq<Topic>, b: seq<Topic>, size: Topic -> nat)
    requires |a| == |b| && forall i :: 0 <= i < |a| ==> size(a[i]) == size(b[i])
    ensures Total(a, size) == Total(b, size)
  {
    if a != [] { TotalSame(a[..|a| - 1], b[..|b| - 1], size); }
  }

  lemma WithTopicTotals(topics: seq<Topic>, name: string, size: Topic -> nat)
    requires size(NewTopic(name)) == 0
    ensures Total(WithTopic(topics, name), size) == Total(topics, size)
  {
    TotalSnoc(topics, NewTopic(name), size);
  }

  // ---------------------------------------------------------------------------
  // Conservation
  // ---------------------------------------------------------------------------

  /** published = pending + in a handler + acknowledged + dead;
      delivered = acknowledged + retried + dead + in a handler. */
  ghost predicate Balanced(b: Broker) {
    && b.published == Total(b.topics, PendingIn) + Total(b.topics, BusyIn) + b.acknowledged + b.deadLettered
    && b.delivered == b.acknowledged + b.retried + b.deadLettered + Total(b.topics, BusyIn)
    && b.deadLettered == Total(b.topics, DeadIn)
  }

  function Most(a: nat, b: nat): nat { if a < b then b else a }

  /** Bounds on one topic. */
  ghost predicate Bounded(cfg: Config, t: Topic) {
    && |t.pending| + |t.busy| <= Most(1, cfg.maxQueueSize) + cfg.consumerThreads
    && t.alive <= Below(cfg.consumerThreads) && t.busy.Keys <= t.alive
    && (forall m :: m in t.pending ==> m.attempts < Most(1, cfg.maxDeliveryAttempts))
    && (forall k :: k in t.busy ==> 1 <= t.busy[k].attempts <= Most(1, cfg.maxDeliveryAttempts))
    && (forall m :: m in t.dead ==> 1 <= m.attempts <= Most(1, cfg.maxDeliveryAttempts))
  }

  function CountOf(messages: seq<Message>, offset: nat): nat {
    if messages == [] then 0
    else CountOf(messages[..|messages| - 1], offset) + (if messages[|messages| - 1].offset == offset then 1 else 0)
  }

  function Handling(busy: map<nat, Message>, offset: nat): set<nat> {
    set k | k in busy && busy[k].offset == offset
  }

  /** In how many places the message with this offset is. */
  function Places(t: Topic, offset: nat): nat {
    CountOf(t.pending, offset) + |Handling(t.busy, offset)| + CountOf(t.dead, offset)
    + (if offset in t.acked then 1 else 0)
  }

  /** Each published message is in exactly one place; nothing else is anywhere. */
  ghost predicate Whole(t: Topic, offset: nat) {
    Places(t, offset) == if offset < t.next then 1 else 0
  }

  ghost predicate TopicFine(cfg: Config, t: Topic) {
    Bounded(cfg, t) && forall offset: nat :: Whole(t, offset)
  }

  ghost predicate Inv(cfg: Config, b: Broker) {
    Balanced(b) && forall i :: 0 <= i < |b.topics| ==> TopicFine(cfg, b.topics[i])
  }

  lemma CountSnoc(messages: seq<Message>, m: Message, offset: nat)
    ensures CountOf(messages + [m], offset) == CountOf(messages, offset) + if m.offset == offset then 1 else 0
  {
    assert (messages + [m])[..|messages|] == messages;
  }

  lemma {:induction false} CountHead(messages: seq<Message>, offset: nat)
    requires messages != []
    ensures CountOf(messages, offset)
         == (if messages[0].offset == offset then 1 else 0) + CountOf(messages[1..], offset)
  {
    var n := |messages| - 1;
    if n > 0 {
      CountHead(messages[..n], offset);
      assert messages[1..][..n - 1] == messages[..n][1..];
    }
  }

  lemma HandlingAdds(busy: map<nat, Message>, k: nat, m: Message, offset: nat)
    requires k !in busy
    ensures |Handling(busy[k := m], offset)| == |Handling(busy, offset)| + if m.offset == offset then 1 else 0
    ensures |busy[k := m]| == |busy| + 1
  {
    assert Handling(busy[k := m], offset)
        == if m.offset == offset then Handling(busy, offset) + {k} else Handling(busy, offset);
    assert busy[k := m].Keys == busy.Keys + {k};
  }

  lemma HandlingDrops(busy: map<nat, Message>, k: nat, offset: nat)
    requires k in busy
    ensures |Handling(busy - {k}, offset)| == |Handling(busy, offset)| - if busy[k].offset == offset then 1 else 0
    ensures |busy - {k}| == |busy| - 1
  {
    assert Handling(busy, offset)
        == Handling(busy - {k}, offset) + if busy[k].offset == offset then {k} else {};
    assert busy.Keys == (busy - {k}).Keys + {k};
  }

  lemma EnqueueFine(cfg: Config, t: Topic, id: nat, payload: string)
    requires TopicFine(cfg, t) && (|t.pending| < cfg.maxQueueSize || (t.pending == [] && t.busy == map[]))
    ensures TopicFine(cfg, Enqueued(t, id, payload))
  {
    hide CountOf;
    var after := Enqueued(t, id, payload);
    SubsetSize(t.busy.Keys, Below(cfg.consumerThreads));
    assert |t.busy.Keys| == |t.busy|;
    forall offset: nat ensures Whole(after, offset) {
      assert Whole(t, offset);
      CountSnoc(t.pending, Message(id, payload, t.next, 0), offset);
    }
  }

  lemma TakeFine(cfg: Config, t: Topic, thread: nat, seen: bool)
    requires TopicFine(cfg, t) && t.pending != [] && thread in t.alive && thread !in t.busy
    ensures TopicFine(cfg, Taken(t, thread, seen))
  {
    hide CountOf, Handling;
    var after := Taken(t, thread, seen);
    assert t.pending[0] in t.pending;
    HandlingAdds(t.busy, thread, Front(t), 0);
    forall offset: nat ensures Whole(after, offset) {
      assert Whole(t, offset);
      CountHead(t.pending, offset);
      HandlingAdds(t.busy, thread, Front(t), offset);
    }
  }

  lemma SettleFine(cfg: Config, t: Topic, thread: nat, ok: bool, running: bool)
    requires TopicFine(cfg, t) && thread in t.busy
    ensures TopicFine(cfg, Settled(t, thread, Judge(cfg, t.busy[thread], running, ok)))
  {
    hide CountOf, Handling, Whole;
    var verdict := Judge(cfg, t.busy[thread], running, ok);
    HandlingDrops(t.busy, thread, 0);
    assert (t.busy - {thread}).Keys <= t.busy.Keys;
    forall offset: nat ensures Whole(Settled(t, thread, verdict), offset) {
      SettleWhole(t, thread, verdict, offset);
    }
  }

  lemma SettleWhole(t: Topic, thread: nat, verdict: Verdict, offset: nat)
    requires thread in t.busy && Whole(t, offset)
    ensures Whole(Settled(t, thread, verdict), offset)
  {
    hide CountOf, Handling;
    var message := t.busy[thread];
    HandlingDrops(t.busy, thread, offset);
    CountSnoc(t.pending, message, offset);
    CountSnoc(t.dead, message, offset);
  }

  // ---------------------------------------------------------------------------
  // Every step
  // ---------------------------------------------------------------------------

  lemma PublishBalanced(b: Broker, name: string, id: nat, payload: string)
    requires Balanced(b)
    ensures Balanced(PublishTo(b, name, id, payload))
  {
    hide Total;
    var topics, i := WithTopic(b.topics, name), IndexOf(b.topics, name);
    var t := Enqueued(topics[i], if id == 0 then b.nextId else id, payload);
    WithTopicTotals(b.topics, name, PendingIn);
    WithTopicTotals(b.topics, name, BusyIn);
    WithTopicTotals(b.topics, name, DeadIn);
    TotalUpdate(topics, i, t, PendingIn);
    TotalUpdate(topics, i, t, BusyIn);
    TotalUpdate(topics, i, t, DeadIn);
  }

  lemma TakeBalanced(cfg: Config, b: Broker, i: nat, thread: nat)
    requires Balanced(b) && i < |b.topics| && b.topics[i].pending != [] && thread !in b.topics[i].busy
    ensures Balanced(TakeFront(cfg, b, i, thread))
  {
    hide Total;
    var t := Taken(b.topics[i], thread, Seen(cfg, b, Front(b.topics[i]).id));
    HandlingAdds(b.topics[i].busy, thread, Front(b.topics[i]), 0);
    TotalUpdate(b.topics, i, t, PendingIn);
    TotalUpdate(b.topics, i, t, BusyIn);
    TotalUpdate(b.topics, i, t, DeadIn);
  }

  lemma SettleBalanced(cfg: Config, b: Broker, i: nat, thread: nat, ok: bool)
    requires Balanced(b) && i < |b.topics| && thread in b.topics[i].busy
    ensures Balanced(SettleOne(cfg, b, i, thread, ok))
  {
    hide Total;
    var t := Settled(b.topics[i], thread, Judge(cfg, b.topics[i].busy[thread], b.running, ok));
    HandlingDrops(b.topics[i].busy, thread, 0);
    TotalUpdate(b.topics, i, t, PendingIn);
    TotalUpdate(b.topics, i, t, BusyIn);
    TotalUpdate(b.topics, i, t, DeadIn);
  }

  lemma QuietBalanced(cfg: Config, b: Broker, step: Step)
    requires Balanced(b) && Enabled(cfg, b, step)
    requires step.Subscribe? || step.Start? || step.BeginStop? || step.End?
    ensures Balanced(Apply(cfg, b, step))
  {
    hide Total;
    var after := Apply(cfg, b, step);
    match step
    case Subscribe(name) =>
      WithTopicTotals(b.topics, name, PendingIn);
      WithTopicTotals(b.topics, name, BusyIn);
      WithTopicTotals(b.topics, name, DeadIn);
      var topics := WithTopic(b.topics, name);
      TotalSame(topics, after.topics, PendingIn);
      TotalSame(topics, after.topics, BusyIn);
      TotalSame(topics, after.topics, DeadIn);
    case BeginStop =>
    case _ =>
      TotalSame(b.topics, after.topics, PendingIn);
      TotalSame(b.topics, after.topics, BusyIn);
      TotalSame(b.topics, after.topics, DeadIn);
  }

  lemma StepKeepsBalance(cfg: Config, b: Broker, step: Step)
    requires Balanced(b) && Enabled(cfg, b, step)
    ensures Balanced(Apply(cfg, b, step))
  {
    hide Balanced;
    match step
    case Publish(name, id, payload) => PublishBalanced(b, name, id, payload);
    case Take(i, thread) => TakeBalanced(cfg, b, i, thread);
    case Settle(i, thread, ok) => SettleBalanced(cfg, b, i, thread, ok);
    case _ => QuietBalanced(cfg, b, step);
  }

  ghost predicate AllFine(cfg: Config, topics: seq<Topic>) {
    forall i :: 0 <= i < |topics| ==> TopicFine(cfg, topics[i])
  }

  lemma NewTopicFine(cfg: Config, name: string)
    ensures TopicFine(cfg, NewTopic(name))
  {
    forall offset: nat ensures Whole(NewTopic(name), offset) {
      assert Handling(map[], offset) == {};
    }
  }

  lemma WithTopicFine(cfg: Config, topics: seq<Topic>, name: string)
    requires AllFine(cfg, topics)
    ensures AllFine(cfg, WithTopic(topics, name))
  {
    NewTopicFine(cfg, name);
  }

  lemma ThreadsChangeFine(cfg: Config, t: Topic, alive: set<nat>, subscribed: bool, late: nat)
    requires TopicFine(cfg, t) && t.busy.Keys <= alive <= Below(cfg.consumerThreads)
    ensures TopicFine(cfg, t.(alive := alive, subscribed := subscribed, late := late))
  {
    forall offset: nat ensures Whole(t.(alive := alive, subscribed := subscribed, late := late), offset) {
      assert Whole(t, offset);
    }
  }

  lemma ThreadStepFine(cfg: Config, b: Broker, step: Step)
    requires AllFine(cfg, b.topics) && Enabled(cfg, b, step) && (step.Start? || step.End? || step.Subscribe?)
    ensures AllFine(cfg, Apply(cfg, b, step).topics)
  {
    hide Whole;
    var after := Apply(cfg, b, step).topics;
    match step
    case Subscribe(name) =>
      WithTopicFine(cfg, b.topics, name);
      var t := WithTopic(b.topics, name)[IndexOf(b.topics, name)];
      ThreadsChangeFine(cfg, t, t.alive, true, t.late);
    case Start =>
      forall i | 0 <= i < |after| ensures TopicFine(cfg, after[i]) {
        ThreadsChangeFine(cfg, b.topics[i], Below(cfg.consumerThreads), b.topics[i].subscribed, b.topics[i].late);
      }
    case End(i, thread) =>
      ThreadsChangeFine(cfg, b.topics[i], b.topics[i].alive - {thread}, b.topics[i].subscribed, 0);
  }

  lemma StepKeepsFine(cfg: Config, b: Broker, step: Step)
    requires AllFine(cfg, b.topics) && Enabled(cfg, b, step)
    ensures AllFine(cfg, Apply(cfg, b, step).topics)
  {
    hide TopicFine, Enqueued, Taken, Settled;
    match step
    case BeginStop =>
    case Publish(name, id, payload) =>
      WithTopicFine(cfg, b.topics, name);
      var t := WithTopic(b.topics, name)[IndexOf(b.topics, name)];
      EnqueueFine(cfg, t, if id == 0 then b.nextId else id, payload);
    case Take(i, thread) => TakeFine(cfg, b.topics[i], thread, Seen(cfg, b, Front(b.topics[i]).id));
    case Settle(i, thread, ok) => SettleFine(cfg, b.topics[i], thread, ok, b.running);
    case _ => ThreadStepFine(cfg, b, step);
  }

  // ---------------------------------------------------------------------------
  // Whole runs
  // ---------------------------------------------------------------------------

  const EMPTY := Broker([], false, 1, {}, 0, 0, 0, 0, 0)

  ghost predicate IsPath(cfg: Config, steps: seq<Step>, states: seq<Broker>) {
    && |states| == |steps| + 1
    && forall k :: 0 <= k < |steps| ==>
         Enabled(cfg, states[k], steps[k]) && states[k + 1] == Apply(cfg, states[k], steps[k])
  }

  /** In every reachable state both conservation laws hold; in every topic each published
      message is in exactly one place, none has been tried more than
      max(1, maxDeliveryAttempts) times, and queue plus handlers stay within bounds. */
  lemma {:induction false} EveryRunIsConserved(cfg: Config, steps: seq<Step>, states: seq<Broker>, k: nat)
    requires IsPath(cfg, steps, states) && states[0] == EMPTY && k < |states|
    ensures Inv(cfg, states[k])
  {
    hide Balanced, TopicFine, Apply, Enabled;
    if k == 0 {
      EmptyBalanced();
    } else {
      EveryRunIsConserved(cfg, steps, states, k - 1);
      StepKeepsBalance(cfg, states[k - 1], steps[k - 1]);
      StepKeepsFine(cfg, states[k - 1], steps[k - 1]);
    }
  }

  lemma EmptyBalanced()
    ensures Balanced(EMPTY)
  {
  }

  // ---------------------------------------------------------------------------
  // Why a message is acknowledged, tried again or dead
  // ---------------------------------------------------------------------------

  lemma {:induction false} CountedIff(messages: seq<Message>, offset: nat)
    ensures CountOf(messages, offset) == 0 <==> forall m :: m in messages ==> m.offset != offset
  {
    if messages != [] {
      var init := messages[..|messages| - 1];
      CountedIff(init, offset);
      assert messages == init + [messages[|messages| - 1]];
    }
  }

  /** A message in a handler is nowhere else. */
  lemma OnlyInHandler(t: Topic, thread: nat)
    requires thread in t.busy && Whole(t, t.busy[thread].offset)
    ensures var offset := t.busy[thread].offset;
            && offset < t.next && offset !in t.acked
            && (forall m :: m in t.pending ==> m.offset != offset)
            && (forall m :: m in t.dead ==> m.offset != offset)
            && (forall other :: other in t.busy && other != thread ==> t.busy[other].offset != offset)
  {
    var offset := t.busy[thread].offset;
    CountedIff(t.pending, offset);
    CountedIff(t.dead, offset);
    HandlingDrops(t.busy, thread, offset);
    var others := Handling(t.busy - {thread}, offset);
    assert thread in Handling(t.busy, offset);
    assert others == {};
    forall other | other in t.busy && other != thread ensures t.busy[other].offset != offset {
      assert other !in others;
    }
  }

  /** The handler's answer decides: accepted, the message is acknowledged and its identifier
      remembered; refused, it goes to the back of the queue with its attempts, or is dead when
      it has had all of them or the broker is stopping. */
  lemma AnswerDecides(cfg: Config, b: Broker, i: nat, thread: nat, ok: bool)
    requires Inv(cfg, b) && Enabled(cfg, b, Settle(i, thread, ok))
    ensures var t, after := b.topics[i], Apply(cfg, b, Settle(i, thread, ok));
            var m, t' := t.busy[thread], after.topics[i];
            && (m.offset in t'.acked <==> ok)
            && t'.busy == t.busy - {thread}
            && t'.pending == t.pending + (if !ok && m.attempts < cfg.maxDeliveryAttempts && b.running then [m] else [])
            && t'.dead == t.dead + (if !ok && (m.attempts >= cfg.maxDeliveryAttempts || !b.running) then [m] else [])
            && (ok && cfg.enableIdempotency ==>
                  && m.id in after.processed && after.processed <= b.processed + {m.id}
                  && (|b.processed| < cfg.idempotencyWindow ==> b.processed <= after.processed)
                  && (|b.processed| >= cfg.idempotencyWindow ==> |after.processed| == 1))
            && (!ok ==> after.processed == b.processed)
  {
    assert TopicFine(cfg, b.topics[i]) && Whole(b.topics[i], b.topics[i].busy[thread].offset);
    OnlyInHandler(b.topics[i], thread);
  }

  /** This step acknowledges the message: its handler has accepted it, or its identifier had
      been processed before. */
  ghost predicate Acknowledges(cfg: Config, b: Broker, step: Step, i: nat, offset: nat) {
    i < |b.topics| &&
    match step
    case Settle(j, thread, ok) =>
      j == i && ok && thread in b.topics[i].busy && b.topics[i].busy[thread].offset == offset
    case Take(j, _) =>
      && j == i && b.topics[i].pending != [] && b.topics[i].pending[0].offset == offset
      && cfg.enableIdempotency && b.topics[i].pending[0].id in b.processed
    case _ => false
  }

  /** This step refuses the message. */
  ghost predicate Refuses(b: Broker, step: Step, i: nat, offset: nat) {
    && i < |b.topics| && step.Settle? && step.topic == i && !step.ok
    && step.thread in b.topics[i].busy && b.topics[i].busy[step.thread].offset == offset
  }

  ghost predicate IsAcked(b: Broker, i: nat, offset: nat) { i < |b.topics| && offset in b.topics[i].acked }
  ghost predicate IsDead(b: Broker, i: nat, offset: nat) {
    i < |b.topics| && exists m :: m in b.topics[i].dead && m.offset == offset
  }

  lemma StepAcknowledges(cfg: Config, b: Broker, step: Step, i: nat, offset: nat)
    requires Enabled(cfg, b, step)
    ensures IsAcked(Apply(cfg, b, step), i, offset) <==> IsAcked(b, i, offset) || Acknowledges(cfg, b, step, i, offset)
  {
  }

  ghost predicate AcknowledgedBefore(cfg: Config, steps: seq<Step>, states: seq<Broker>, k: nat, i: nat, offset: nat)
    requires k <= |steps| < |states|
  {
    exists j :: 0 <= j < k && Acknowledges(cfg, states[j], steps[j], i, offset)
  }

  /** In every run a message is acknowledged exactly when its handler has accepted it, or it
      was taken with an identifier processed before. */
  lemma {:induction false} AcknowledgedIff(cfg: Config, steps: seq<Step>, states: seq<Broker>, k: nat,
                                           i: nat, offset: nat)
    requires IsPath(cfg, steps, states) && states[0] == EMPTY && k < |states|
    ensures IsAcked(states[k], i, offset) <==> AcknowledgedBefore(cfg, steps, states, k, i, offset)
  {
    if k > 0 {
      hide Apply, Enabled, Acknowledges;
      AcknowledgedIff(cfg, steps, states, k - 1, i, offset);
      StepAcknowledges(cfg, states[k - 1], steps[k - 1], i, offset);
      assert AcknowledgedBefore(cfg, steps, states, k, i, offset) <==>
        AcknowledgedBefore(cfg, steps, states, k - 1, i, offset)
        || Acknowledges(cfg, states[k - 1], steps[k - 1], i, offset);
    }
  }

  /** How often the message has been refused. */
  ghost function Refusals(steps: seq<Step>, states: seq<Broker>, k: nat, i: nat, offset: nat): nat
    requires k <= |steps| < |states|
  {
    if k == 0 then 0
    else Refusals(steps, states, k - 1, i, offset) + (if Refuses(states[k - 1], steps[k - 1], i, offset) then 1 else 0)
  }

  /** The attempts of a message are its refusals, and the one under way. */
  ghost predicate Tried(t: Topic, offset: nat, refusals: nat) {
    && (forall m :: m in t.pending && m.offset == offset ==> m.attempts == refusals)
    && (forall m :: m in t.dead && m.offset == offset ==> m.attempts == refusals)
    && (forall k :: k in t.busy && t.busy[k].offset == offset ==> t.busy[k].attempts == refusals + 1)
    && (offset >= t.next ==> refusals == 0)
  }

  ghost predicate TriedAt(b: Broker, i: nat, offset: nat, refusals: nat) {
    if i < |b.topics| then Tried(b.topics[i], offset, refusals) else refusals == 0
  }

  lemma StepTries(cfg: Config, b: Broker, step: Step, i: nat, offset: nat, refusals: nat)
    requires AllFine(cfg, b.topics) && Enabled(cfg, b, step) && TriedAt(b, i, offset, refusals)
    ensures TriedAt(Apply(cfg, b, step), i, offset, refusals + if Refuses(b, step, i, offset) then 1 else 0)
  {
    hide AllFine, Apply, Enabled, Tried, TriedAt, Refuses;
    match step
    case Settle(_, _, _) => SettleStepTries(cfg, b, step, i, offset, refusals);
    case _ => OtherStepTries(cfg, b, step, i, offset, refusals);
  }

  lemma SettleStepTries(cfg: Config, b: Broker, step: Step, i: nat, offset: nat, refusals: nat)
    requires AllFine(cfg, b.topics) && Enabled(cfg, b, step) && step.Settle? && TriedAt(b, i, offset, refusals)
    ensures TriedAt(Apply(cfg, b, step), i, offset, refusals + if Refuses(b, step, i, offset) then 1 else 0)
  {
    hide CountOf, Handling, Places, Tried, Bounded;
    if step.topic == i {
      var t := b.topics[i];
      assert Whole(t, t.busy[step.thread].offset);
      OnlyInHandler(t, step.thread);
      SettleTries(t, step.thread, Judge(cfg, t.busy[step.thread], b.running, step.ok), step.ok, offset, refusals);
    }
  }

  lemma OtherStepTries(cfg: Config, b: Broker, step: Step, i: nat, offset: nat, refusals: nat)
    requires Enabled(cfg, b, step) && !step.Settle? && TriedAt(b, i, offset, refusals)
    ensures TriedAt(Apply(cfg, b, step), i, offset, refusals) && !Refuses(b, step, i, offset)
  {
    match step
    case Take(j, thread) =>
      hide Tried;
      if j == i { TakeTries(b.topics[i], thread, Seen(cfg, b, Front(b.topics[i]).id), offset, refusals); }
    case Publish(name, id, payload) => PublishTries(b, name, id, payload, i, offset, refusals);
    case _ =>
  }

  lemma SettleTries(t: Topic, thread: nat, verdict: Verdict, ok: bool, offset: nat, refusals: nat)
    requires thread in t.busy && Tried(t, offset, refusals)
    requires verdict == Acknowledge <==> ok
    requires forall m :: m in t.pending ==> m.offset != t.busy[thread].offset
    requires forall m :: m in t.dead ==> m.offset != t.busy[thread].offset
    requires forall other :: other in t.busy && other != thread ==> t.busy[other].offset != t.busy[thread].offset
    requires t.busy[thread].offset < t.next
    ensures Tried(Settled(t, thread, verdict), offset,
                  refusals + if !ok && t.busy[thread].offset == offset then 1 else 0)
  {
  }

  lemma TakeTries(t: Topic, thread: nat, seen: bool, offset: nat, refusals: nat)
    requires t.pending != [] && thread !in t.busy && Tried(t, offset, refusals)
    ensures Tried(Taken(t, thread, seen), offset, refusals)
  {
    assert t.pending[0] in t.pending;
    assert forall m :: m in t.pending[1..] ==> m in t.pending;
  }

  lemma PublishTries(b: Broker, name: string, id: nat, payload: string, i: nat, offset: nat, refusals: nat)
    requires TriedAt(b, i, offset, refusals)
    ensures TriedAt(PublishTo(b, name, id, payload), i, offset, refusals)
  {
    var topics := WithTopic(b.topics, name);
    if i < |topics| {
      assert Tried(topics[i], offset, refusals);
    }
  }

  /** In every run the attempts of a message are exactly the times its handler refused it,
      and one more while it is being handled. */
  lemma {:induction false} AttemptsAreRefusals(cfg: Config, steps: seq<Step>, states: seq<Broker>, k: nat,
                                               i: nat, offset: nat)
    requires IsPath(cfg, steps, states) && states[0] == EMPTY && k < |states|
    ensures TriedAt(states[k], i, offset, Refusals(steps, states, k, i, offset))
  {
    if k > 0 {
      hide Apply, Enabled, Refuses, TriedAt, TopicFine, Balanced;
      AttemptsAreRefusals(cfg, steps, states, k - 1, i, offset);
      EveryRunIsConserved(cfg, steps, states, k - 1);
      StepTries(cfg, states[k - 1], steps[k - 1], i, offset, Refusals(steps, states, k - 1, i, offset));
    } else {
      NothingTried(i, offset);
    }
  }

  lemma NothingTried(i: nat, offset: nat)
    ensures TriedAt(EMPTY, i, offset, 0)
  {
  }

  /** This refusal was the last one: the message had had all its attempts, or the broker was
      stopping. */
  ghost predicate Buries(cfg: Config, steps: seq<Step>, states: seq<Broker>, j: nat, i: nat, offset: nat)
    requires j < |steps| < |states|
  {
    && Refuses(states[j], steps[j], i, offset)
    && (Refusals(steps, states, j, i, offset) + 1 >= cfg.maxDeliveryAttempts || !states[j].running)
  }

  lemma StepBuries(cfg: Config, steps: seq<Step>, states: seq<Broker>, j: nat, i: nat, offset: nat)
    requires IsPath(cfg, steps, states) && states[0] == EMPTY && j < |steps|
    ensures IsDead(states[j + 1], i, offset) <==>
              IsDead(states[j], i, offset) || Buries(cfg, steps, states, j, i, offset)
  {
    var b, step := states[j], steps[j];
    AttemptsAreRefusals(cfg, steps, states, j, i, offset);
    hide Refusals, IsPath;
    assert Enabled(cfg, b, step) && states[j + 1] == Apply(cfg, b, step) by { StepOfPath(cfg, steps, states, j); }
    if step.Settle? {
      SettleBuries(cfg, b, step, i, offset);
    } else {
      OthersBuryNone(cfg, b, step, i, offset);
    }
  }

  lemma StepOfPath(cfg: Config, steps: seq<Step>, states: seq<Broker>, j: nat)
    requires IsPath(cfg, steps, states) && j < |steps|
    ensures Enabled(cfg, states[j], steps[j]) && states[j + 1] == Apply(cfg, states[j], steps[j])
  {
  }

  lemma SettleBuries(cfg: Config, b: Broker, step: Step, i: nat, offset: nat)
    requires Enabled(cfg, b, step) && step.Settle?
    ensures IsDead(Apply(cfg, b, step), i, offset) <==>
              || IsDead(b, i, offset)
              || (Refuses(b, step, i, offset)
                  && (b.topics[i].busy[step.thread].attempts >= cfg.maxDeliveryAttempts || !b.running))
  {
    var m := b.topics[step.topic].busy[step.thread];
    var after := Apply(cfg, b, step).topics[step.topic];
    assert after.dead == b.topics[step.topic].dead
        || (after.dead == b.topics[step.topic].dead + [m] && m in after.dead);
  }

  lemma OthersBuryNone(cfg: Config, b: Broker, step: Step, i: nat, offset: nat)
    requires Enabled(cfg, b, step) && !step.Settle?
    ensures IsDead(Apply(cfg, b, step), i, offset) <==> IsDead(b, i, offset)
  {
  }

  ghost predicate BuriedBefore(cfg: Config, steps: seq<Step>, states: seq<Broker>, k: nat, i: nat, offset: nat)
    requires k <= |steps| < |states|
  {
    exists j :: 0 <= j < k && Buries(cfg, steps, states, j, i, offset)
  }

  /** In every run a message is dead exactly when it has been refused as often as it may be
      delivered, or refused once the broker was stopping. */
  lemma {:induction false} DeadIff(cfg: Config, steps: seq<Step>, states: seq<Broker>, k: nat, i: nat, offset: nat)
    requires IsPath(cfg, steps, states) && states[0] == EMPTY && k < |states|
    ensures IsDead(states[k], i, offset) <==> BuriedBefore(cfg, steps, states, k, i, offset)
  {
    if k > 0 {
      hide Apply, Enabled, Buries, IsDead;
      DeadIff(cfg, steps, states, k - 1, i, offset);
      StepBuries(cfg, steps, states, k - 1, i, offset);
      assert BuriedBefore(cfg, steps, states, k, i, offset) <==>
        BuriedBefore(cfg, steps, states, k - 1, i, offset) || Buries(cfg, steps, states, k - 1, i, offset);
    } else {
      NoneDead(i, offset);
    }
  }

  lemma NoneDead(i: nat, offset: nat)
    ensures !IsDead(EMPTY, i, offset)
  {
  }

  // ---------------------------------------------------------------------------
  // Order
  // ---------------------------------------------------------------------------

  /** Messages not yet delivered wait in the order of their offsets. */
  ghost predicate Orderly(t: Topic) {
    && (forall a :: 0 <= a < |t.pending| && t.pending[a].attempts == 0 ==> t.pending[a].offset < t.next)
    && (forall a, c :: 0 <= a < c < |t.pending| && t.pending[a].attempts == t.pending[c].attempts == 0 ==>
          t.pending[a].offset < t.pending[c].offset)
    && (forall k :: k in t.busy ==> t.busy[k].attempts > 0)
  }

  ghost predicate AllOrderly(topics: seq<Topic>) {
    forall i :: 0 <= i < |topics| ==> Orderly(topics[i])
  }

  lemma StepKeepsOrder(cfg: Config, b: Broker, step: Step)
    requires AllOrderly(b.topics) && Enabled(cfg, b, step)
    ensures AllOrderly(Apply(cfg, b, step).topics)
  {
    hide Orderly;
    match step
    case Publish(name, id, payload) =>
      NewTopicOrderly(name);
      assert AllOrderly(WithTopic(b.topics, name));
      EnqueuedOrderly(WithTopic(b.topics, name)[IndexOf(b.topics, name)], if id == 0 then b.nextId else id, payload);
    case Subscribe(name) =>
      NewTopicOrderly(name);
      assert AllOrderly(WithTopic(b.topics, name));
      var t := WithTopic(b.topics, name)[IndexOf(b.topics, name)];
      SameOrderly(t, t.(subscribed := true));
    case Start =>
      forall i | 0 <= i < |b.topics| ensures Orderly(Started(cfg, b.topics[i])) {
        SameOrderly(b.topics[i], Started(cfg, b.topics[i]));
      }
    case BeginStop =>
    case Take(i, thread) => TakenOrderly(b.topics[i], thread, Seen(cfg, b, Front(b.topics[i]).id));
    case Settle(i, thread, ok) =>
      SettledOrderly(b.topics[i], thread, Judge(cfg, b.topics[i].busy[thread], b.running, ok));
    case End(i, thread) => SameOrderly(b.topics[i], Ended(b.topics[i], thread));
  }

  lemma NewTopicOrderly(name: string)
    ensures Orderly(NewTopic(name))
  {
  }

  lemma SameOrderly(t: Topic, after: Topic)
    requires Orderly(t) && after.pending == t.pending && after.busy == t.busy && after.next == t.next
    ensures Orderly(after)
  {
  }

  lemma EnqueuedOrderly(t: Topic, id: nat, payload: string)
    requires Orderly(t)
    ensures Orderly(Enqueued(t, id, payload))
  {
  }

  lemma TakenOrderly(t: Topic, thread: nat, seen: bool)
    requires Orderly(t) && t.pending != []
    ensures Orderly(Taken(t, thread, seen))
  {
  }

  lemma SettledOrderly(t: Topic, thread: nat, verdict: Verdict)
    requires Orderly(t) && thread in t.busy
    ensures Orderly(Settled(t, thread, verdict))
  {
  }

  lemma {:induction false} RunKeepsOrder(cfg: Config, steps: seq<Step>, states: seq<Broker>, k: nat)
    requires IsPath(cfg, steps, states) && states[0] == EMPTY && k < |states|
    ensures AllOrderly(states[k].topics)
  {
    if k > 0 {
      hide Apply, Enabled, AllOrderly;
      RunKeepsOrder(cfg, steps, states, k - 1);
      StepKeepsOrder(cfg, states[k - 1], steps[k - 1]);
    }
  }

  /** First deliveries are in publish order: a message taken for the first time comes before
      every other that still waits for its first delivery. */
  lemma FirstDeliveriesInOrder(cfg: Config, steps: seq<Step>, states: seq<Broker>, k: nat, a: nat)
    requires IsPath(cfg, steps, states) && states[0] == EMPTY && k < |steps| && steps[k].Take?
    requires var t := states[k].topics[steps[k].topic];
             t.pending[0].attempts == 0 && 0 < a < |t.pending| && t.pending[a].attempts == 0
    ensures var t := states[k].topics[steps[k].topic]; t.pending[0].offset < t.pending[a].offset
  {
    RunKeepsOrder(cfg, steps, states, k);
    assert Orderly(states[k].topics[steps[k].topic]);
  }

  // ---------------------------------------------------------------------------
  // Draining
  // ---------------------------------------------------------------------------

  /** What is left to do once the broker has begun to stop. */
  ghost function Remaining(b: Broker): nat {
    2 * Total(b.topics, PendingIn) + Total(b.topics, BusyIn) + Total(b.topics, AliveIn)
  }

  predicate IsDrain(step: Step) { step.Take? || step.Settle? || step.End? }

  /** While stopping, every consumer step makes progress: nothing is retried any more. */
  lemma DrainDecreases(cfg: Config, b: Broker, step: Step)
    requires !b.running && Enabled(cfg, b, step) && IsDrain(step)
    ensures !Apply(cfg, b, step).running && Remaining(Apply(cfg, b, step)) < Remaining(b)
  {
    hide Total;
    var i := step.topic;
    var t := Apply(cfg, b, step).topics[i];
    if step.Take? { HandlingAdds(b.topics[i].busy, step.thread, Front(b.topics[i]), 0); }
    if step.Settle? { HandlingDrops(b.topics[i].busy, step.thread, 0); }
    if step.End? { assert b.topics[i].alive == t.alive + {step.thread}; }
    TotalUpdate(b.topics, i, t, PendingIn);
    TotalUpdate(b.topics, i, t, BusyIn);
    TotalUpdate(b.topics, i, t, AliveIn);
  }

  /** Publishing does not look at whether the broker is stopping, and adds two to what is left. */
  lemma PublishAdds(cfg: Config, b: Broker, step: Step)
    requires Enabled(cfg, b, step) && step.Publish?
    ensures Remaining(Apply(cfg, b, step)) == Remaining(b) + 2
    ensures Apply(cfg, b, step).running == b.running
  {
    hide Total;
    var topics, i := WithTopic(b.topics, step.name), IndexOf(b.topics, step.name);
    var t := Enqueued(topics[i], if step.id == 0 then b.nextId else step.id, step.payload);
    WithTopicTotals(b.topics, step.name, PendingIn);
    WithTopicTotals(b.topics, step.name, BusyIn);
    WithTopicTotals(b.topics, step.name, AliveIn);
    TotalUpdate(topics, i, t, PendingIn);
    TotalUpdate(topics, i, t, BusyIn);
    TotalUpdate(topics, i, t, AliveIn);
  }

  lemma SubscribeAdds(cfg: Config, b: Broker, step: Step)
    requires Enabled(cfg, b, step) && step.Subscribe?
    ensures Remaining(Apply(cfg, b, step)) == Remaining(b)
    ensures !Apply(cfg, b, step).running
  {
    hide Total;
    var topics, after := WithTopic(b.topics, step.name), Apply(cfg, b, step).topics;
    WithTopicTotals(b.topics, step.name, PendingIn);
    WithTopicTotals(b.topics, step.name, BusyIn);
    WithTopicTotals(b.topics, step.name, AliveIn);
    TotalSame(topics, after, PendingIn);
    TotalSame(topics, after, BusyIn);
    TotalSame(topics, after, AliveIn);
  }

  function DrainSteps(steps: seq<Step>): nat {
    if steps == [] then 0
    else DrainSteps(steps[..|steps| - 1]) + (if IsDrain(steps[|steps| - 1]) then 1 else 0)
  }

  function Publishes(steps: seq<Step>): nat {
    if steps == [] then 0
    else Publishes(steps[..|steps| - 1]) + (if steps[|steps| - 1].Publish? then 1 else 0)
  }

  /** So from the moment a stop begins until a new start, the consumers take no more steps
      than were left plus two for every message published meanwhile, whatever the handlers
      answer and however the publishers interleave. */
  lemma {:induction false} DrainTerminates(cfg: Config, steps: seq<Step>, states: seq<Broker>)
    requires IsPath(cfg, steps, states) && !states[0].running
    requires forall k :: 0 <= k < |steps| ==> steps[k] != Start
    ensures !states[|steps|].running
    ensures DrainSteps(steps) + Remaining(states[|steps|]) <= Remaining(states[0]) + 2 * Publishes(steps)
  {
    hide Apply, Remaining;
    if steps != [] {
      var n := |steps| - 1;
      assert IsPath(cfg, steps[..n], states[..n + 1]);
      DrainTerminates(cfg, steps[..n], states[..n + 1]);
      match steps[n]
      case Publish(_, _, _) => PublishAdds(cfg, states[n], steps[n]);
      case Subscribe(_) => SubscribeAdds(cfg, states[n], steps[n]);
      case Take(_, _) => DrainDecreases(cfg, states[n], steps[n]);
      case Settle(_, _, _) => DrainDecreases(cfg, states[n], steps[n]);
      case End(_, _) => DrainDecreases(cfg, states[n], steps[n]);
    }
  }

  /** Until every consumer thread has ended, some consumer step is possible. */
  lemma DrainNeverStuck(cfg: Config, b: Broker, i: nat, thread: nat) returns (step: Step)
    requires !b.running && i < |b.topics| && thread in b.topics[i].alive
    ensures IsDrain(step) && Enabled(cfg, b, step)
  {
    var t := b.topics[i];
    step := if thread in t.busy then Settle(i, thread, false)
            else if t.pending == [] then End(i, thread)
            else Take(i, thread);
  }

  /** A topic without consumers has queued exactly what came since they ended. */
  ghost predicate LateOnly(t: Topic) {
    && t.busy.Keys <= t.alive
    && (t.alive == {} ==> |t.pending| == t.late)
  }

  ghost predicate AllLateOnly(topics: seq<Topic>) {
    forall i :: 0 <= i < |topics| ==> LateOnly(topics[i])
  }

  lemma StepKeepsLate(cfg: Config, b: Broker, step: Step)
    requires AllLateOnly(b.topics) && Enabled(cfg, b, step)
    ensures AllLateOnly(Apply(cfg, b, step).topics)
  {
    match step
    case Publish(name, _, _) => assert AllLateOnly(WithTopic(b.topics, name));
    case Subscribe(name) => assert AllLateOnly(WithTopic(b.topics, name));
    case Start =>
    case BeginStop =>
    case Take(i, thread) =>
    case Settle(i, thread, _) => assert thread in b.topics[i].alive;
    case End(i, thread) =>
  }

  lemma {:induction false} RunKeepsLate(cfg: Config, steps: seq<Step>, states: seq<Broker>, k: nat)
    requires IsPath(cfg, steps, states) && states[0] == EMPTY && k < |states|
    ensures AllLateOnly(states[k].topics)
  {
    if k > 0 {
      hide Apply, Enabled, AllLateOnly;
      RunKeepsLate(cfg, steps, states, k - 1);
      StepKeepsLate(cfg, states[k - 1], steps[k - 1]);
    }
  }

  /** A drain loses nothing a consumer could have taken: in every reachable state a topic
      whose consumers have ended has no handler running, and its queue holds exactly as
      many messages as were published since they ended; it is empty iff there were none. */
  lemma DrainEmpties(cfg: Config, steps: seq<Step>, states: seq<Broker>, k: nat, i: nat)
    requires IsPath(cfg, steps, states) && states[0] == EMPTY && k < |states|
    requires i < |states[k].topics| && states[k].topics[i].alive == {}
    ensures states[k].topics[i].busy == map[]
    ensures |states[k].topics[i].pending| == states[k].topics[i].late
  {
    RunKeepsLate(cfg, steps, states, k);
    assert LateOnly(states[k].topics[i]);
    assert states[k].topics[i].busy.Keys == {};
  }

  /** Nothing will take such a message: while the broker is stopped and the consumers of
      its topic have ended, no step but a new start touches the queue's front. */
  lemma LateMessagesStay(cfg: Config, b: Broker, step: Step, i: nat)
    requires !b.running && Enabled(cfg, b, step) && step != Start
    requires i < |b.topics| && LateOnly(b.topics[i]) && b.topics[i].alive == {}
    ensures var after := Apply(cfg, b, step);
            && !after.running && i < |after.topics| && after.topics[i].alive == {}
            && b.topics[i].pending <= after.topics[i].pending
  {
  }

  /** A run that ends so: subscribe, start, stop, the consumer ends, and then a publish. */
  lemma PublishCanOutliveStop(cfg: Config, name: string, id: nat, payload: string)
    returns (steps: seq<Step>, states: seq<Broker>)
    requires cfg.consumerThreads == 1 && cfg.maxQueueSize > 0 && id > 0
    ensures IsPath(cfg, steps, states) && states[0] == EMPTY
    ensures var last := states[|steps|];
            && !last.running && |last.topics| == 1 && last.topics[0].alive == {} && last.topics[0].subscribed
            && last.topics[0].pending == [Message(id, payload, 0, 0)]
  {
    var t := NewTopic(name).(subscribed := true);
    var b1 := EMPTY.(topics := [t]);
    var b2 := b1.(running := true, topics := [t.(alive := {0})]);
    var b3 := b2.(running := false);
    var b5 := b1.(topics := [t.(pending := [Message(id, payload, 0, 0)], next := 1, late := 1)], published := 1);
    UpToTheStop(cfg, t, b1, b2, b3);
    AfterTheStop(cfg, t, id, payload, b3, b1, b5);
    steps := [Subscribe(name), Start, BeginStop, End(0, 0), Publish(name, id, payload)];
    states := [EMPTY, b1, b2, b3, b1, b5];
    hide Apply, Enabled;
  }

  lemma UpToTheStop(cfg: Config, t: Topic, b1: Broker, b2: Broker, b3: Broker)
    requires cfg.consumerThreads == 1 && t == NewTopic(t.name).(subscribed := true)
    requires b1 == EMPTY.(topics := [t]) && b2 == b1.(running := true, topics := [t.(alive := {0})])
    requires b3 == b2.(running := false)
    ensures Enabled(cfg, EMPTY, Subscribe(t.name)) && Apply(cfg, EMPTY, Subscribe(t.name)) == b1
    ensures Enabled(cfg, b1, Start) && Apply(cfg, b1, Start) == b2
    ensures Enabled(cfg, b2, BeginStop) && Apply(cfg, b2, BeginStop) == b3
  {
    assert Below(1) == {0};
    assert Apply(cfg, b1, Start).topics == b2.topics;
  }

  lemma AfterTheStop(cfg: Config, t: Topic, id: nat, payload: string, b3: Broker, b4: Broker, b5: Broker)
    requires cfg.maxQueueSize > 0 && id > 0 && t == NewTopic(t.name).(subscribed := true)
    requires b4 == EMPTY.(topics := [t]) && b3 == b4.(topics := [t.(alive := {0})])
    requires b5 == b4.(topics := [t.(pending := [Message(id, payload, 0, 0)], next := 1, late := 1)], published := 1)
    ensures Enabled(cfg, b3, End(0, 0)) && Apply(cfg, b3, End(0, 0)) == b4
    ensures Enabled(cfg, b4, Publish(t.name, id, payload)) && Apply(cfg, b4, Publish(t.name, id, payload)) == b5
  {
    assert Apply(cfg, b3, End(0, 0)).topics[0] == t;
    assert Find([t], t.name) == Some(0);
    assert t.pending + [Message(id, payload, 0, 0)] == [Message(id, payload, 0, 0)];
    assert Enqueued(t, id, payload) == b5.topics[0];
    assert Apply(cfg, b4, Publish(t.name, id, payload)).topics == b5.topics;
  }

  // ---------------------------------------------------------------------------
  // The object
  // ---------------------------------------------------------------------------

  class InMemoryMessageBroker {
    const cfg: Config
    var topics: seq<Topic>
    var running: bool
    var nextId: nat
    var processed: set<nat>
    var published: nat
    var delivered: nat
    var acknowledged: nat
    var retried: nat
    var deadLettered: nat

    ghost function Model(): Broker
      reads this
    {
      Broker(topics, running, nextId, processed, published, delivered, acknowledged, retried, deadLettered)
    }

    constructor (cfg: Config)
      ensures this.cfg == cfg && Model() == EMPTY
    {
      this.cfg := cfg;
      topics, running, nextId, processed := [], false, 1, {};
      published, delivered, acknowledged, retried, deadLettered := 0, 0, 0, 0, 0;
    }

    method FindTopic(name: string) returns (found: Option<nat>)
      ensures found == Find(topics, name)
    {
      var i := |topics|;
      assert topics[..i] == topics;
      while i > 0
        invariant 0 <= i <= |topics|
        invariant Find(topics, name) == Find(topics[..i], name)
      {
        assert topics[..i][..i - 1] == topics[..i - 1];
        i := i - 1;
        if topics[i].name == name {
          return Some(i);
        }
      }
      found := None;
    }

    /** The rest of `publish` once the wait for room is over. The delivery callback is
        called in the same critical section, always with success, for `reported`. */
    method Publish(name: string, id: nat, payload: string) returns (offset: nat, reported: nat)
      requires HasRoom(cfg, topics, name)
      modifies this
      ensures Model() == Apply(cfg, old(Model()), Step.Publish(name, id, payload))
      ensures offset == WithTopic(old(topics), name)[IndexOf(old(topics), name)].next
      ensures reported == if id == 0 then old(nextId) else id
      ensures var i := IndexOf(old(topics), name);
              && i < |topics| && topics[i].name == name
              && topics[i].pending == WithTopic(old(topics), name)[i].pending + [Message(reported, payload, offset, 0)]
    {
      var found := FindTopic(name);
      if found.None? {
        topics := topics + [NewTopic(name)];
      }
      var i := if found.Some? then found.value else |topics| - 1;
      reported := id;
      if id == 0 {
        reported := nextId;
        nextId := nextId + 1;
      }
      var t := topics[i];
      offset := t.next;
      topics := topics[i := Enqueued(t, reported, payload)];
      published := published + 1;
    }

    /** `publish_with_timeout`: refused, with nothing changed, iff the deadline passed with
        no room. */
    method PublishWithTimeout(name: string, id: nat, payload: string, expired: bool) returns (offset: Option<nat>)
      requires HasRoom(cfg, topics, name) || expired
      modifies this
      ensures offset.None? <==>
                var found := Find(old(topics), name);
                found.Some? && |old(topics)[found.value].pending| >= cfg.maxQueueSize
      ensures offset.None? ==> Model() == old(Model())
      ensures offset.Some? ==> Model() == Apply(cfg, old(Model()), Step.Publish(name, id, payload))
    {
      var found := FindTopic(name);
      if found.Some? && |topics[found.value].pending| >= cfg.maxQueueSize {
        return None;
      }
      var given, _ := Publish(name, id, payload);
      offset := Some(given);
    }

    /** A consumer thread takes the front message, or acknowledges it unread if its
        identifier has been processed before. */
    method TakeMessage(i: nat, thread: nat) returns (handle: Option<Message>)
      requires Enabled(cfg, Model(), Take(i, thread))
      modifies this
      ensures Model() == Apply(cfg, old(Model()), Take(i, thread))
      ensures handle.None? <==> cfg.enableIdempotency && old(topics)[i].pending[0].id in old(processed)
      ensures topics[i].pending == old(topics)[i].pending[1..]
      ensures handle.Some? <==> thread in topics[i].busy
      ensures handle.Some? ==>
                handle.value == old(topics)[i].pending[0].(attempts := old(topics)[i].pending[0].attempts + 1)
      ensures handle.Some? ==> topics[i].busy[thread] == handle.value
    {
      var t := topics[i];
      var message := t.pending[0].(attempts := t.pending[0].attempts + 1);
      delivered := delivered + 1;
      if cfg.enableIdempotency && message.id in processed {
        topics := topics[i := t.(pending := t.pending[1..], acked := t.acked + {message.offset})];
        acknowledged := acknowledged + 1;
        return None;
      }
      topics := topics[i := t.(pending := t.pending[1..], busy := t.busy[thread := message])];
      handle := Some(message);
    }

    /** The second critical section of the consumer loop, with the handler's answer. */
    method SettleMessage(i: nat, thread: nat, ok: bool)
      requires Enabled(cfg, Model(), Settle(i, thread, ok))
      modifies this
      ensures Model() == Apply(cfg, old(Model()), Settle(i, thread, ok))
      ensures var t, m := old(topics)[i], old(topics)[i].busy[thread];
              var final := m.attempts >= cfg.maxDeliveryAttempts || !running;
              && topics[i].busy == t.busy - {thread}
              && topics[i].acked == t.acked + (if ok then {m.offset} else {})
              && topics[i].pending == t.pending + (if !ok && !final then [m] else [])
              && topics[i].dead == t.dead + (if !ok && final then [m] else [])
      ensures cfg.enableIdempotency && ok ==> old(topics)[i].busy[thread].id in processed
    {
      var t := topics[i];
      var message := t.busy[thread];
      var free := t.(busy := t.busy - {thread});
      if ok {
        topics := topics[i := free.(acked := t.acked + {message.offset})];
        acknowledged := acknowledged + 1;
        if cfg.enableIdempotency {
          if |processed| >= cfg.idempotencyWindow {
            processed := {};
          }
          processed := processed + {message.id};
        }
      } else if message.attempts >= cfg.maxDeliveryAttempts || !running {
        topics := topics[i := free.(dead := t.dead + [message])];
        deadLettered := deadLettered + 1;
      } else {
        topics := topics[i := free.(pending := t.pending + [message])];
        retried := retried + 1;
      }
    }
  }
}

/** The consumer loop with the event processor as its handler, over one node's memory and
    disk: what the replicated log, delivered at least once, makes of the node's documents,
    and exactly which of them a crash can take back. */
module Pipelines {
  import opened Wrappers
  import opened Documents
  import opened Shards
  import opened Nodes
  import opened RemoteEvents
  import Replication
  import K = KafkaConsumers

  /** A document of a shard. */
  type Doc = (nat, DocId)

  /** The histories follow the outcomes of writes, the accepted events and the restarts. */
  datatype Pipeline = Pipeline(
    consumer: K.Consumer,
    mem: Hosted,
    disk: Hosted,          // what the files would load as
    unsaved: set<nat>,     // shards whose last application since a restart was not written whole
    behind: set<Doc>,      // documents applied without a later write, or past the cut of the last one
    removed: set<Doc>,     // documents whose last accepted event was a removal
    lost: set<Doc>)        // documents whose last accepted event a restart took back

  /** The partition logs and the node that reads them. A log that grows during the run is
      given here in full: a poll may come at any time after its message was written. */
  datatype World = World(logs: seq<seq<Payload>>, own: nat)

  /** A handler call writes the shard's file twice if it applied anything: inside the
      application, where failure is ignored, and after it, where failure refuses the event.
      A crash in the middle of a call is a call with the outcomes it got to, which refuses
      the event, followed by a restart. */
  datatype Step =
    | Consume(step: K.Step)
    | Process(first: WriteOutcome, second: WriteOutcome)

  function Lengths(w: World): seq<nat> {
    seq(|w.logs|, p requires 0 <= p < |w.logs| => |w.logs[p]|)
  }

  ghost predicate Enabled(w: World, x: Pipeline, step: Step) {
    match step
    case Consume(s) => !s.Handle? && K.Enabled(p => true, Lengths(w), x.consumer, s)
    case Process(_, _) => x.consumer.inHand.Some?
                          && x.consumer.inHand.value.0 < |w.logs|
                          && x.consumer.inHand.value.1 < |w.logs[x.consumer.inHand.value.0]|
  }

  function InHand(w: World, x: Pipeline): Payload
    requires x.consumer.inHand.Some? && x.consumer.inHand.value.0 < |w.logs|
    requires x.consumer.inHand.value.1 < |w.logs[x.consumer.inHand.value.0]|
  {
    w.logs[x.consumer.inHand.value.0][x.consumer.inHand.value.1]
  }

  function DocOf(event: Payload): Doc
    requires event.Event?
  {
    (event.sid, event.op.id)
  }

  function OfShard(docs: set<Doc>, sid: nat): set<Doc> {
    set d | d in docs && d.0 == sid
  }

  /** Of two attempts to write the same documents, the last that opened the file decides. */
  function LastOpened(first: WriteOutcome, second: WriteOutcome): WriteOutcome {
    if second.NotOpened? then first else second
  }

  predicate Whole(docs: Docs, outcome: WriteOutcome) {
    outcome.Written? || (outcome.CutShort? && |docs| <= outcome.kept)
  }

  /** The write got as far as this document's line, or there was none to write. */
  predicate KeepsRecord(docs: Docs, id: DocId, outcome: WriteOutcome) {
    match outcome
    case NotOpened => false
    case Written => true
    case CutShort(kept, _) => id in docs ==> Rank(docs, id) < kept
  }

  function PastCut(sid: nat, docs: Docs, outcome: WriteOutcome): set<Doc> {
    set id: DocId | id in docs && !KeepsRecord(docs, id, outcome) :: (sid, id)
  }

  function BehindAfter(x: Pipeline, event: Payload, docs: Docs, outcome: WriteOutcome): set<Doc>
    requires event.Event?
  {
    if outcome.NotOpened? then
      // the old file may happen to hold the new value already
      if Replication.Value(x.disk, event.sid, event.op.id) == Replication.Outcome(event.op)
      then x.behind - {DocOf(event)}
      else x.behind + {DocOf(event)}
    else
      x.behind - OfShard(x.behind, event.sid) + PastCut(event.sid, docs, outcome)
  }

  /** An accepted event settles its document in memory. */
  function Accepting(x: Pipeline, event: Payload): Pipeline
    requires event.Event?
  {
    x.(lost := x.lost - {DocOf(event)},
       removed := if event.op.Remove? then x.removed + {DocOf(event)} else x.removed - {DocOf(event)})
  }

  /** Memory, disk and histories after one handler call. */
  function Handled(own: nat, x: Pipeline, event: Payload, first: WriteOutcome, second: WriteOutcome): Pipeline {
    var mem := Processed(x.mem, own, event);
    var y := if Concerns(x.mem, own, event) && Acknowledged(x.mem, own, event, second == Written)
             then Accepting(x, event) else x;
    if !AppliedBy(x.mem, own, event) then
      y.(mem := mem)
    else
      var docs, outcome := DocsOf(mem, event.sid), LastOpened(first, second);
      y.(mem := mem,
         disk := x.disk[event.sid := FileAfter(DocsOf(x.disk, event.sid), docs, outcome)],
         unsaved := if Whole(docs, outcome) then x.unsaved - {event.sid} else x.unsaved + {event.sid},
         behind := BehindAfter(x, event, docs, outcome))
  }

  /** What a restart now would leave of the document's last accepted event: it is on disk
      unless the document is behind or already lost. One accident is possible: a removal
      that a restart took back takes effect again when a write is cut before the document. */
  predicate Durable(x: Pipeline, doc: Doc) {
    if doc in x.behind then doc in x.lost && doc in x.removed else doc !in x.lost
  }

  /** A restarted node loads its shards from disk. */
  function Restarted(x: Pipeline): Pipeline {
    x.(mem := x.disk, unsaved := {}, behind := {}, lost := set doc | doc in x.lost + x.behind && !Durable(x, doc))
  }

  ghost function Apply(w: World, x: Pipeline, step: Step): Pipeline
    requires Enabled(w, x, step)
  {
    match step
    case Consume(s) =>
      (if s.Restart? then Restarted(x) else x).(consumer := K.Apply(p => true, Lengths(w), x.consumer, s))
    case Process(first, second) =>
      var event := InHand(w, x);
      Handled(w.own, x, event, first, second).(
        consumer := K.Apply(p => true, Lengths(w), x.consumer,
                            K.Handle(Acknowledged(x.mem, w.own, event, second == Written))))
  }

  // ---------------------------------------------------------------------------
  // One handler call
  // ---------------------------------------------------------------------------

  /** An event is applied only when the document is not yet as it says. */
  lemma AppliedSaysSomethingNew(hosted: Hosted, own: nat, event: Payload)
    ensures AppliedBy(hosted, own, event) ==>
              Replication.Value(hosted, event.sid, event.op.id) != Replication.Outcome(event.op)
  {
  }

  lemma LastOpenedDecides(held: Docs, docs: Docs, first: WriteOutcome, second: WriteOutcome)
    ensures FileAfter(FileAfter(held, docs, first), docs, second) == FileAfter(held, docs, LastOpened(first, second))
  {
  }

  /** An accepted event, where memory and disk agreed on the document before, is on disk
      afterwards exactly when there was nothing to apply or the last opened write got as far
      as the document. */
  lemma DurableIffWritten(own: nat, x: Pipeline, event: Payload, first: WriteOutcome, second: WriteOutcome)
    requires Concerns(x.mem, own, event) && RemoteVerdict(x.mem, event.sid, event.op).0
    requires Replication.Value(x.mem, event.sid, event.op.id) == Replication.Value(x.disk, event.sid, event.op.id)
    ensures Replication.Value(Handled(own, x, event, first, second).disk, event.sid, event.op.id)
              == Replication.Outcome(event.op)
       <==> || !AppliedBy(x.mem, own, event)
            || KeepsRecord(Processed(x.mem, own, event)[event.sid], event.op.id, LastOpened(first, second))
  {
    AcknowledgedFixesValue(x.mem, own, event, true, event.sid, event.op.id);
    AppliedSaysSomethingNew(x.mem, own, event);
  }

  /** A shard that was the same in memory and on disk still is after an application exactly
      when the last opened write was whole. */
  lemma WholeWriteIff(own: nat, x: Pipeline, event: Payload, first: WriteOutcome, second: WriteOutcome)
    requires AppliedBy(x.mem, own, event) && event.sid in x.disk && x.disk[event.sid] == x.mem[event.sid]
    ensures var after := Handled(own, x, event, first, second);
            (after.disk[event.sid] == after.mem[event.sid] <==>
               Whole(after.mem[event.sid], LastOpened(first, second)))
  {
    var outcome := LastOpened(first, second);
    AcknowledgedFixesValue(x.mem, own, event, true, event.sid, event.op.id);
    AppliedSaysSomethingNew(x.mem, own, event);
    if outcome.CutShort? {
      NothingCutIff(Processed(x.mem, own, event)[event.sid], outcome.kept);
    }
  }

  /** Once an event has been applied and then refused, every retry accepts it and writes
      nothing, whatever the refused call left of the file. */
  lemma RetriesNeverSave(own: nat, x: Pipeline, event: Payload, first: WriteOutcome, second: WriteOutcome,
                         third: WriteOutcome, fourth: WriteOutcome)
    requires AppliedBy(x.mem, own, event) && second != Written
    ensures var after := Handled(own, x, event, first, second);
            && !Acknowledged(x.mem, own, event, second == Written)
            && Acknowledged(after.mem, own, event, fourth == Written)
            && Handled(own, after, event, third, fourth) == Accepting(after, event)
  {
    AcknowledgedFixesValue(x.mem, own, event, true, event.sid, event.op.id);
    RedeliveryIsIdempotent(x.mem, own, event, true, fourth == Written);
    AppliedSaysSomethingNew(Processed(x.mem, own, event), own, event);
    hide Accepts, Mutate, RemoteVerdict, FileAfter, BehindAfter, Whole, Replication.Value;
  }

  // ---------------------------------------------------------------------------
  // Where the cursor is
  // ---------------------------------------------------------------------------

  /** The log position (p, q) tells this node about a document of shard `sid`. */
  predicate Mentions(w: World, keys: set<nat>, p: nat, q: nat, doc: Doc)
    requires p < |w.logs| && q < |w.logs[p]|
  {
    var event := w.logs[p][q];
    event.Event? && event.source != w.own && DocOf(event) == doc && doc.0 in keys
  }

  /** (p, last) is the last event about the document. All events about one document are in
      one partition, because its identifier is their key. */
  ghost predicate IsLast(w: World, keys: set<nat>, p: nat, last: nat, doc: Doc) {
    && p < |w.logs| && last < |w.logs[p]| && Mentions(w, keys, p, last, doc)
    && forall r: nat, q: nat :: r < |w.logs| && q < |w.logs[r]| && Mentions(w, keys, r, q, doc) ==>
         r == p && q <= last
  }

  ghost predicate OnDisk(w: World, x: Pipeline, p: nat, last: nat, doc: Doc)
    requires p < |w.logs| && last < |w.logs[p]| && w.logs[p][last].Event?
  {
    Replication.Value(x.disk, doc.0, doc.1) == Replication.Outcome(w.logs[p][last].op)
  }

  ghost predicate InMemory(w: World, x: Pipeline, p: nat, last: nat, doc: Doc)
    requires p < |w.logs| && last < |w.logs[p]| && w.logs[p][last].Event?
  {
    Replication.Value(x.mem, doc.0, doc.1) == Replication.Outcome(w.logs[p][last].op)
  }

  /** The cursor, the commits on their way and the committed offset are in line. */
  ghost predicate InLine(w: World, c: K.Consumer) {
    && |c.position| == |c.committed| == |w.logs|
    && (forall p :: 0 <= p < |w.logs| ==> c.committed[p] <= c.position[p] <= |w.logs[p]|)
    && (forall o: K.Place :: o in c.sent ==> o.0 < |w.logs| && o.1 <= c.position[o.0])
    && (c.inHand.Some? ==>
          var m := c.inHand.value;
          && m.0 < |w.logs| && m.1 + 1 == c.position[m.0] && c.committed[m.0] <= m.1
          && forall o: K.Place :: o in c.sent && o.0 == m.0 ==> o.1 <= m.1)
  }

  /** Something has passed the document's last event: the cursor (while the loop is at
      work), a commit on its way, or the committed offset. */
  ghost predicate Passed(c: K.Consumer, p: nat, last: nat)
    requires p < |c.position| == |c.committed|
  {
    || ((c.running || c.inHand.Some?) && c.position[p] > last && c.inHand != Some((p, last)))
    || c.committed[p] > last
    || exists o: K.Place :: o in c.sent && o.0 == p && o.1 > last
  }

  /** The group coordinator refuses commits of an earlier generation. */
  predicate Fenced(step: Step) {
    match step
    case Process(_, _) => true
    case Consume(Rebalance(late)) => late == {}
    case Consume(Restart(late)) => late == {}
    case Consume(_) => true
  }

  lemma ConsumePasses(w: World, x: Pipeline, s: K.Step, p: nat, last: nat)
    requires InLine(w, x.consumer) && Enabled(w, x, Consume(s)) && Fenced(Consume(s)) && p < |w.logs|
    ensures InLine(w, Apply(w, x, Consume(s)).consumer)
    ensures Passed(Apply(w, x, Consume(s)).consumer, p, last) ==> Passed(x.consumer, p, last)
  {
    ConsumeKeepsLine(w, x, s);
    hide InLine;
    PositionsFit(w, x.consumer, p);
  }

  lemma ConsumeKeepsLine(w: World, x: Pipeline, s: K.Step)
    requires InLine(w, x.consumer) && Enabled(w, x, Consume(s)) && Fenced(Consume(s))
    ensures InLine(w, Apply(w, x, Consume(s)).consumer)
  {
  }

  lemma PositionsFit(w: World, c: K.Consumer, p: nat)
    requires InLine(w, c) && p < |w.logs|
    ensures |c.position| == |c.committed| == |w.logs| && c.committed[p] <= c.position[p]
  {
  }

  lemma ProcessPasses(w: World, x: Pipeline, first: WriteOutcome, second: WriteOutcome, p: nat, last: nat)
    requires InLine(w, x.consumer) && Enabled(w, x, Process(first, second)) && p < |w.logs|
    ensures InLine(w, Apply(w, x, Process(first, second)).consumer)
    ensures Passed(Apply(w, x, Process(first, second)).consumer, p, last) ==>
              || Passed(x.consumer, p, last)
              || (x.consumer.inHand.value == (p, last) && Acknowledged(x.mem, w.own, InHand(w, x), second == Written))
    ensures x.consumer.inHand.value.0 == p && x.consumer.inHand.value.1 <= last ==>
              !Passed(x.consumer, p, last)
  {
    hide Acknowledged, Processed, AppliedBy, Handled;
  }

  // ---------------------------------------------------------------------------
  // What memory and disk hold
  // ---------------------------------------------------------------------------

  /** A shard not counted as unsaved is the same in memory and on disk, and `behind` is
      exactly the documents on which the two differ. */
  ghost predicate Tracked(keys: set<nat>, x: Pipeline) {
    && x.mem.Keys == keys && x.disk.Keys == keys
    && (forall sid :: sid in keys && sid !in x.unsaved ==> x.disk[sid] == x.mem[sid])
    && forall doc: Doc :: DiffersIff(x, doc)
  }

  ghost predicate DiffersIff(x: Pipeline, doc: Doc) {
    doc in x.behind <==> Replication.Value(x.disk, doc.0, doc.1) != Replication.Value(x.mem, doc.0, doc.1)
  }

  /** `due` is the value that the events accepted so far give the document. It is in memory
      unless lost, and what is lost and behind is missing from the file. */
  ghost predicate Settled(x: Pipeline, doc: Doc, due: Option<string>) {
    var mem, disk := Replication.Value(x.mem, doc.0, doc.1), Replication.Value(x.disk, doc.0, doc.1);
    && (doc in x.lost <==> mem != due)
    && (doc in x.lost && doc in x.behind ==> disk == None)
    && (doc in x.removed ==> due == None)
    && (due == None && doc !in x.removed ==> mem == None && disk == None)
  }

  lemma DurableMeansOnDisk(x: Pipeline, doc: Doc, due: Option<string>)
    requires DiffersIff(x, doc) && Settled(x, doc, due)
    ensures Durable(x, doc) <==> Replication.Value(x.disk, doc.0, doc.1) == due
  {
  }

  lemma HandledDiffers(own: nat, x: Pipeline, event: Payload, first: WriteOutcome, second: WriteOutcome, doc: Doc)
    requires DiffersIff(x, doc) && x.mem.Keys == x.disk.Keys
    ensures DiffersIff(Handled(own, x, event, first, second), doc)
  {
    hide Acknowledged, Accepts, Mutate, RemoteVerdict, Whole;
    if AppliedBy(x.mem, own, event) {
      AcknowledgedFixesValue(x.mem, own, event, true, doc.0, doc.1);
      AppliedSaysSomethingNew(x.mem, own, event);
      AppliedIsAccepted(x.mem, own, event);
    }
  }

  lemma AppliedIsAccepted(hosted: Hosted, own: nat, event: Payload)
    ensures AppliedBy(hosted, own, event) ==> Acknowledged(hosted, own, event, true)
  {
  }

  lemma HandledTracked(keys: set<nat>, own: nat, x: Pipeline, event: Payload,
                       first: WriteOutcome, second: WriteOutcome)
    requires Tracked(keys, x)
    ensures Tracked(keys, Handled(own, x, event, first, second))
  {
    hide DiffersIff, Acknowledged, Handled;
    forall doc: Doc ensures DiffersIff(Handled(own, x, event, first, second), doc) {
      HandledDiffers(own, x, event, first, second, doc);
    }
    HandledShards(keys, own, x, event, first, second);
  }

  lemma WholeFile(held: Docs, docs: Docs, outcome: WriteOutcome)
    ensures Whole(docs, outcome) ==> FileAfter(held, docs, outcome) == docs
  {
    if outcome.CutShort? { NothingCutIff(docs, outcome.kept); }
  }

  lemma HandledShards(keys: set<nat>, own: nat, x: Pipeline, event: Payload, first: WriteOutcome, second: WriteOutcome)
    requires Tracked(keys, x)
    ensures var after := Handled(own, x, event, first, second);
            && after.mem.Keys == keys && after.disk.Keys == keys
            && forall sid :: sid in keys && sid !in after.unsaved ==> after.disk[sid] == after.mem[sid]
  {
    hide DiffersIff, Acknowledged, Accepts, Mutate, RemoteVerdict, Whole, FileAfter, BehindAfter, LastOpened;
    if AppliedBy(x.mem, own, event) {
      AcknowledgedFixesValue(x.mem, own, event, true, 0, 0);
      WholeFile(DocsOf(x.disk, event.sid), DocsOf(Processed(x.mem, own, event), event.sid), LastOpened(first, second));
    }
  }

  /** A document that the event is not about stays settled, whatever becomes of the file. */
  lemma OthersStaySettled(own: nat, x: Pipeline, event: Payload, first: WriteOutcome, second: WriteOutcome,
                          doc: Doc, due: Option<string>)
    requires x.mem.Keys == x.disk.Keys && DiffersIff(x, doc) && Settled(x, doc, due)
    requires !(Concerns(x.mem, own, event) && DocOf(event) == doc)
    ensures Settled(Handled(own, x, event, first, second), doc, due)
  {
    hide Acknowledged, Accepts, Mutate, RemoteVerdict, Whole;
    if AppliedBy(x.mem, own, event) {
      AcknowledgedFixesValue(x.mem, own, event, true, doc.0, doc.1);
    }
  }

  /** An accepted event settles its document. */
  lemma AcceptedSettles(own: nat, x: Pipeline, event: Payload, first: WriteOutcome, second: WriteOutcome)
    requires Concerns(x.mem, own, event) && Acknowledged(x.mem, own, event, second == Written)
    ensures Settled(Handled(own, x, event, first, second), DocOf(event), Replication.Outcome(event.op))
  {
    AcknowledgedFixesValue(x.mem, own, event, second == Written, event.sid, event.op.id);
  }

  lemma RestartTracked(keys: set<nat>, x: Pipeline, consumer: K.Consumer)
    requires Tracked(keys, x)
    ensures Tracked(keys, Restarted(x).(consumer := consumer)) && Tracked(keys, x.(consumer := consumer))
  {
    forall doc: Doc ensures DiffersIff(x.(consumer := consumer), doc) {
      assert DiffersIff(x, doc);
    }
  }

  lemma RestartSettled(x: Pipeline, consumer: K.Consumer, doc: Doc, due: Option<string>)
    requires DiffersIff(x, doc) && Settled(x, doc, due)
    ensures Settled(Restarted(x).(consumer := consumer), doc, due) && Settled(x.(consumer := consumer), doc, due)
  {
    DurableMeansOnDisk(x, doc, due);
  }

  lemma ConsumerOnly(keys: set<nat>, x: Pipeline, consumer: K.Consumer)
    requires Tracked(keys, x)
    ensures Tracked(keys, x.(consumer := consumer))
  {
    RestartTracked(keys, x, consumer);
  }

  lemma KeysOf(keys: set<nat>, x: Pipeline)
    requires Tracked(keys, x)
    ensures x.mem.Keys == keys && x.disk.Keys == keys
  {
  }

  lemma StepKeepsTracked(w: World, keys: set<nat>, x: Pipeline, step: Step)
    requires Tracked(keys, x) && Enabled(w, x, step)
    ensures Tracked(keys, Apply(w, x, step))
  {
    hide Tracked, Handled, K.Apply, K.Enabled;
    var after := Apply(w, x, step);
    if step.Process? {
      HandledTracked(keys, w.own, x, InHand(w, x), step.first, step.second);
      ConsumerOnly(keys, Handled(w.own, x, InHand(w, x), step.first, step.second), after.consumer);
    } else {
      RestartTracked(keys, x, after.consumer);
    }
  }

  /** The step handles an event about the document. */
  ghost predicate Concerning(w: World, x: Pipeline, step: Step, doc: Doc)
    requires Enabled(w, x, step)
  {
    step.Process? && Concerns(x.mem, w.own, InHand(w, x)) && DocOf(InHand(w, x)) == doc
  }

  lemma StepKeepsSettled(w: World, keys: set<nat>, x: Pipeline, step: Step, doc: Doc, due: Option<string>)
    requires Tracked(keys, x) && Enabled(w, x, step) && Settled(x, doc, due) && !Concerning(w, x, step, doc)
    ensures Settled(Apply(w, x, step), doc, due)
  {
    hide Handled, K.Apply, K.Enabled;
    assert DiffersIff(x, doc);
    if step.Process? {
      OthersStaySettled(w.own, x, InHand(w, x), step.first, step.second, doc, due);
    } else {
      RestartSettled(x, Apply(w, x, step).consumer, doc, due);
    }
  }

  /** Once its last event has been passed, a document is settled on what it says. */
  ghost predicate Inv(w: World, keys: set<nat>, x: Pipeline, p: nat, last: nat, doc: Doc)
    requires IsLast(w, keys, p, last, doc)
  {
    && Tracked(keys, x) && InLine(w, x.consumer)
    && (Passed(x.consumer, p, last) ==> Settled(x, doc, Replication.Outcome(w.logs[p][last].op)))
  }

  lemma ConsumeKeepsInv(w: World, keys: set<nat>, x: Pipeline, s: K.Step, p: nat, last: nat, doc: Doc)
    requires IsLast(w, keys, p, last, doc) && Inv(w, keys, x, p, last, doc)
    requires Enabled(w, x, Consume(s)) && Fenced(Consume(s))
    ensures Inv(w, keys, Apply(w, x, Consume(s)), p, last, doc)
  {
    hide Passed, InLine, Tracked, Settled, K.Apply, K.Enabled;
    PositionsFit(w, x.consumer, p);
    ConsumePasses(w, x, s, p, last);
    StepKeepsTracked(w, keys, x, Consume(s));
    if Passed(x.consumer, p, last) {
      StepKeepsSettled(w, keys, x, Consume(s), doc, Replication.Outcome(w.logs[p][last].op));
    }
  }

  lemma ProcessKeepsInv(w: World, keys: set<nat>, x: Pipeline, first: WriteOutcome, second: WriteOutcome,
                        p: nat, last: nat, doc: Doc)
    requires IsLast(w, keys, p, last, doc) && Inv(w, keys, x, p, last, doc)
    requires Enabled(w, x, Process(first, second))
    ensures Inv(w, keys, Apply(w, x, Process(first, second)), p, last, doc)
  {
    hide Acknowledged, Processed, AppliedBy, Handled, Passed, InLine, Tracked, Settled, K.Apply, K.Enabled;
    var event, m, step := InHand(w, x), x.consumer.inHand.value, Process(first, second);
    var after, due := Apply(w, x, step), Replication.Outcome(w.logs[p][last].op);
    PositionsFit(w, x.consumer, p);
    ProcessPasses(w, x, first, second, p, last);
    PositionsFit(w, after.consumer, p);
    StepKeepsTracked(w, keys, x, step);
    KeysOf(keys, x);
    assert Mentions(w, keys, m.0, m.1, doc) <==> Concerning(w, x, step, doc);
    if Passed(after.consumer, p, last) {
      if Passed(x.consumer, p, last) {
        StepKeepsSettled(w, keys, x, step, doc, due);
      } else {
        AcceptedSettles(w.own, x, event, first, second);
        SettledAnyConsumer(Handled(w.own, x, event, first, second), after.consumer, doc, due);
      }
    }
  }

  lemma SettledAnyConsumer(x: Pipeline, consumer: K.Consumer, doc: Doc, due: Option<string>)
    requires Settled(x, doc, due)
    ensures Settled(x.(consumer := consumer), doc, due)
  {
  }

  lemma StepKeepsInv(w: World, keys: set<nat>, x: Pipeline, step: Step, p: nat, last: nat, doc: Doc)
    requires IsLast(w, keys, p, last, doc) && Inv(w, keys, x, p, last, doc)
    requires Enabled(w, x, step) && Fenced(step)
    ensures Inv(w, keys, Apply(w, x, step), p, last, doc)
  {
    hide Inv, Enabled, Apply;
    match step
    case Consume(s) => ConsumeKeepsInv(w, keys, x, s, p, last, doc);
    case Process(first, second) => ProcessKeepsInv(w, keys, x, first, second, p, last, doc);
  }

  // ---------------------------------------------------------------------------
  // Whole runs
  // ---------------------------------------------------------------------------

  /** A node with any documents, in memory as on disk, starts to read the logs. */
  ghost predicate Initial(w: World, x: Pipeline) {
    && K.Fresh(x.consumer) && |x.consumer.position| == |w.logs| && x.mem == x.disk
    && x.unsaved == {} && x.behind == {} && x.removed == {} && x.lost == {}
  }

  ghost predicate IsPath(w: World, steps: seq<Step>, states: seq<Pipeline>) {
    && |states| == |steps| + 1
    && forall k :: 0 <= k < |steps| ==>
         Enabled(w, states[k], steps[k]) && states[k + 1] == Apply(w, states[k], steps[k])
  }

  ghost predicate IsRun(w: World, steps: seq<Step>, states: seq<Pipeline>) {
    IsPath(w, steps, states) && Initial(w, states[0])
  }

  ghost predicate AllFenced(steps: seq<Step>) {
    forall j :: 0 <= j < |steps| ==> Fenced(steps[j])
  }

  lemma InitialTracked(w: World, x: Pipeline)
    requires Initial(w, x)
    ensures Tracked(x.mem.Keys, x)
  {
    forall doc: Doc ensures DiffersIff(x, doc) {
    }
  }

  lemma {:induction false} RunKeepsInv(w: World, steps: seq<Step>, states: seq<Pipeline>, k: nat,
                                       p: nat, last: nat, doc: Doc)
    requires IsRun(w, steps, states) && AllFenced(steps) && k < |states|
    requires IsLast(w, states[0].mem.Keys, p, last, doc)
    ensures Inv(w, states[0].mem.Keys, states[k], p, last, doc)
  {
    if k == 0 {
      InitialTracked(w, states[0]);
    } else {
      hide Enabled, Apply, IsLast, Inv;
      RunKeepsInv(w, steps, states, k - 1, p, last, doc);
      StepKeepsInv(w, states[0].mem.Keys, states[k - 1], steps[k - 1], p, last, doc);
    }
  }

  lemma {:induction false} RunTracks(w: World, steps: seq<Step>, states: seq<Pipeline>, k: nat)
    requires IsRun(w, steps, states) && k < |states|
    ensures Tracked(states[0].mem.Keys, states[k])
  {
    if k == 0 {
      InitialTracked(w, states[0]);
    } else {
      hide Tracked, Enabled, Apply;
      RunTracks(w, steps, states, k - 1);
      StepKeepsTracked(w, states[0].mem.Keys, states[k - 1], steps[k - 1]);
    }
  }

  /** In every reachable state, whatever writes failed or were cut short: a shard is the same
      on disk as in memory exactly when none of its documents is behind, and it is if its
      last application was written whole. */
  lemma SavedShardsAgree(w: World, steps: seq<Step>, states: seq<Pipeline>, k: nat, sid: nat)
    requires IsRun(w, steps, states) && k < |states| && sid in states[k].mem
    ensures sid in states[k].disk
    ensures states[k].disk[sid] == states[k].mem[sid] <==> OfShard(states[k].behind, sid) == {}
    ensures sid !in states[k].unsaved ==> states[k].disk[sid] == states[k].mem[sid]
  {
    var x := states[k];
    RunTracks(w, steps, states, k);
    forall id: DocId
      ensures (sid, id) in OfShard(x.behind, sid)
         <==> Replication.Value(x.disk, sid, id) != Replication.Value(x.mem, sid, id)
    {
      assert DiffersIff(x, (sid, id));
    }
    if OfShard(x.behind, sid) == {} {
      forall id: DocId
        ensures id in x.disk[sid] <==> id in x.mem[sid]
        ensures id in x.disk[sid] ==> x.disk[sid][id] == x.mem[sid][id]
      {
        assert (sid, id) !in OfShard(x.behind, sid);
      }
    }
  }

  /** The exact account of durability, with no hypothesis on writes. Once a document's last
      event has been passed, in particular committed, that event is in memory iff no restart
      took it back, and a restart keeps it iff the document is `Durable`: neither behind (no
      write since its application, or the last one was cut before its line) nor lost. */
  lemma DurableExactly(w: World, steps: seq<Step>, states: seq<Pipeline>, k: nat, p: nat, last: nat, doc: Doc)
    requires IsRun(w, steps, states) && AllFenced(steps) && k < |states|
    requires IsLast(w, states[0].mem.Keys, p, last, doc)
    requires var c := states[k].consumer; p < |c.position| == |c.committed| && Passed(c, p, last)
    ensures OnDisk(w, states[k], p, last, doc) <==> Durable(states[k], doc)
    ensures InMemory(w, states[k], p, last, doc) <==> doc !in states[k].lost
  {
    RunKeepsInv(w, steps, states, k, p, last, doc);
    DurableMeansOnDisk(states[k], doc, Replication.Outcome(w.logs[p][last].op));
  }

  /** Whatever documents the node starts from, and however often messages are retried,
      replayed after a rebalance or a crash, or committed late: when the cursor stands at
      the end of a partition with nothing of it in hand, every document that partition
      mentions is exactly as its last event says, unless a restart took that back. */
  lemma EndOfLogDeterminesState(w: World, steps: seq<Step>, states: seq<Pipeline>, k: nat,
                                p: nat, last: nat, doc: Doc)
    requires IsRun(w, steps, states) && AllFenced(steps) && k < |states|
    requires IsLast(w, states[0].mem.Keys, p, last, doc)
    requires var c := states[k].consumer;
             && c.running && p < |c.position| == |c.committed| && c.position[p] == |w.logs[p]|
             && (c.inHand.Some? ==> c.inHand.value.0 != p)
    ensures InMemory(w, states[k], p, last, doc) <==> doc !in states[k].lost
    ensures OnDisk(w, states[k], p, last, doc) <==> Durable(states[k], doc)
  {
    DurableExactly(w, steps, states, k, p, last, doc);
  }

  /** A committed event is on disk exactly under the same condition. */
  lemma CommittedIsDurable(w: World, steps: seq<Step>, states: seq<Pipeline>, k: nat, p: nat, last: nat, doc: Doc)
    requires IsRun(w, steps, states) && AllFenced(steps) && k < |states|
    requires IsLast(w, states[0].mem.Keys, p, last, doc)
    requires var c := states[k].consumer; p < |c.position| == |c.committed| && c.committed[p] > last
    ensures OnDisk(w, states[k], p, last, doc) <==> Durable(states[k], doc)
  {
    DurableExactly(w, steps, states, k, p, last, doc);
  }

  ghost predicate Unmentioned(w: World, keys: set<nat>, doc: Doc) {
    forall p: nat, q: nat :: p < |w.logs| && q < |w.logs[p]| ==> !Mentions(w, keys, p, q, doc)
  }

  /** A document that no event mentions keeps the value it had at the start under exactly
      the same conditions: a torn file takes back such documents too. */
  lemma {:induction false} UnmentionedStays(w: World, steps: seq<Step>, states: seq<Pipeline>, k: nat, doc: Doc)
    requires IsRun(w, steps, states) && k < |states| && Unmentioned(w, states[0].mem.Keys, doc)
    ensures var start := Replication.Value(states[0].mem, doc.0, doc.1);
            && Settled(states[k], doc, start)
            && (Replication.Value(states[k].mem, doc.0, doc.1) == start <==> doc !in states[k].lost)
            && (Replication.Value(states[k].disk, doc.0, doc.1) == start <==> Durable(states[k], doc))
  {
    var keys, start := states[0].mem.Keys, Replication.Value(states[0].mem, doc.0, doc.1);
    RunTracks(w, steps, states, k);
    if k > 0 {
      hide Apply, Enabled, Settled, Concerning, Unmentioned, Tracked, Durable, Replication.Value;
      UnmentionedStays(w, steps, states, k - 1, doc);
      RunTracks(w, steps, states, k - 1);
      NeverConcerning(w, keys, states[k - 1], steps[k - 1], doc);
      StepKeepsSettled(w, keys, states[k - 1], steps[k - 1], doc, start);
      SettledMeans(keys, states[k], doc, start);
    } else {
      SettledMeans(keys, states[k], doc, start);
    }
  }

  lemma NeverConcerning(w: World, keys: set<nat>, x: Pipeline, step: Step, doc: Doc)
    requires Tracked(keys, x) && Enabled(w, x, step) && Unmentioned(w, keys, doc)
    ensures !Concerning(w, x, step, doc)
  {
    hide DiffersIff, K.Enabled;
    if step.Process? {
      var m := x.consumer.inHand.value;
      assert !Mentions(w, keys, m.0, m.1, doc);
    }
  }

  lemma SettledMeans(keys: set<nat>, x: Pipeline, doc: Doc, due: Option<string>)
    requires Tracked(keys, x) && Settled(x, doc, due)
    ensures Replication.Value(x.mem, doc.0, doc.1) == due <==> doc !in x.lost
    ensures Replication.Value(x.disk, doc.0, doc.1) == due <==> Durable(x, doc)
  {
    assert DiffersIff(x, doc);
    DurableMeansOnDisk(x, doc, due);
  }

  /** This step does not leave an application to shard `sid` without a whole write. */
  ghost predicate SavesShard(w: World, x: Pipeline, step: Step, sid: nat) {
    Enabled(w, x, step) && step.Process? && AppliedBy(x.mem, w.own, InHand(w, x)) && InHand(w, x).sid == sid ==>
      Whole(DocsOf(Processed(x.mem, w.own, InHand(w, x)), sid), LastOpened(step.first, step.second))
  }

  lemma WholeCutsNothing(sid: nat, docs: Docs, outcome: WriteOutcome)
    requires Whole(docs, outcome)
    ensures PastCut(sid, docs, outcome) == {}
  {
    if outcome.CutShort? {
      NothingCutIff(docs, outcome.kept);
      assert forall id: DocId :: id in docs ==> id in FirstDocs(docs, outcome.kept);
    }
  }

  lemma SavingStepLosesNothing(w: World, x: Pipeline, step: Step, sid: nat)
    requires Enabled(w, x, step) && SavesShard(w, x, step, sid)
    requires forall id: DocId :: (sid, id) !in x.behind && (sid, id) !in x.lost
    ensures forall id: DocId :: (sid, id) !in Apply(w, x, step).behind && (sid, id) !in Apply(w, x, step).lost
  {
    hide Acknowledged, Processed, RemoteVerdict, K.Apply, K.Enabled, KeepsRecord;
    if step.Process? && AppliedBy(x.mem, w.own, InHand(w, x)) && InHand(w, x).sid == sid {
      WholeCutsNothing(sid, DocsOf(Processed(x.mem, w.own, InHand(w, x)), sid), LastOpened(step.first, step.second));
    }
  }

  /** Only failed or cut writes of the document's own shard can put it behind or lose it. */
  lemma {:induction false} NothingLostWhenSaved(w: World, steps: seq<Step>, states: seq<Pipeline>, k: nat, sid: nat)
    requires IsRun(w, steps, states) && k < |states|
    requires forall j :: 0 <= j < k ==> SavesShard(w, states[j], steps[j], sid)
    ensures forall id: DocId :: (sid, id) !in states[k].behind && (sid, id) !in states[k].lost
    ensures sid in states[k].mem ==> sid in states[k].disk && states[k].disk[sid] == states[k].mem[sid]
  {
    if k > 0 {
      hide Enabled, Apply, SavesShard;
      NothingLostWhenSaved(w, steps, states, k - 1, sid);
      SavingStepLosesNothing(w, states[k - 1], steps[k - 1], sid);
    }
    if sid in states[k].mem {
      SavedShardsAgree(w, steps, states, k, sid);
    }
  }

  // ---------------------------------------------------------------------------
  // How events are lost
  // ---------------------------------------------------------------------------

  lemma Joined(w: World, steps: seq<Step>, states: seq<Pipeline>, later: seq<Step>, after: seq<Pipeline>)
    requires IsPath(w, steps, states) && IsPath(w, later, after) && after[0] == states[|steps|]
    ensures IsPath(w, steps + later, states + after[1..])
  {
    hide Enabled, Apply;
    var steps', states' := steps + later, states + after[1..];
    forall k | 0 <= k < |steps'|
      ensures Enabled(w, states'[k], steps'[k]) && states'[k + 1] == Apply(w, states'[k], steps'[k])
    {
      if k >= |steps| {
        var j := k - |steps|;
        assert Enabled(w, after[j], later[j]) && after[j + 1] == Apply(w, after[j], later[j]);
      }
    }
  }

  /** What the node holds when it comes back: the shard's file as the failed call left it,
      and every other shard as on disk. */
  function TakenBack(w: World, x: Pipeline, first: WriteOutcome, second: WriteOutcome): Hosted
    requires Enabled(w, x, Process(first, second)) && InHand(w, x).Event?
  {
    var sid := InHand(w, x).sid;
    x.disk[sid := FileAfter(DocsOf(x.disk, sid), DocsOf(Processed(x.mem, w.own, InHand(w, x)), sid),
                            LastOpened(first, second))]
  }

  /** From every state in which an event with something to apply is in hand, and however the
      second write fails: the event is refused, the retry is accepted without a write, its
      commit arrives, and a restart brings back what the failed call left of the files. The
      event is lost exactly when that does not hold it. */
  lemma FailedSaveLosesTheEvent(w: World, keys: set<nat>, x: Pipeline, first: WriteOutcome, second: WriteOutcome,
                                third: WriteOutcome, fourth: WriteOutcome)
    returns (steps: seq<Step>, states: seq<Pipeline>)
    requires InLine(w, x.consumer) && Tracked(keys, x) && Enabled(w, x, Process(first, second))
    requires x.consumer.running && AppliedBy(x.mem, w.own, InHand(w, x)) && second != Written
    ensures var m := x.consumer.inHand.value;
            && steps == [Process(first, second), Process(third, fourth),
                         Consume(K.CommitArrives((m.0, m.1 + 1))), Consume(K.Restart({}))]
            && IsPath(w, steps, states) && states[0] == x
            && m.0 < |x.consumer.committed|
            && states[4].consumer.committed == x.consumer.committed[m.0 := m.1 + 1]
    ensures var event := InHand(w, x);
            && states[4].mem == TakenBack(w, x, first, second)
            && (DocOf(event) in states[4].lost <==>
                  Replication.Value(states[4].mem, event.sid, event.op.id) != Replication.Outcome(event.op))
  {
    var m, event := x.consumer.inHand.value, InHand(w, x);
    LosingTries(w, keys, x, first, second, third, fourth);
    InHandFits(w, x.consumer);
    hide Enabled, Apply, AppliedBy, Tracked, DiffersIff, Settled, InLine, TakenBack;
    var x1 := Apply(w, x, Process(first, second));
    var x2 := Apply(w, x1, Process(third, fourth));
    CommitThenRestart(w, x2, m, DocOf(event), Replication.Outcome(event.op));
    var x3 := Apply(w, x2, Consume(K.CommitArrives((m.0, m.1 + 1))));
    steps := [Process(first, second), Process(third, fourth),
              Consume(K.CommitArrives((m.0, m.1 + 1))), Consume(K.Restart({}))];
    states := PathOfFour(w, x, steps);
  }

  lemma PathOfFour(w: World, x: Pipeline, steps: seq<Step>) returns (states: seq<Pipeline>)
    requires |steps| == 4 && Enabled(w, x, steps[0])
    requires var x1 := Apply(w, x, steps[0]);
             && Enabled(w, x1, steps[1])
             && var x2 := Apply(w, x1, steps[1]);
                Enabled(w, x2, steps[2]) && Enabled(w, Apply(w, x2, steps[2]), steps[3])
    ensures IsPath(w, steps, states) && states[0] == x
    ensures states[4] == Apply(w, Apply(w, Apply(w, Apply(w, x, steps[0]), steps[1]), steps[2]), steps[3])
  {
    hide Enabled, Apply;
    var x1 := Apply(w, x, steps[0]);
    var x2 := Apply(w, x1, steps[1]);
    var x3 := Apply(w, x2, steps[2]);
    states := [x, x1, x2, x3, Apply(w, x3, steps[3])];
  }

  lemma InHandFits(w: World, c: K.Consumer)
    requires InLine(w, c) && c.inHand.Some?
    ensures |c.committed| == |w.logs| && c.inHand.value.0 < |c.committed|
  {
  }

  lemma CommitThenRestart(w: World, x: Pipeline, m: K.Place, doc: Doc, due: Option<string>)
    requires |x.consumer.committed| == |w.logs| && m.0 < |w.logs| && (m.0, m.1 + 1) in x.consumer.sent
    requires DiffersIff(x, doc) && Settled(x, doc, due)
    ensures var commit, restart := Consume(K.CommitArrives((m.0, m.1 + 1))), Consume(K.Restart({}));
            && Enabled(w, x, commit) && Enabled(w, Apply(w, x, commit), restart)
            && var after := Apply(w, Apply(w, x, commit), restart);
               && after.mem == x.disk
               && |after.consumer.committed| == |w.logs| && after.consumer.committed[m.0] == m.1 + 1
               && after.consumer.committed == x.consumer.committed[m.0 := m.1 + 1]
               && (doc in after.lost <==> Replication.Value(after.mem, doc.0, doc.1) != due)
  {
    var x3 := Apply(w, x, Consume(K.CommitArrives((m.0, m.1 + 1))));
    SettledAnyConsumer(x, x3.consumer, doc, due);
    SameDiffers(x, x3.consumer, doc);
    RestartSettled(x3, Apply(w, x3, Consume(K.Restart({}))).consumer, doc, due);
    SettledIffLost(Apply(w, x3, Consume(K.Restart({}))), doc, due);
  }

  lemma SameDiffers(x: Pipeline, consumer: K.Consumer, doc: Doc)
    requires DiffersIff(x, doc)
    ensures DiffersIff(x.(consumer := consumer), doc)
  {
  }

  lemma SettledIffLost(x: Pipeline, doc: Doc, due: Option<string>)
    requires Settled(x, doc, due)
    ensures doc in x.lost <==> Replication.Value(x.mem, doc.0, doc.1) != due
  {
  }

  lemma LosingTries(w: World, keys: set<nat>, x: Pipeline, first: WriteOutcome, second: WriteOutcome,
                    third: WriteOutcome, fourth: WriteOutcome)
    requires InLine(w, x.consumer) && Tracked(keys, x) && Enabled(w, x, Process(first, second))
    requires x.consumer.running && AppliedBy(x.mem, w.own, InHand(w, x)) && second != Written
    ensures var m, event, x1 := x.consumer.inHand.value, InHand(w, x), Apply(w, x, Process(first, second));
            && x1.consumer == x.consumer && Enabled(w, x1, Process(third, fourth))
            && var x2 := Apply(w, x1, Process(third, fourth));
               && x2.consumer == x.consumer.(inHand := None, sent := x.consumer.sent + {(m.0, m.1 + 1)},
                                             accepted := x.consumer.accepted + {m})
               && x2.disk == TakenBack(w, x, first, second)
               && DiffersIff(x2, DocOf(event)) && Settled(x2, DocOf(event), Replication.Outcome(event.op))
  {
    var event, x1 := InHand(w, x), Apply(w, x, Process(first, second));
    RetriesNeverSave(w.own, x, event, first, second, third, fourth);
    StepKeepsTracked(w, keys, x, Process(first, second));
    assert DiffersIff(x1, DocOf(event));
    RetrySettles(w.own, x, event, first, second);
    hide Acknowledged, Processed, AppliedBy, Tracked, DiffersIff, FileAfter, Settled, InLine, BehindAfter, Whole;
    assert Enabled(w, x1, Process(third, fourth));
  }

  lemma RetrySettles(own: nat, x: Pipeline, event: Payload, first: WriteOutcome, second: WriteOutcome)
    requires AppliedBy(x.mem, own, event)
    ensures Settled(Accepting(Handled(own, x, event, first, second), event), DocOf(event),
                    Replication.Outcome(event.op))
  {
    AcknowledgedFixesValue(x.mem, own, event, true, event.sid, event.op.id);
    AppliedIsAccepted(x.mem, own, event);
  }

  /** A run for every node and every event with something to apply there, of whatever kind. */
  lemma EveryEventCanBeLost(start: Hosted, sid: nat, op: ShardOp)
    returns (w: World, steps: seq<Step>, states: seq<Pipeline>)
    requires RemoteVerdict(start, sid, op).1
    ensures w == World([[Event(1, sid, op)]], 0) && IsRun(w, steps, states) && AllFenced(steps)
    ensures states[0].mem == start && states[|steps|].consumer.committed == [1]
    ensures states[|steps|].mem == start && Replication.Value(start, sid, op.id) != Replication.Outcome(op)
  {
    w := World([[Event(1, sid, op)]], 0);
    var early := FirstPoll(w, start);
    NothingWrittenTakesBack(w, early[1]);
    AppliedSaysSomethingNew(start, 0, Event(1, sid, op));
    var later, after := FailedSaveLosesTheEvent(w, start.Keys, early[1], NotOpened, NotOpened, Written, Written);
    hide Enabled, Apply, InLine, Tracked, AppliedBy, TakenBack, RemoteVerdict;
    Joined(w, [Consume(K.Poll(0))], early, later, after);
    steps, states := [Consume(K.Poll(0))] + later, early + after[1..];
  }

  lemma NothingWrittenTakesBack(w: World, x: Pipeline)
    requires Enabled(w, x, Process(NotOpened, NotOpened)) && InHand(w, x).Event? && InHand(w, x).sid in x.disk
    ensures TakenBack(w, x, NotOpened, NotOpened) == x.disk
  {
  }

  lemma FirstPoll(w: World, start: Hosted) returns (states: seq<Pipeline>)
    requires |w.logs| == 1 && |w.logs[0]| >= 1
    ensures IsRun(w, [Consume(K.Poll(0))], states) && states[0].mem == start && Tracked(start.Keys, states[1])
    ensures states[1].mem == start && states[1].disk == start && InLine(w, states[1].consumer)
    ensures states[1].consumer == K.Consumer(true, [1], Some((0, 0)), {}, [0], {})
  {
    var x0 := Pipeline(K.Consumer(true, [0], None, {}, [0], {}), start, start, {}, {}, {}, {});
    states := [x0, Apply(w, x0, Consume(K.Poll(0)))];
    RunTracks(w, [Consume(K.Poll(0))], states, 1);
  }

  /** Cutting a file short takes back older documents too. For every node and any two
      events there about different documents: the first is applied, written twice and
      committed. The second write of the other is cut at the start; after its retry, its
      commit and a restart the shard is empty. */
  lemma OldDocumentsCanBeLost(start: Hosted, sid: nat, earlier: ShardOp, op: ShardOp)
    returns (w: World, steps: seq<Step>, states: seq<Pipeline>)
    requires RemoteVerdict(start, sid, earlier).1 && RemoteVerdict(MutateHosted(start, sid, earlier), sid, op).1
    ensures w == World([[Event(1, sid, earlier), Event(1, sid, op)]], 0) && IsRun(w, steps, states) && AllFenced(steps)
    ensures |steps| == 8 && states[0].mem == start
    ensures states[3].consumer.committed == [1] && states[3].disk == MutateHosted(start, sid, earlier)
    ensures states[8].consumer.committed == [2] && states[8].mem == start[sid := map[]]
  {
    w := World([[Event(1, sid, earlier), Event(1, sid, op)]], 0);
    var x0 := Pipeline(K.Consumer(true, [0], None, {}, [0], {}), start, start, {}, {}, {}, {});
    var early := [Consume(K.Poll(0)), Process(Written, Written), Consume(K.CommitArrives((0, 1))), Consume(K.Poll(0))];
    var before := FirstIsWritten(w, x0, early);
    var later, after := SecondIsCut(w, start.Keys, before[4]);
    hide Enabled, Apply;
    Joined(w, early, before, later, after);
    steps, states := early + later, before + after[1..];
  }

  lemma NothingKeptTakesBack(w: World, x: Pipeline)
    requires Enabled(w, x, Process(Written, CutShort(0, false))) && InHand(w, x).Event?
    ensures TakenBack(w, x, Written, CutShort(0, false)) == x.disk[InHand(w, x).sid := map[]]
  {
  }

  lemma SecondIsCut(w: World, keys: set<nat>, x: Pipeline) returns (steps: seq<Step>, states: seq<Pipeline>)
    requires |w.logs| == 1 && |w.logs[0]| == 2 && InLine(w, x.consumer) && Tracked(keys, x)
    requires x.consumer == K.Consumer(true, [2], Some((0, 1)), {}, [1], {(0, 0)})
    requires AppliedBy(x.mem, w.own, w.logs[0][1])
    ensures IsPath(w, steps, states) && AllFenced(steps) && |steps| == 4 && states[0] == x
    ensures states[4].consumer.committed == [2] && states[4].mem == x.disk[w.logs[0][1].sid := map[]]
  {
    NothingKeptTakesBack(w, x);
    hide InLine, Tracked, AppliedBy, TakenBack;
    steps, states := FailedSaveLosesTheEvent(w, keys, x, Written, CutShort(0, false), Written, Written);
  }

  lemma FirstIsWritten(w: World, x0: Pipeline, early: seq<Step>) returns (states: seq<Pipeline>)
    requires |w.logs| == 1 && |w.logs[0]| == 2 && w.logs[0][0].Event? && w.logs[0][0].source != w.own
    requires RemoteVerdict(x0.mem, w.logs[0][0].sid, w.logs[0][0].op).1
    requires Initial(w, x0) && x0.consumer == K.Consumer(true, [0], None, {}, [0], {})
    requires early == [Consume(K.Poll(0)), Process(Written, Written), Consume(K.CommitArrives((0, 1))),
                       Consume(K.Poll(0))]
    ensures IsPath(w, early, states) && states[0] == x0 && InLine(w, states[4].consumer)
    ensures Tracked(x0.mem.Keys, states[4])
    ensures states[3].consumer.committed == [1]
    ensures states[4].consumer == K.Consumer(true, [2], Some((0, 1)), {}, [1], {(0, 0)})
    ensures var now := MutateHosted(x0.mem, w.logs[0][0].sid, w.logs[0][0].op);
            states[4].mem == now && states[3].disk == now && states[4].disk == now
  {
    var event := w.logs[0][0];
    var x1 := Apply(w, x0, early[0]);
    AppliedIsAccepted(x1.mem, w.own, event);
    AcknowledgedFixesValue(x1.mem, w.own, event, true, 0, 0);
    var x2 := Apply(w, x1, early[1]);
    assert x2.disk == x2.mem == MutateHosted(x0.mem, event.sid, event.op);
    hide Handled, AppliedBy, Acknowledged, Processed;
    states := PathOfFour(w, x0, early);
    RunTracks(w, early, states, 4);
  }

  // ---------------------------------------------------------------------------
  // The step, as code
  // ---------------------------------------------------------------------------

  ghost predicate FilesHold(files: Files, disk: Hosted) {
    forall sid :: sid in disk ==> disk[sid] == FileDocs(files, sid)
  }

  lemma TwoWrites(before: Files, after: Files, disk: Hosted, sid: nat, docs: Docs,
                  first: WriteOutcome, second: WriteOutcome)
    requires FilesHold(before, disk) && sid in disk && WroteTwice(before, after, sid, docs, first, second)
    ensures FilesHold(after, disk[sid := FileAfter(disk[sid], docs, LastOpened(first, second))])
  {
    var between :| Wrote(before, between, sid, docs, first) && Wrote(between, after, sid, docs, second);
    WroteLoads(before, between, sid, docs, first);
    WroteLoads(between, after, sid, docs, second);
    LastOpenedDecides(disk[sid], docs, first, second);
  }

  /** The event processor's `Process` on a node is the step `Process` of the pipeline. */
  method HandleMessage(processor: RemoteEventProcessor, first: WriteOutcome, second: WriteOutcome,
                       ghost w: World, ghost keys: set<nat>, ghost x: Pipeline, event: Payload)
    returns (ack: bool)
    requires processor.Valid() && processor.node.Contents() == x.mem && processor.ownNodeId == w.own
    requires Tracked(keys, x) && FilesHold(processor.node.disk, x.disk)
    requires Enabled(w, x, Process(first, second)) && InHand(w, x) == event
    modifies processor, processor.node.Repr
    ensures processor.Valid()
    ensures processor.node.Contents() == Apply(w, x, Process(first, second)).mem
    ensures FilesHold(processor.node.disk, Apply(w, x, Process(first, second)).disk)
    ensures ack == Acknowledged(x.mem, w.own, event, second == Written)
  {
    hide LocalNode.Valid, LocalNode.Contents, Acknowledged, Tracked, K.Apply, K.Enabled, FilesHold, WroteTwice,
         FileAfter, BehindAfter;
    KeysOf(keys, x);
    ghost var before := processor.node.disk;
    ack := processor.Process(DOCUMENT_MUTATIONS, event, first, second);
    if AppliedBy(x.mem, w.own, event) {
      TwoWrites(before, processor.node.disk, x.disk, event.sid,
                MutateHosted(x.mem, event.sid, event.op)[event.sid], first, second);
    }
  }
}

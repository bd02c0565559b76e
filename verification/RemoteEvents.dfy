/** src/remote_event_processor.cpp: one event of the replicated log is applied,
    acknowledged without effect, or refused so that it will be redelivered. */
module RemoteEvents {
  import opened Documents
  import opened Shards
  import opened Nodes
  import opened Replication

  /** What a payload decodes to. */
  datatype Payload =
    | Unparseable                                  // not JSON
    | NoEventType                                  // no event_type member
    | NonStringType                                // event_type is not a string: decoding throws
    | OtherType                                    // an event_type nobody handles
    | BadEvent                                     // a required field is missing or mistyped
    | Event(source: nat, sid: nat, op: ShardOp)

  const DOCUMENT_MUTATIONS := "documents.mutations"

  /** The event reaches a shard of this node and did not originate here. */
  predicate Concerns(hosted: Hosted, own: nat, payload: Payload) {
    payload.Event? && payload.source != own && payload.sid in hosted
  }

  predicate AppliedBy(hosted: Hosted, own: nat, payload: Payload) {
    Concerns(hosted, own, payload) && RemoteVerdict(hosted, payload.sid, payload.op).1
  }

  /** Whether `process` returns true, given that a save, if attempted, succeeds or not. */
  predicate Acknowledged(hosted: Hosted, own: nat, payload: Payload, saved: bool) {
    && !payload.NonStringType?
    && (Concerns(hosted, own, payload) ==>
          && RemoteVerdict(hosted, payload.sid, payload.op).0
          && (AppliedBy(hosted, own, payload) ==> saved))
  }

  function Processed(hosted: Hosted, own: nat, payload: Payload): Hosted {
    if AppliedBy(hosted, own, payload) then MutateHosted(hosted, payload.sid, payload.op) else hosted
  }

  /** An acknowledged event fixes its document from the event alone, whatever the
      document was before; every other document keeps its value. */
  lemma AcknowledgedFixesValue(hosted: Hosted, own: nat, payload: Payload, saved: bool, s: nat, id: DocId)
    requires Concerns(hosted, own, payload)
    ensures Acknowledged(hosted, own, payload, saved) && s == payload.sid && id == payload.op.id ==>
              Value(Processed(hosted, own, payload), s, id) == Outcome(payload.op)
    ensures s != payload.sid || id != payload.op.id ==>
              Value(Processed(hosted, own, payload), s, id) == Value(hosted, s, id)
    ensures Processed(hosted, own, payload).Keys == hosted.Keys
  {
    MutateIsLocal(hosted, payload.sid, payload.op, s, id);
  }

  /** Redelivery of an event that was just acknowledged is acknowledged again and does
      nothing. */
  lemma RedeliveryIsIdempotent(hosted: Hosted, own: nat, payload: Payload, saved: bool, again: bool)
    requires Acknowledged(hosted, own, payload, saved)
    ensures var after := Processed(hosted, own, payload);
            Processed(after, own, payload) == after && Acknowledged(after, own, payload, again)
  {
    if Concerns(hosted, own, payload) {
      AcknowledgedFixesValue(hosted, own, payload, saved, payload.sid, payload.op.id);
    }
  }

  /** Two attempts in a row: the one inside the application and the one after it. */
  ghost predicate WroteTwice(before: Files, after: Files, sid: nat, docs: Docs,
                             first: WriteOutcome, second: WriteOutcome)
  {
    exists between :: Wrote(before, between, sid, docs, first) && Wrote(between, after, sid, docs, second)
  }

  /** What an event does to the files: two writes of its shard if it was applied, else nothing. */
  ghost predicate DiskAfter(before: Files, after: Files, hosted: Hosted, own: nat, payload: Payload,
                            first: WriteOutcome, second: WriteOutcome)
  {
    if AppliedBy(hosted, own, payload) then
      WroteTwice(before, after, payload.sid, MutateHosted(hosted, payload.sid, payload.op)[payload.sid], first, second)
    else
      after == before
  }

  /** An event of another kind, of this node's own, or of a shard hosted elsewhere. */
  lemma NotConcerned(hosted: Hosted, own: nat, payload: Payload, saved: bool)
    requires !Concerns(hosted, own, payload)
    ensures Acknowledged(hosted, own, payload, saved) == !payload.NonStringType?
    ensures !AppliedBy(hosted, own, payload) && Processed(hosted, own, payload) == hosted
  {
  }

  lemma AppliedMeansAccepted(hosted: Hosted, sid: nat, op: ShardOp)
    ensures RemoteVerdict(hosted, sid, op).1 ==> RemoteVerdict(hosted, sid, op).0
    ensures MutateHosted(hosted, sid, op).Keys == hosted.Keys
  {
  }

  /** The node's side of one event: idempotent application, then a save if anything changed. */
  method ApplyAndSave(node: LocalNode, own: nat, event: Payload, first: WriteOutcome, second: WriteOutcome)
    returns (ok: bool, applied: bool)
    requires node.Valid() && Concerns(node.Contents(), own, event)
    modifies node.Repr
    ensures node.Valid() && node.Repr == old(node.Repr)
    ensures applied == AppliedBy(old(node.Contents()), own, event)
    ensures ok == Acknowledged(old(node.Contents()), own, event, second == Written)
    ensures node.Contents() == Processed(old(node.Contents()), own, event)
    ensures DiskAfter(old(node.disk), node.disk, old(node.Contents()), own, event, first, second)
  {
    hide LocalNode.Valid, LocalNode.Contents, RemoteVerdict, MutateHosted, Wrote;
    AppliedMeansAccepted(node.Contents(), event.sid, event.op);
    ok, applied := node.ApplyRemote(event.sid, event.op, first);
    if applied {
      ghost var between := node.disk;
      ok := node.SaveShard(event.sid, second);
      assert Wrote(old(node.disk), between, event.sid, node.Contents()[event.sid], first);
    }
  }

  /** An event that concerns the node, in the shard's own terms. */
  lemma ConcerningIs(hosted: Hosted, own: nat, event: Payload, saved: bool)
    requires event.Event? && event.source != own && event.sid in hosted
    ensures var docs := hosted[event.sid];
            && (AppliedBy(hosted, own, event) <==> Accepts(docs, event.op) && !Holds(docs, event.op))
            && (Acknowledged(hosted, own, event, saved) <==>
                  Holds(docs, event.op) || (Accepts(docs, event.op) && saved))
            && Processed(hosted, own, event)
                 == if Accepts(docs, event.op) && !Holds(docs, event.op)
                    then hosted[event.sid := Mutate(docs, event.op)] else hosted
  {
    VerdictIs(hosted, event.sid, event.op);
  }

  class RemoteEventProcessor {
    const node: LocalNode
    const ownNodeId: nat
    var eventsReceived: nat
    var eventsProcessed: nat
    var eventsFailed: nat
    var eventsSkipped: nat
    var eventsSelfSkipped: nat
    var malformedEvents: nat
    var indexOperations: nat
    var updateOperations: nat
    var removeOperations: nat
    ghost var thrown: nat   // payloads whose decoding threw out of `process`

    ghost predicate Valid()
      reads this, node, node.Repr, node.shards.Values
    {
      node.Valid() && this !in node.Repr && Balanced()
    }

    /** Every event received is accounted for once. */
    ghost predicate Balanced()
      reads this
    {
      && eventsReceived == eventsProcessed + eventsFailed + eventsSkipped + malformedEvents + thrown
      && eventsProcessed == indexOperations + updateOperations + removeOperations
      && eventsSelfSkipped <= eventsSkipped
    }

    constructor (node: LocalNode, ownNodeId: nat)
      requires node.Valid()
      ensures Valid() && this.node == node && this.ownNodeId == ownNodeId
    {
      this.node, this.ownNodeId := node, ownNodeId;
      eventsReceived, eventsProcessed, eventsFailed, eventsSkipped := 0, 0, 0, 0;
      eventsSelfSkipped, malformedEvents := 0, 0;
      indexOperations, updateOperations, removeOperations := 0, 0, 0;
      thrown := 0;
    }

    /** `first` is the save inside the application, `second` the one after it. */
    method Process(topic: string, payload: Payload, first: WriteOutcome, second: WriteOutcome) returns (ack: bool)
      requires Valid()
      modifies this, node.Repr
      ensures Valid() && node.Repr == old(node.Repr)
      // an event for nobody here leaves memory and files alone; it is acknowledged unless
      // decoding it throws
      ensures topic != DOCUMENT_MUTATIONS || !payload.Event? || payload.source == ownNodeId
              || payload.sid !in old(node.Contents()) ==>
                && node.Contents() == old(node.Contents()) && node.disk == old(node.disk)
                && ack == !(topic == DOCUMENT_MUTATIONS && payload.NonStringType?)
      // any other takes effect once, and is acknowledged when its outcome is there and saved
      ensures topic == DOCUMENT_MUTATIONS && payload.Event? && payload.source != ownNodeId
              && payload.sid in old(node.Contents()) ==>
                var docs := old(node.Contents())[payload.sid];
                && (ack <==> Holds(docs, payload.op) || (Accepts(docs, payload.op) && second == Written))
                && node.Contents() == old(node.Contents())[payload.sid :=
                     if Accepts(docs, payload.op) && !Holds(docs, payload.op) then Mutate(docs, payload.op) else docs]
      ensures topic == DOCUMENT_MUTATIONS ==>
                && ack == Acknowledged(old(node.Contents()), ownNodeId, payload, second == Written)
                && node.Contents() == Processed(old(node.Contents()), ownNodeId, payload)
      ensures DiskAfter(old(node.disk), node.disk, old(node.Contents()), ownNodeId,
                        if topic == DOCUMENT_MUTATIONS then payload else OtherType, first, second)
      ensures eventsReceived == old(eventsReceived) + 1
      ensures eventsFailed + thrown == old(eventsFailed + thrown) + if ack then 0 else 1
    {
      hide LocalNode.Valid, LocalNode.Contents, RemoteVerdict, MutateHosted, WroteTwice, Holds, Accepts, Mutate;
      eventsReceived := eventsReceived + 1;
      if payload.Event? && payload.source != ownNodeId && payload.sid in node.Contents() {
        ConcerningIs(node.Contents(), ownNodeId, payload, second == Written);
      } else {
        NotConcerned(node.Contents(), ownNodeId, payload, second == Written);
      }
      if topic != DOCUMENT_MUTATIONS {
        eventsSkipped := eventsSkipped + 1;
        return true;
      }
      match payload
      case Unparseable => malformedEvents := malformedEvents + 1; ack := true;
      case NoEventType => malformedEvents := malformedEvents + 1; ack := true;
      case NonStringType => thrown := thrown + 1; ack := false;
      case OtherType => eventsSkipped := eventsSkipped + 1; ack := true;
      case BadEvent => malformedEvents := malformedEvents + 1; ack := true;
      case Event(_, _, _) => ack := ProcessEvent(payload, first, second);
    }

    method ProcessEvent(event: Payload, first: WriteOutcome, second: WriteOutcome) returns (ack: bool)
      requires node.Valid() && this !in node.Repr && event.Event?
      requires eventsReceived == eventsProcessed + eventsFailed + eventsSkipped + malformedEvents + thrown + 1
      requires eventsProcessed == indexOperations + updateOperations + removeOperations
      requires eventsSelfSkipped <= eventsSkipped
      modifies this, node.Repr
      ensures Valid() && node.Repr == old(node.Repr)
      ensures ack == Acknowledged(old(node.Contents()), ownNodeId, event, second == Written)
      ensures node.Contents() == Processed(old(node.Contents()), ownNodeId, event)
      ensures DiskAfter(old(node.disk), node.disk, old(node.Contents()), ownNodeId, event, first, second)
      ensures eventsReceived == old(eventsReceived) && thrown == old(thrown)
      ensures eventsFailed == old(eventsFailed) + if ack then 0 else 1
    {
      hide LocalNode.Valid, LocalNode.Contents, Acknowledged, Processed, AppliedBy, WroteTwice;
      var hosted := node.HasShard(event.sid);
      if event.source == ownNodeId || !hosted {
        NotConcerned(node.Contents(), ownNodeId, event, second == Written);
        eventsSkipped := eventsSkipped + 1;
        if event.source == ownNodeId {
          eventsSelfSkipped := eventsSelfSkipped + 1;
        }
        return true;
      }
      var applied;
      ack, applied := ApplyAndSave(node, ownNodeId, event, first, second);
      if !ack {
        eventsFailed := eventsFailed + 1;
      } else if !applied {
        eventsSkipped := eventsSkipped + 1;
      } else {
        CountOperation(event.op);
      }
    }

    method CountOperation(op: ShardOp)
      requires eventsProcessed == indexOperations + updateOperations + removeOperations
      modifies this`eventsProcessed, this`indexOperations, this`updateOperations, this`removeOperations
      ensures eventsProcessed == indexOperations + updateOperations + removeOperations == old(eventsProcessed) + 1
      ensures indexOperations == old(indexOperations) + if op.Add? then 1 else 0
      ensures updateOperations == old(updateOperations) + if op.Update? then 1 else 0
    {
      match op {
        case Add(_, _) => indexOperations := indexOperations + 1;
        case Update(_, _) => updateOperations := updateOperations + 1;
        case Remove(_) => removeOperations := removeOperations + 1;
      }
      eventsProcessed := eventsProcessed + 1;
    }
  }
}

/** src/shard_coordinator.cpp, write side: a write goes to every replica of its shard in
    parallel, succeeds iff every replica says so, and then publishes one event. Modelled
    as interleaved per-replica steps; requests and replies may be lost, and writes to one
    document do not overlap. */
module Replication {
  import opened Wrappers
  import opened Documents
  import opened Shards
  import opened Nodes
  import opened Coordinators

  /** Static configuration: replicas of each shard and the routing function. */
  datatype Config = Config(placement: seq<seq<nat>>, route: DocId -> nat)

  ghost predicate WellFormed(cfg: Config) {
    forall id: DocId :: cfg.route(id) < |cfg.placement|
  }

  function Replicas(cfg: Config, id: DocId): set<nat>
    requires cfg.route(id) < |cfg.placement|
  {
    set n | n in cfg.placement[cfg.route(id)]
  }

  /** What happens to one call of one replica. A retried or slow call that was applied
      but reported as failed is a lost reply. */
  datatype Fate = Delivered | RequestLost | ReplyLost

  datatype InFlight = InFlight(op: ShardOp, pending: set<nat>, done: set<nat>, failed: bool)

  datatype Cluster = Cluster(
    nodes: seq<Hosted>,
    inFlight: map<DocId, InFlight>,
    events: seq<ShardOp>,
    unreached: set<DocId>,   // documents with a lost request since their last successful write
    unheard: set<DocId>)     // documents with a lost reply since then

  datatype Step =
    | Begin(op: ShardOp)
    | Deliver(id: DocId, node: nat, fate: Fate)
    | Finish(id: DocId)

  ghost predicate Enabled(cfg: Config, c: Cluster, step: Step)
    requires WellFormed(cfg)
  {
    match step
    case Begin(op) =>
      // blank content is refused before any replica is called
      op.id !in c.inFlight && (op.Remove? || IsValidContent(op.content))
    case Deliver(id, n, fate) =>
      id in c.inFlight && n in c.inFlight[id].pending && n < |c.nodes|
    case Finish(id) =>
      id in c.inFlight && c.inFlight[id].pending == {}
  }

  ghost function Apply(cfg: Config, c: Cluster, step: Step): Cluster
    requires WellFormed(cfg) && Enabled(cfg, c, step)
  {
    match step
    case Begin(op) =>
      c.(inFlight := c.inFlight[op.id := InFlight(op, Replicas(cfg, op.id), {}, false)])
    case Deliver(id, n, fate) =>
      var w := c.inFlight[id];
      var sid := cfg.route(id);
      var accepted := AcceptsOp(c.nodes[n], sid, w.op);
      Cluster(
        if fate == RequestLost then c.nodes else c.nodes[n := MutateHosted(c.nodes[n], sid, w.op)],
        c.inFlight[id := InFlight(w.op, w.pending - {n}, w.done + {n}, w.failed || fate != Delivered || !accepted)],
        c.events,
        if fate == RequestLost then c.unreached + {id} else c.unreached,
        if fate == ReplyLost then c.unheard + {id} else c.unheard)
    case Finish(id) =>
      var w := c.inFlight[id];
      Cluster(c.nodes, c.inFlight - {id},
              if w.failed then c.events else c.events + [w.op],
              if w.failed then c.unreached else c.unreached - {id},
              if w.failed then c.unheard else c.unheard - {id})
  }

  // ---------------------------------------------------------------------------
  // One document at a time
  // ---------------------------------------------------------------------------

  function Value(hosted: Hosted, sid: nat, id: DocId): Option<string> {
    if id in DocsOf(hosted, sid) then Some(DocsOf(hosted, sid)[id]) else None
  }

  predicate AcceptsValue(v: Option<string>, op: ShardOp) {
    match op
    case Add(id, content) => IsValidContent(content) && v.None?
    case Update(id, content) => IsValidContent(content) && v.Some?
    case Remove(id) => v.Some?
  }

  /** The value a write leaves behind when it is accepted. */
  function Outcome(op: ShardOp): Option<string> {
    match op
    case Add(id, content) => Some(content)
    case Update(id, content) => Some(content)
    case Remove(id) => None
  }

  function MutateValue(v: Option<string>, op: ShardOp): Option<string> {
    if AcceptsValue(v, op) then Outcome(op) else v
  }

  /** A write to one document acts on that document's value and nothing else. */
  lemma MutateIsLocal(hosted: Hosted, sid: nat, op: ShardOp, s: nat, id: DocId)
    requires sid in hosted
    ensures AcceptsOp(hosted, sid, op) == AcceptsValue(Value(hosted, sid, op.id), op)
    ensures Value(MutateHosted(hosted, sid, op), s, id)
         == if s == sid && id == op.id then MutateValue(Value(hosted, sid, id), op) else Value(hosted, s, id)
    ensures MutateHosted(hosted, sid, op).Keys == hosted.Keys
  {
  }

  /** What the event log says the value of a document is, from an initial collection. */
  function LoggedValue(initial: Docs, events: seq<ShardOp>, id: DocId): Option<string> {
    if events == [] then (if id in initial then Some(initial[id]) else None)
    else if events[|events| - 1].id == id then Outcome(events[|events| - 1])
    else LoggedValue(initial, events[..|events| - 1], id)
  }

  lemma LoggedSnoc(initial: Docs, events: seq<ShardOp>, op: ShardOp, id: DocId)
    ensures LoggedValue(initial, events + [op], id)
         == if op.id == id then Outcome(op) else LoggedValue(initial, events, id)
  {
    assert (events + [op])[..|events|] == events;
  }

  // ---------------------------------------------------------------------------
  // Invariant
  // ---------------------------------------------------------------------------

  ghost predicate Hosts(cfg: Config, nodes: seq<Hosted>) {
    && (forall sid: nat, n: nat :: sid < |cfg.placement| && n in cfg.placement[sid] ==> n < |nodes|)
    && (forall sid: nat, n: nat :: sid < |cfg.placement| && n < |nodes| && n in cfg.placement[sid] ==> sid in nodes[n])
  }

  ghost predicate AllAt(cfg: Config, c: Cluster, id: DocId, replicas: set<nat>, v: Option<string>) {
    forall n :: n in replicas ==> n < |c.nodes| && Value(c.nodes[n], cfg.route(id), id) == v
  }

  /** The replicas of a document hold `v`, or, while a write is under way, its effect on
      `v` at exactly the replicas already served. */
  ghost predicate AgreeAt(cfg: Config, c: Cluster, id: DocId, v: Option<string>)
    requires WellFormed(cfg)
  {
    if id in c.inFlight then
      var w := c.inFlight[id];
      AllAt(cfg, c, id, w.pending, v) && AllAt(cfg, c, id, w.done, MutateValue(v, w.op))
    else
      AllAt(cfg, c, id, Replicas(cfg, id), v)
  }

  ghost predicate Agree(cfg: Config, c: Cluster, id: DocId)
    requires WellFormed(cfg)
  {
    exists v :: AgreeAt(cfg, c, id, v)
  }

  /** They hold what the log says. */
  ghost predicate Undisturbed(cfg: Config, initial: Docs, c: Cluster, id: DocId)
    requires WellFormed(cfg)
  {
    var v := LoggedValue(initial, c.events, id);
    && AgreeAt(cfg, c, id, v)
    && (id in c.inFlight && c.inFlight[id].failed ==> !AcceptsValue(v, c.inFlight[id].op))
  }

  /** A write not yet known to have failed has its outcome at every replica served. */
  ghost predicate WriteOk(cfg: Config, c: Cluster, id: DocId)
    requires WellFormed(cfg)
  {
    id in c.inFlight ==>
      var w := c.inFlight[id];
      && w.op.id == id
      && w.pending + w.done == Replicas(cfg, id) && w.pending !! w.done
      && (w.op.Remove? || IsValidContent(w.op.content))
      && (!w.failed ==> AllAt(cfg, c, id, w.done, Outcome(w.op)))
  }

  ghost predicate DocumentOk(cfg: Config, initial: Docs, c: Cluster, id: DocId)
    requires WellFormed(cfg)
  {
    && WriteOk(cfg, c, id)
    && (id !in c.unreached ==> Agree(cfg, c, id))
    && (id !in c.unreached && id !in c.unheard ==> Undisturbed(cfg, initial, c, id))
  }

  ghost predicate Inv(cfg: Config, initial: Docs, c: Cluster)
    requires WellFormed(cfg)
  {
    && Hosts(cfg, c.nodes)
    && RoutedNodes(c.nodes, cfg.route)
    && forall id: DocId :: DocumentOk(cfg, initial, c, id)
  }

  /** A step about one document leaves the others as they were. */
  ghost predicate SameFor(cfg: Config, c: Cluster, next: Cluster, initial: Docs, id: DocId)
    requires WellFormed(cfg)
  {
    && |c.nodes| == |next.nodes|
    && (forall n: nat :: n < |c.nodes| ==>
          Value(next.nodes[n], cfg.route(id), id) == Value(c.nodes[n], cfg.route(id), id))
    && (id in next.inFlight <==> id in c.inFlight)
    && (id in c.inFlight ==> next.inFlight[id] == c.inFlight[id])
    && LoggedValue(initial, next.events, id) == LoggedValue(initial, c.events, id)
    && (id in next.unreached <==> id in c.unreached) && (id in next.unheard <==> id in c.unheard)
  }

  lemma SameForKeeps(cfg: Config, initial: Docs, c: Cluster, next: Cluster, id: DocId)
    requires WellFormed(cfg)
    requires DocumentOk(cfg, initial, c, id) && SameFor(cfg, c, next, initial, id)
    ensures DocumentOk(cfg, initial, next, id)
  {
    forall replicas: set<nat>, v: Option<string> | AllAt(cfg, c, id, replicas, v)
      ensures AllAt(cfg, next, id, replicas, v)
    {
    }
    if Agree(cfg, c, id) {
      var v :| AgreeAt(cfg, c, id, v);
      assert AgreeAt(cfg, next, id, v);
    }
  }

  function StepId(step: Step): DocId {
    match step
    case Begin(op) => op.id
    case Deliver(id, n, fate) => id
    case Finish(id) => id
  }

  lemma OthersUnaffected(cfg: Config, initial: Docs, c: Cluster, step: Step, id: DocId)
    requires WellFormed(cfg) && Hosts(cfg, c.nodes) && Enabled(cfg, c, step)
    requires WriteOk(cfg, c, StepId(step)) && id != StepId(step)
    ensures SameFor(cfg, c, Apply(cfg, c, step), initial, id)
  {
    var next := Apply(cfg, c, step);
    match step
    case Begin(op) =>
    case Deliver(d, n, fate) =>
      var w := c.inFlight[d];
      assert n in Replicas(cfg, d);
      MutateIsLocal(c.nodes[n], cfg.route(d), w.op, cfg.route(id), id);
    case Finish(d) =>
      LoggedSnoc(initial, c.events, c.inFlight[d].op, id);
  }

  lemma BeginKeeps(cfg: Config, initial: Docs, c: Cluster, op: ShardOp)
    requires WellFormed(cfg) && Hosts(cfg, c.nodes) && Enabled(cfg, c, Begin(op))
    requires DocumentOk(cfg, initial, c, op.id)
    ensures DocumentOk(cfg, initial, Apply(cfg, c, Begin(op)), op.id)
  {
    var next := Apply(cfg, c, Begin(op));
    assert AllAt(cfg, next, op.id, {}, Outcome(op));
    if Agree(cfg, c, op.id) {
      var v :| AgreeAt(cfg, c, op.id, v);
      assert AllAt(cfg, next, op.id, {}, MutateValue(v, op)) && AgreeAt(cfg, next, op.id, v);
    }
  }

  /** Where the values of a document are after one replica has been served. */
  lemma ServedValues(cfg: Config, c: Cluster, id: DocId, n: nat, fate: Fate, m: nat)
    requires WellFormed(cfg) && Hosts(cfg, c.nodes) && Enabled(cfg, c, Deliver(id, n, fate))
    requires WriteOk(cfg, c, id) && m < |c.nodes|
    ensures var next := Apply(cfg, c, Deliver(id, n, fate));
            |next.nodes| == |c.nodes|
            && Value(next.nodes[m], cfg.route(id), id)
            == if m == n && fate != RequestLost
               then MutateValue(Value(c.nodes[n], cfg.route(id), id), c.inFlight[id].op)
               else Value(c.nodes[m], cfg.route(id), id)
  {
    assert n in Replicas(cfg, id);
    MutateIsLocal(c.nodes[n], cfg.route(id), c.inFlight[id].op, cfg.route(id), id);
  }

  lemma DeliverKeeps(cfg: Config, initial: Docs, c: Cluster, id: DocId, n: nat, fate: Fate)
    requires WellFormed(cfg) && Hosts(cfg, c.nodes) && Enabled(cfg, c, Deliver(id, n, fate))
    requires DocumentOk(cfg, initial, c, id)
    ensures DocumentOk(cfg, initial, Apply(cfg, c, Deliver(id, n, fate)), id)
  {
    var next := Apply(cfg, c, Deliver(id, n, fate));
    var w, wNext := c.inFlight[id], next.inFlight[id];
    assert wNext.pending + wNext.done == w.pending + w.done;
    DeliveredTo(cfg, c, id, n, fate);
    if fate != RequestLost {
      if Agree(cfg, c, id) {
        var v :| AgreeAt(cfg, c, id, v);
        DeliverKeepsAgreement(cfg, c, id, n, fate, v);
      }
      if AgreeAt(cfg, c, id, LoggedValue(initial, c.events, id)) {
        DeliverKeepsAgreement(cfg, c, id, n, fate, LoggedValue(initial, c.events, id));
      }
    }
  }

  /** A served replica that did not refuse holds the write's outcome. */
  lemma DeliveredTo(cfg: Config, c: Cluster, id: DocId, n: nat, fate: Fate)
    requires WellFormed(cfg) && Hosts(cfg, c.nodes) && Enabled(cfg, c, Deliver(id, n, fate)) && WriteOk(cfg, c, id)
    ensures WriteOk(cfg, Apply(cfg, c, Deliver(id, n, fate)), id)
    ensures AcceptsOp(c.nodes[n], cfg.route(id), c.inFlight[id].op)
         == AcceptsValue(Value(c.nodes[n], cfg.route(id), id), c.inFlight[id].op)
  {
    var next := Apply(cfg, c, Deliver(id, n, fate));
    var w, wNext := c.inFlight[id], next.inFlight[id];
    assert n in Replicas(cfg, id);
    MutateIsLocal(c.nodes[n], cfg.route(id), w.op, cfg.route(id), id);
    assert wNext.pending + wNext.done == w.pending + w.done;
    if !wNext.failed {
      forall m | m in wNext.done ensures m < |next.nodes| && Value(next.nodes[m], cfg.route(id), id) == Outcome(w.op) {
        ServedValues(cfg, c, id, n, fate, m);
      }
    }
  }

  /** A call that is carried out, heard of or not, keeps replicas in agreement. */
  lemma DeliverKeepsAgreement(cfg: Config, c: Cluster, id: DocId, n: nat, fate: Fate, v: Option<string>)
    requires WellFormed(cfg) && Hosts(cfg, c.nodes) && Enabled(cfg, c, Deliver(id, n, fate))
    requires WriteOk(cfg, c, id) && AgreeAt(cfg, c, id, v) && fate != RequestLost
    ensures AgreeAt(cfg, Apply(cfg, c, Deliver(id, n, fate)), id, v)
  {
    var next := Apply(cfg, c, Deliver(id, n, fate));
    var w, wNext := c.inFlight[id], next.inFlight[id];
    forall m | m in wNext.pending ensures m < |next.nodes| && Value(next.nodes[m], cfg.route(id), id) == v {
      ServedValues(cfg, c, id, n, fate, m);
    }
    forall m | m in wNext.done
      ensures m < |next.nodes| && Value(next.nodes[m], cfg.route(id), id) == MutateValue(v, w.op)
    {
      ServedValues(cfg, c, id, n, fate, m);
    }
  }

  lemma FinishKeeps(cfg: Config, initial: Docs, c: Cluster, id: DocId)
    requires WellFormed(cfg) && Enabled(cfg, c, Finish(id))
    requires DocumentOk(cfg, initial, c, id)
    ensures DocumentOk(cfg, initial, Apply(cfg, c, Finish(id)), id)
  {
    var next := Apply(cfg, c, Finish(id));
    var w := c.inFlight[id];
    LoggedSnoc(initial, c.events, w.op, id);
    assert w.done == Replicas(cfg, id);
    if !w.failed {
      assert AgreeAt(cfg, next, id, Outcome(w.op));
    } else if Agree(cfg, c, id) {
      var v :| AgreeAt(cfg, c, id, v);
      assert AgreeAt(cfg, next, id, MutateValue(v, w.op));
    }
  }

  lemma StepKeepsInv(cfg: Config, initial: Docs, c: Cluster, step: Step)
    requires WellFormed(cfg) && Inv(cfg, initial, c) && Enabled(cfg, c, step)
    ensures Inv(cfg, initial, Apply(cfg, c, step))
  {
    var next := Apply(cfg, c, step);
    var d := StepId(step);
    assert DocumentOk(cfg, initial, c, d);
    NodesStayRouted(cfg, initial, c, step);
    forall id: DocId ensures DocumentOk(cfg, initial, next, id) {
      assert DocumentOk(cfg, initial, c, id);
      if id != d {
        OthersUnaffected(cfg, initial, c, step, id);
        SameForKeeps(cfg, initial, c, next, id);
      } else {
        match step
        case Begin(op) => BeginKeeps(cfg, initial, c, op);
        case Deliver(_, n, fate) => DeliverKeeps(cfg, initial, c, d, n, fate);
        case Finish(_) => FinishKeeps(cfg, initial, c, d);
      }
    }
  }

  lemma NodesStayRouted(cfg: Config, initial: Docs, c: Cluster, step: Step)
    requires WellFormed(cfg) && Inv(cfg, initial, c) && Enabled(cfg, c, step)
    ensures Hosts(cfg, Apply(cfg, c, step).nodes) && RoutedNodes(Apply(cfg, c, step).nodes, cfg.route)
  {
    if step.Deliver? {
      assert DocumentOk(cfg, initial, c, step.id);
      var w, sid, n := c.inFlight[step.id], cfg.route(step.id), step.node;
      assert n in Replicas(cfg, step.id);
      var nodesNext := Apply(cfg, c, step).nodes;
      MutateIsLocal(c.nodes[n], sid, w.op, sid, step.id);
      forall s: nat, m: nat | s < |cfg.placement| && m in cfg.placement[s]
        ensures m < |nodesNext| && s in nodesNext[m]
      {
        assert m < |c.nodes| && s in c.nodes[m];
        assert nodesNext[m].Keys == c.nodes[m].Keys;
      }
      forall m: nat, s: nat, id: DocId | m < |nodesNext| && s in nodesNext[m] && id in nodesNext[m][s]
        ensures cfg.route(id) == s
      {
        MutateIsLocal(c.nodes[n], sid, w.op, s, id);
      }
    }
  }

  // ---------------------------------------------------------------------------
  // Whole runs
  // ---------------------------------------------------------------------------

  ghost predicate IsRun(cfg: Config, steps: seq<Step>, states: seq<Cluster>)
    requires WellFormed(cfg)
  {
    && |states| == |steps| + 1
    && forall k :: 0 <= k < |steps| ==>
         Enabled(cfg, states[k], steps[k]) && states[k + 1] == Apply(cfg, states[k], steps[k])
  }

  /** No write under way and every replica holding the initial documents of its shard. */
  ghost predicate Initial(cfg: Config, initial: Docs, c: Cluster)
    requires WellFormed(cfg)
  {
    && Hosts(cfg, c.nodes) && RoutedNodes(c.nodes, cfg.route)
    && c.inFlight == map[] && c.events == [] && c.unreached == {} && c.unheard == {}
    && forall id: DocId :: AllAt(cfg, c, id, Replicas(cfg, id), LoggedValue(initial, [], id))
  }

  lemma {:induction false} RunKeepsInv(cfg: Config, initial: Docs, steps: seq<Step>, states: seq<Cluster>, k: nat)
    requires WellFormed(cfg) && IsRun(cfg, steps, states) && Initial(cfg, initial, states[0])
    requires k < |states|
    ensures Inv(cfg, initial, states[k])
  {
    if k == 0 {
      forall id: DocId ensures DocumentOk(cfg, initial, states[0], id) {
        assert AgreeAt(cfg, states[0], id, LoggedValue(initial, [], id));
      }
    } else {
      RunKeepsInv(cfg, initial, steps, states, k - 1);
      StepKeepsInv(cfg, initial, states[k - 1], steps[k - 1]);
    }
  }

  /** A call of this kind about the document. */
  predicate Loses(step: Step, id: DocId, fate: Fate) {
    step.Deliver? && step.id == id && step.fate == fate
  }

  /** A write to the document ends well at this step. */
  predicate EndsWell(c: Cluster, step: Step, id: DocId) {
    step == Finish(id) && id in c.inFlight && !c.inFlight[id].failed
  }

  ghost predicate LostSince(steps: seq<Step>, states: seq<Cluster>, k: nat, id: DocId, fate: Fate)
    requires k <= |steps| < |states|
  {
    exists j :: 0 <= j < k && Loses(steps[j], id, fate) && forall i :: j < i < k ==> !EndsWell(states[i], steps[i], id)
  }

  lemma LostSnoc(steps: seq<Step>, states: seq<Cluster>, k: nat, id: DocId, fate: Fate)
    requires 0 < k <= |steps| < |states|
    ensures LostSince(steps, states, k, id, fate) <==>
              || Loses(steps[k - 1], id, fate)
              || (LostSince(steps, states, k - 1, id, fate) && !EndsWell(states[k - 1], steps[k - 1], id))
  {
    if LostSince(steps, states, k - 1, id, fate) && !EndsWell(states[k - 1], steps[k - 1], id) {
      var j :| 0 <= j < k - 1 && Loses(steps[j], id, fate)
               && forall i :: j < i < k - 1 ==> !EndsWell(states[i], steps[i], id);
      assert Loses(steps[j], id, fate) && forall i :: j < i < k ==> !EndsWell(states[i], steps[i], id);
    }
  }

  /** The histories are no more than they say: a document is unreached exactly when a request
      about it was lost since its last successful write, and unheard likewise for replies. */
  lemma {:induction false} UnreachedIff(cfg: Config, initial: Docs, steps: seq<Step>, states: seq<Cluster>, k: nat,
                                        id: DocId)
    requires WellFormed(cfg) && IsRun(cfg, steps, states) && Initial(cfg, initial, states[0])
    requires k < |states|
    ensures id in states[k].unreached <==> LostSince(steps, states, k, id, RequestLost)
    ensures id in states[k].unheard <==> LostSince(steps, states, k, id, ReplyLost)
  {
    if k > 0 {
      hide LostSince;
      UnreachedIff(cfg, initial, steps, states, k - 1, id);
      LostSnoc(steps, states, k, id, RequestLost);
      LostSnoc(steps, states, k, id, ReplyLost);
      assert Enabled(cfg, states[k - 1], steps[k - 1]);
    } else {
      NothingLost(steps, states, id);
    }
  }

  lemma NothingLost(steps: seq<Step>, states: seq<Cluster>, id: DocId)
    requires |steps| < |states|
    ensures !LostSince(steps, states, 0, id, RequestLost) && !LostSince(steps, states, 0, id, ReplyLost)
  {
  }

  /** A write reported successful is at every replica, whatever was lost before it, and
      has published exactly one event; a failed one publishes nothing. */
  lemma SuccessIsEverywhere(cfg: Config, initial: Docs, steps: seq<Step>, states: seq<Cluster>, k: nat)
    requires WellFormed(cfg) && IsRun(cfg, steps, states) && Initial(cfg, initial, states[0])
    requires k < |steps| && steps[k].Finish?
    ensures var id := steps[k].id;
            var w := states[k].inFlight[id];
            && w.op.id == id
            && (!w.failed ==> AllAt(cfg, states[k + 1], id, Replicas(cfg, id), Outcome(w.op))
                              && states[k + 1].events == states[k].events + [w.op])
            && (w.failed ==> states[k + 1].events == states[k].events)
  {
    RunKeepsInv(cfg, initial, steps, states, k);
    assert DocumentOk(cfg, initial, states[k], steps[k].id);
    assert states[k].inFlight[steps[k].id].done == Replicas(cfg, steps[k].id);
  }

  /** In every reachable state, a document with no write under way and no request lost since
      its last successful write is identical on all its replicas; if no reply was lost
      either, its value is what the published events say. */
  lemma QuiescentReplicasAgree(cfg: Config, initial: Docs, steps: seq<Step>, states: seq<Cluster>, k: nat, id: DocId)
    requires WellFormed(cfg) && IsRun(cfg, steps, states) && Initial(cfg, initial, states[0])
    requires k < |states| && id !in states[k].inFlight && id !in states[k].unreached
    ensures exists v :: AllAt(cfg, states[k], id, Replicas(cfg, id), v)
    ensures id !in states[k].unheard ==>
              AllAt(cfg, states[k], id, Replicas(cfg, id), LoggedValue(initial, states[k].events, id))
  {
    RunKeepsInv(cfg, initial, steps, states, k);
    assert DocumentOk(cfg, initial, states[k], id);
    var v :| AgreeAt(cfg, states[k], id, v);
    assert AllAt(cfg, states[k], id, Replicas(cfg, id), v);
  }

  /** In such a state a read gives the logged value from whichever replica answers. */
  method FailoverReadsTheLog(cfg: Config, client: Client, id: DocId, ghost initial: Docs,
                             ghost steps: seq<Step>, ghost states: seq<Cluster>, ghost k: nat)
    returns (content: Option<string>)
    requires WellFormed(cfg) && IsRun(cfg, steps, states) && Initial(cfg, initial, states[0])
    requires k < |states| && id !in states[k].inFlight && id !in states[k].unreached && id !in states[k].unheard
    requires Serves(client, states[k].nodes) && client.placement == cfg.placement
    requires !AllFail(client, cfg.route(id), id, client.placement[cfg.route(id)])
    ensures content == LoggedValue(initial, states[k].events, id)
  {
    content := GetDocument(client, cfg.route, id, states[k].nodes);
    QuiescentReplicasAgree(cfg, initial, steps, states, k, id);
    FirstReadingReads(client, cfg.route(id), id, client.placement[cfg.route(id)]);
    var n := FirstReading(client, cfg.route(id), id, client.placement[cfg.route(id)]).value;
    assert n in Replicas(cfg, id);
    assert Value(states[k].nodes[n], cfg.route(id), id) == LoggedValue(initial, states[k].events, id);
  }

  /** When nothing is under way and no request was lost, whole shards agree, so searches
      pin any replica with the same result. */
  lemma QuiescentShardsAgree(cfg: Config, initial: Docs, steps: seq<Step>, states: seq<Cluster>, k: nat,
                             sid: nat, a: nat, b: nat)
    requires WellFormed(cfg) && IsRun(cfg, steps, states) && Initial(cfg, initial, states[0])
    requires k < |states| && states[k].inFlight == map[] && states[k].unreached == {}
    requires sid < |cfg.placement| && a in cfg.placement[sid] && b in cfg.placement[sid]
    requires a < |states[k].nodes| && b < |states[k].nodes|
    ensures sid in states[k].nodes[a] && sid in states[k].nodes[b]
    ensures states[k].nodes[a][sid] == states[k].nodes[b][sid]
  {
    var nodes := states[k].nodes;
    RunKeepsInv(cfg, initial, steps, states, k);
    forall id: DocId ensures Value(nodes[a], sid, id) == Value(nodes[b], sid, id) {
      if cfg.route(id) == sid {
        QuiescentReplicasAgree(cfg, initial, steps, states, k, id);
        assert a in Replicas(cfg, id) && b in Replicas(cfg, id);
      }
    }
    forall id: DocId
      ensures id in nodes[a][sid] <==> id in nodes[b][sid]
      ensures id in nodes[a][sid] && id in nodes[b][sid] ==> nodes[a][sid][id] == nodes[b][sid][id]
    {
      assert Value(nodes[a], sid, id) == Value(nodes[b], sid, id);
    }
  }

  /** Folding the replicas' replies: an error if any failed, else the count of the terms. */
  method CollectReplies(replies: seq<WriteReply>) returns (isError: bool, termsIndexed: nat)
    ensures isError == exists k :: 0 <= k < |replies| && replies[k].isError
    ensures !isError ==> termsIndexed == if replies == [] then 0 else replies[|replies| - 1].termsIndexed
  {
    var allSucceeded := true;
    termsIndexed := 0;
    for k := 0 to |replies|
      invariant allSucceeded == forall j :: 0 <= j < k ==> !replies[j].isError
      invariant allSucceeded ==> termsIndexed == if k == 0 then 0 else replies[k - 1].termsIndexed
    {
      if replies[k].isError {
        allSucceeded := false;
      } else if allSucceeded {
        termsIndexed := replies[k].termsIndexed;
      }
    }
    isError := !allSucceeded;
  }
}

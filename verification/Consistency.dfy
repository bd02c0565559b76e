/** The write side, the read side and the event side together: in a settled state of the
    replication protocol, distributed search answers as one big index of what the events
    say, and a node that has read those events holds the same shards as the replicas. */
module Consistency {
  import opened Wrappers
  import opened Documents
  import opened Tokenizer
  import opened Index
  import opened Shards
  import opened Ranking
  import opened Collections
  import opened Coordinators
  import opened Nodes
  import opened RemoteEvents
  import R = Replication
  import P = Pipelines

  /** The collection the published events determine. */
  function LoggedDocs(initial: Docs, events: seq<ShardOp>): Docs {
    if events == [] then initial
    else
      var before, last := LoggedDocs(initial, events[..|events| - 1]), events[|events| - 1];
      match R.Outcome(last)
      case Some(content) => before[last.id := content]
      case None => before - {last.id}
  }

  lemma {:induction false} LoggedDocsAt(initial: Docs, events: seq<ShardOp>, id: DocId)
    ensures R.LoggedValue(initial, events, id)
         == if id in LoggedDocs(initial, events) then Some(LoggedDocs(initial, events)[id]) else None
  {
    if events != [] { LoggedDocsAt(initial, events[..|events| - 1], id); }
  }

  function ShardOf(cfg: R.Config, docs: Docs, sid: nat): Docs {
    map id: DocId | id in docs && cfg.route(id) == sid :: docs[id]
  }

  /** A collection cut into shards by the routing function. */
  function ShardsOf(cfg: R.Config, docs: Docs): (shards: seq<Docs>)
    ensures |shards| == |cfg.placement|
    ensures forall sid :: 0 <= sid < |shards| ==> shards[sid] == ShardOf(cfg, docs, sid)
  {
    seq(|cfg.placement|, sid requires 0 <= sid < |cfg.placement| => ShardOf(cfg, docs, sid))
  }

  lemma ShardsMakeTheCollection(cfg: R.Config, docs: Docs)
    requires R.WellFormed(cfg)
    ensures Collection(ShardsOf(cfg, docs)) == docs
  {
    var shards := ShardsOf(cfg, docs);
    forall id: DocId
      ensures id in Collection(shards) <==> id in docs
      ensures id in docs ==> Collection(shards)[id] == docs[id]
    {
      CollectionPointwise(shards, cfg.route, id);
      assert cfg.route(id) < |shards|;
    }
  }

  /** No write is under way and no call was lost. */
  ghost predicate Calm(c: R.Cluster) {
    c.inFlight == map[] && c.unreached == {} && c.unheard == {}
  }

  /** Then every replica of every shard holds exactly the shard's part of the log. */
  lemma ReplicasHoldTheLog(cfg: R.Config, initial: Docs, steps: seq<R.Step>, states: seq<R.Cluster>, k: nat,
                           sid: nat, n: nat)
    requires R.WellFormed(cfg) && R.IsRun(cfg, steps, states) && R.Initial(cfg, initial, states[0])
    requires k < |states| && Calm(states[k])
    requires sid < |cfg.placement| && n in cfg.placement[sid] && n < |states[k].nodes|
    ensures sid in states[k].nodes[n]
    ensures states[k].nodes[n][sid] == ShardOf(cfg, LoggedDocs(initial, states[k].events), sid)
  {
    R.RunKeepsInv(cfg, initial, steps, states, k);
    var held, docs := states[k].nodes[n][sid], LoggedDocs(initial, states[k].events);
    forall id: DocId
      ensures id in held <==> id in ShardOf(cfg, docs, sid)
      ensures id in held && id in ShardOf(cfg, docs, sid) ==> held[id] == docs[id]
    {
      if cfg.route(id) == sid {
        R.QuiescentReplicasAgree(cfg, initial, steps, states, k, id);
        assert n in R.Replicas(cfg, id);
        assert R.Value(states[k].nodes[n], sid, id) == R.LoggedValue(initial, states[k].events, id);
        LoggedDocsAt(initial, states[k].events, id);
      }
    }
  }

  lemma LogIsVisible(cfg: R.Config, client: Client, initial: Docs, steps: seq<R.Step>, states: seq<R.Cluster>, k: nat)
    requires R.WellFormed(cfg) && R.IsRun(cfg, steps, states) && R.Initial(cfg, initial, states[0])
    requires k < |states| && Calm(states[k])
    requires Serves(client, states[k].nodes) && client.placement == cfg.placement
    ensures RoutedNodes(states[k].nodes, cfg.route)
    ensures Unreachable(client) == {} ==> Visible(client, states[k].nodes) == LoggedDocs(initial, states[k].events)
  {
    var nodes, docs := states[k].nodes, LoggedDocs(initial, states[k].events);
    var shards := ShardsOf(cfg, docs);
    R.RunKeepsInv(cfg, initial, steps, states, k);
    forall sid: nat, n: nat | sid < |shards| && n in client.placement[sid] && n < |nodes|
      ensures sid in nodes[n] && nodes[n][sid] == shards[sid]
    {
      ReplicasHoldTheLog(cfg, initial, steps, states, k, sid, n);
    }
    VisibleOfAgreeing(client, nodes, shards);
    ShardsMakeTheCollection(cfg, docs);
    if Unreachable(client) == {} {
      assert PinnedShards(nodes, PinsFor(client)) == shards;
    }
  }

  /** In a calm state, a complete answer of the coordinator is the answer of the
      single-index service over the collection that the published events determine. */
  method SearchReadsTheLog(cfg: R.Config, client: Client, request: SearchRequest, ln: real -> real,
                           index: InvertedIndex, ghost initial: Docs, ghost steps: seq<R.Step>,
                           ghost states: seq<R.Cluster>, ghost k: nat)
    returns (distributed: SearchResponse, central: SearchResponse)
    requires R.WellFormed(cfg) && R.IsRun(cfg, steps, states) && R.Initial(cfg, initial, states[0])
    requires k < |states| && Calm(states[k])
    requires Serves(client, states[k].nodes) && client.placement == cfg.placement
    requires index.Valid() && index.docs == LoggedDocs(initial, states[k].events)
    ensures distributed.isError == central.isError
    ensures !distributed.isError && distributed.complete ==>
              distributed.total == central.total && distributed.results == central.results
  {
    LogIsVisible(cfg, client, initial, steps, states, k);
    distributed := Search(client, request, ln, states[k].nodes, cfg.route);
    central := ServiceSearch(index, request, ln);
    if !distributed.isError && distributed.complete {
      if Tokenize(request.query) == [] {
        QueryTermsEmpty(request.query);
        assert RequestScores(ln, index.docs, request) == map[];
        EmptyAnswer(distributed, request.limit);
      }
      SameAnswer(distributed, central, RequestScores(ln, index.docs, request), request.limit);
    }
  }

  // ---------------------------------------------------------------------------
  // The event side
  // ---------------------------------------------------------------------------

  /** The log of partition `p` when the events are published under keys that keep each
      document in one partition; `source(i)` is the node that published event i. */
  function LogOf(cfg: R.Config, events: seq<ShardOp>, source: nat -> nat, part: DocId -> nat, p: nat): seq<Payload> {
    if events == [] then []
    else
      var n := |events| - 1;
      var before := LogOf(cfg, events[..n], source, part, p);
      if part(events[n].id) == p then before + [Event(source(n), cfg.route(events[n].id), events[n])] else before
  }

  /** The partition logs carry the published events, none of them this node's own. */
  ghost predicate Carries(cfg: R.Config, events: seq<ShardOp>, source: nat -> nat, part: DocId -> nat, w: P.World) {
    && (forall id: DocId :: part(id) < |w.logs|)
    && (forall i: nat :: i < |events| ==> source(i) != w.own)
    && forall p :: 0 <= p < |w.logs| ==> w.logs[p] == LogOf(cfg, events, source, part, p)
  }

  lemma {:induction false} LogEntries(cfg: R.Config, events: seq<ShardOp>, source: nat -> nat, part: DocId -> nat,
                                      own: nat, p: nat, q: nat)
    requires q < |LogOf(cfg, events, source, part, p)| && forall i: nat :: i < |events| ==> source(i) != own
    ensures var event := LogOf(cfg, events, source, part, p)[q];
            event.Event? && event.source != own && event.sid == cfg.route(event.op.id) && part(event.op.id) == p
  {
    assert events != [];
    var n := |events| - 1;
    var before, log := LogOf(cfg, events[..n], source, part, p), LogOf(cfg, events, source, part, p);
    if q < |before| {
      LogEntries(cfg, events[..n], source, part, own, p, q);
      assert log[q] == before[q];
    } else {
      assert source(n) != own && log[q] == Event(source(n), cfg.route(events[n].id), events[n]);
    }
  }

  predicate AboutAt(log: seq<Payload>, q: nat, id: DocId) {
    q < |log| && log[q].Event? && log[q].op.id == id
  }

  ghost predicate NoneFrom(log: seq<Payload>, start: nat, id: DocId) {
    forall q: nat :: start <= q ==> !AboutAt(log, q, id)
  }

  /** The last event about a document in its partition says what the events say; without
      one the document keeps its initial value. */
  lemma {:induction false} LastMention(cfg: R.Config, initial: Docs, events: seq<ShardOp>, source: nat -> nat,
                                       part: DocId -> nat, id: DocId)
    returns (last: Option<nat>)
    ensures last.None? ==>
              && NoneFrom(LogOf(cfg, events, source, part, part(id)), 0, id)
              && (forall op :: op in events ==> op.id != id)
              && R.LoggedValue(initial, events, id) == R.LoggedValue(initial, [], id)
    ensures last.Some? ==>
              var log := LogOf(cfg, events, source, part, part(id));
              && AboutAt(log, last.value, id) && NoneFrom(log, last.value + 1, id)
              && R.Outcome(log[last.value].op) == R.LoggedValue(initial, events, id)
  {
    last := None;
    var log := LogOf(cfg, events, source, part, part(id));
    if events != [] {
      var n := |events| - 1;
      var before := LogOf(cfg, events[..n], source, part, part(id));
      last := LastMention(cfg, initial, events[..n], source, part, id);
      assert forall q :: 0 <= q < |before| ==> log[q] == before[q];
      if events[n].id == id {
        last := Some(|before|);
      } else {
        forall q: nat ensures AboutAt(log, q, id) <==> AboutAt(before, q, id) {
          assert q < |before| ==> log[q] == before[q];
        }
        assert events == events[..n] + [events[n]];
      }
    }
  }

  /** The node starts with the initial collection's value of every document of the shard
      that the events do not mention, and with anything for the others. */
  ghost predicate StartsFrom(cfg: R.Config, initial: Docs, events: seq<ShardOp>, hosted: Hosted, sid: nat) {
    forall id: DocId ::
      || R.Value(hosted, sid, id) == InShard(cfg, initial, sid, id)
      || (cfg.route(id) == sid && exists op :: op in events && op.id == id)
  }

  function InShard(cfg: R.Config, docs: Docs, sid: nat, id: DocId): Option<string> {
    if id in docs && cfg.route(id) == sid then Some(docs[id]) else None
  }

  /** The consumer stands at the end of every partition with nothing in hand. */
  ghost predicate CaughtUp(w: P.World, x: P.Pipeline) {
    && x.consumer.running && x.consumer.inHand.None?
    && |x.consumer.position| == |x.consumer.committed| == |w.logs|
    && forall p :: 0 <= p < |w.logs| ==> x.consumer.position[p] == |w.logs[p]|
  }

  lemma ReaderHoldsValue(cfg: R.Config, initial: Docs, events: seq<ShardOp>, source: nat -> nat, part: DocId -> nat,
                         w: P.World, steps: seq<P.Step>, states: seq<P.Pipeline>, k: nat, sid: nat, id: DocId)
    requires Carries(cfg, events, source, part, w) && P.IsRun(w, steps, states) && P.AllFenced(steps)
    requires k < |states| && CaughtUp(w, states[k]) && sid in states[0].mem
    requires StartsFrom(cfg, initial, events, states[0].mem, sid)
    ensures var due := InShard(cfg, LoggedDocs(initial, events), sid, id);
            && (R.Value(states[k].mem, sid, id) == due <==> (sid, id) !in states[k].lost)
            && (R.Value(states[k].disk, sid, id) == due <==> P.Durable(states[k], (sid, id)))
  {
    var keys, p, doc := states[0].mem.Keys, part(id), (sid, id);
    LoggedDocsAt(initial, events, id);
    var last := LastMention(cfg, initial, events, source, part, id);
    hide P.IsRun, P.AllFenced, P.Durable, R.Value, LogOf, LoggedDocs;
    forall r: nat, q: nat | r < |w.logs| && q < |w.logs[r]|
      ensures P.Mentions(w, keys, r, q, doc) <==> cfg.route(id) == sid && r == p && AboutAt(w.logs[p], q, id)
    {
      LogEntries(cfg, events, source, part, w.own, r, q);
    }
    if cfg.route(id) == sid && last.Some? {
      assert P.IsLast(w, keys, p, last.value, doc);
      P.EndOfLogDeterminesState(w, steps, states, k, p, last.value, doc);
    } else {
      assert P.Unmentioned(w, keys, doc);
      assert R.Value(states[0].mem, sid, id) == InShard(cfg, initial, sid, id);
      P.UnmentionedStays(w, steps, states, k, doc);
    }
  }

  /** A node that has read the published events to the end, with retries, replays, crashes
      and failed or torn writes on the way, holds of each hosted shard exactly the part of
      the events' collection iff nothing of it was lost; its files do iff all of it is
      durable. */
  lemma ReaderHoldsTheLog(cfg: R.Config, initial: Docs, events: seq<ShardOp>, source: nat -> nat, part: DocId -> nat,
                          w: P.World, steps: seq<P.Step>, states: seq<P.Pipeline>, k: nat, sid: nat)
    requires Carries(cfg, events, source, part, w) && P.IsRun(w, steps, states) && P.AllFenced(steps)
    requires k < |states| && CaughtUp(w, states[k]) && sid in states[0].mem
    requires StartsFrom(cfg, initial, events, states[0].mem, sid)
    ensures sid in states[k].mem && sid in states[k].disk
    ensures states[k].mem[sid] == ShardOf(cfg, LoggedDocs(initial, events), sid)
       <==> forall id: DocId :: (sid, id) !in states[k].lost
    ensures states[k].disk[sid] == ShardOf(cfg, LoggedDocs(initial, events), sid)
       <==> forall id: DocId :: P.Durable(states[k], (sid, id))
  {
    var x, docs := states[k], LoggedDocs(initial, events);
    P.RunTracks(w, steps, states, k);
    P.KeysOf(states[0].mem.Keys, x);
    hide P.IsRun, P.AllFenced, P.Durable, LoggedDocs, Carries, CaughtUp, StartsFrom;
    forall id: DocId
      ensures R.Value(x.mem, sid, id) == InShard(cfg, docs, sid, id) <==> (sid, id) !in x.lost
      ensures R.Value(x.disk, sid, id) == InShard(cfg, docs, sid, id) <==> P.Durable(x, (sid, id))
    {
      ReaderHoldsValue(cfg, initial, events, source, part, w, steps, states, k, sid, id);
    }
    SameDocsIff(cfg, docs, x.mem, sid);
    SameDocsIff(cfg, docs, x.disk, sid);
  }

  lemma SameDocsIff(cfg: R.Config, docs: Docs, hosted: Hosted, sid: nat)
    requires sid in hosted
    ensures hosted[sid] == ShardOf(cfg, docs, sid)
       <==> forall id: DocId :: R.Value(hosted, sid, id) == InShard(cfg, docs, sid, id)
  {
    if forall id: DocId :: R.Value(hosted, sid, id) == InShard(cfg, docs, sid, id) {
      forall id: DocId
        ensures id in hosted[sid] <==> id in ShardOf(cfg, docs, sid)
        ensures id in hosted[sid] ==> hosted[sid][id] == docs[id]
      {
        assert R.Value(hosted, sid, id) == InShard(cfg, docs, sid, id);
      }
    }
  }

  /** Synchronous replication and the event log agree: when the cluster is calm, a node that
      has read all published events and wrote its applications whole holds the same shard as
      every replica, in memory and on disk. */
  lemma ReaderEqualsReplica(cfg: R.Config, initial: Docs, writes: seq<R.Step>, clusters: seq<R.Cluster>, j: nat, n: nat,
                            source: nat -> nat, part: DocId -> nat,
                            w: P.World, steps: seq<P.Step>, states: seq<P.Pipeline>, k: nat, sid: nat)
    requires R.WellFormed(cfg) && R.IsRun(cfg, writes, clusters) && R.Initial(cfg, initial, clusters[0])
    requires j < |clusters| && Calm(clusters[j])
    requires sid < |cfg.placement| && n in cfg.placement[sid] && n < |clusters[j].nodes|
    requires Carries(cfg, clusters[j].events, source, part, w) && P.IsRun(w, steps, states) && P.AllFenced(steps)
    requires k < |states| && CaughtUp(w, states[k]) && sid in states[0].mem
    requires StartsFrom(cfg, initial, clusters[j].events, states[0].mem, sid)
    requires forall i :: 0 <= i < k ==> P.SavesShard(w, states[i], steps[i], sid)
    ensures sid in clusters[j].nodes[n] && sid in states[k].mem && sid in states[k].disk
    ensures states[k].mem[sid] == states[k].disk[sid] == clusters[j].nodes[n][sid]
  {
    hide R.IsRun, R.Initial, Calm, Carries, P.IsRun, P.AllFenced, CaughtUp, StartsFrom, P.SavesShard;
    ReplicasHoldTheLog(cfg, initial, writes, clusters, j, sid, n);
    ReaderHoldsTheLog(cfg, initial, clusters[j].events, source, part, w, steps, states, k, sid);
    P.NothingLostWhenSaved(w, steps, states, k, sid);
  }
}

/** src/shard_coordinator.cpp, `ingest`, `update` and `remove` as code: call every replica,
    collect the replies, publish one event if all succeeded. One run of this method is one
    Begin .. Finish stretch of the replication state machine. */
module WriteFanOuts {
  import opened Wrappers
  import opened Sorting
  import opened Documents
  import opened Shards
  import opened Nodes
  import opened Replication

  function Remaining(replicas: seq<nat>, k: nat): set<nat>
    requires k <= |replicas|
  {
    set n | n in replicas[k..]
  }

  lemma RemainingStep(replicas: seq<nat>, k: nat)
    requires k < |replicas| && Distinct(replicas)
    ensures replicas[k] in Remaining(replicas, k)
    ensures Remaining(replicas, k + 1) == Remaining(replicas, k) - {replicas[k]}
  {
    assert replicas[k..] == [replicas[k]] + replicas[k + 1..];
    var rest := replicas[k + 1..];
    assert forall j :: 0 <= j < |rest| ==> rest[j] == replicas[k + 1 + j];
  }

  lemma RunSnoc(cfg: Config, steps: seq<Step>, states: seq<Cluster>, step: Step)
    requires WellFormed(cfg) && IsRun(cfg, steps, states) && Enabled(cfg, states[|steps|], step)
    ensures IsRun(cfg, steps + [step], states + [Apply(cfg, states[|steps|], step)])
  {
    hide Enabled, Apply;
    var steps', states' := steps + [step], states + [Apply(cfg, states[|steps|], step)];
    forall k | 0 <= k < |steps'|
      ensures Enabled(cfg, states'[k], steps'[k]) && states'[k + 1] == Apply(cfg, states'[k], steps'[k])
    {
      if k < |steps| { assert Enabled(cfg, states[k], steps[k]) && states[k + 1] == Apply(cfg, states[k], steps[k]); }
    }
  }

  /** What a call leaves at a replica. */
  function Called(node: Hosted, sid: nat, op: ShardOp, fate: Fate): Hosted {
    if fate == RequestLost then node else MutateHosted(node, sid, op)
  }

  /** The call of one replica: what it answers to the coordinator and what it becomes. */
  method CallReplica(node: Hosted, sid: nat, op: ShardOp, fate: Fate) returns (node': Hosted, reply: WriteReply)
    ensures reply.isError <==> fate != Delivered || !AcceptsOp(node, sid, op)
    ensures node' == Called(node, sid, op, fate)
  {
    if fate == RequestLost {
      return node, WriteReply(true, 0);
    }
    var accepted := AcceptsOp(node, sid, op);
    node' := MutateHosted(node, sid, op);
    reply := WriteReply(fate == ReplyLost || !accepted, 0);
  }

  /** What the loop below has done after k replicas. */
  ghost predicate Sofar(cfg: Config, c: Cluster, cur: Cluster, op: ShardOp, fates: seq<Fate>, k: nat,
                        nodes: seq<Hosted>, failed: bool)
    requires WellFormed(cfg)
  {
    var sid := cfg.route(op.id);
    var replicas := cfg.placement[sid];
    && k <= |replicas| && |nodes| == |c.nodes| && cur.nodes == nodes && cur.events == c.events
    && op.id in cur.inFlight && cur.inFlight - {op.id} == c.inFlight - {op.id}
    && cur.inFlight[op.id].op == op && cur.inFlight[op.id].pending == Remaining(replicas, k)
    && cur.inFlight[op.id].failed == failed
    && (forall j :: k <= j < |replicas| && replicas[j] < |nodes| ==> nodes[replicas[j]] == c.nodes[replicas[j]])
    && k <= |fates| && CalledUpTo(c.nodes, nodes, replicas, sid, op, fates, k)
  }

  /** The first k replicas have been called and no other node has changed. */
  ghost predicate CalledUpTo(before: seq<Hosted>, after: seq<Hosted>, replicas: seq<nat>, sid: nat, op: ShardOp,
                             fates: seq<Fate>, k: nat)
    requires k <= |fates| && k <= |replicas|
  {
    && |after| == |before|
    && (forall j :: 0 <= j < k && replicas[j] < |after| ==>
          after[replicas[j]] == Called(before[replicas[j]], sid, op, fates[j]))
    && (forall n: nat :: n < |after| && n !in replicas ==> after[n] == before[n])
  }

  lemma DeliverNext(cfg: Config, c: Cluster, cur: Cluster, op: ShardOp, fates: seq<Fate>, k: nat,
                    nodes: seq<Hosted>, failed: bool)
    requires WellFormed(cfg) && Sofar(cfg, c, cur, op, fates, k, nodes, failed)
    requires var replicas := cfg.placement[cfg.route(op.id)];
             k < |replicas| == |fates| && Distinct(replicas) && replicas[k] < |c.nodes|
    ensures var sid := cfg.route(op.id);
            var n := cfg.placement[sid][k];
            && Enabled(cfg, cur, Deliver(op.id, n, fates[k]))
            && Sofar(cfg, c, Apply(cfg, cur, Deliver(op.id, n, fates[k])), op, fates, k + 1,
                     nodes[n := Called(nodes[n], sid, op, fates[k])],
                     failed || fates[k] != Delivered || !AcceptsOp(nodes[n], sid, op))
  {
    hide AcceptsOp, MutateHosted;
    var sid := cfg.route(op.id);
    var replicas := cfg.placement[sid];
    RemainingStep(replicas, k);
    var n := replicas[k];
    var after := Apply(cfg, cur, Deliver(op.id, n, fates[k]));
    assert after.inFlight - {op.id} == cur.inFlight - {op.id};
    assert nodes[n := nodes[n]] == nodes;
    assert nodes[n] == c.nodes[n];
    assert forall j :: 0 <= j < k ==> replicas[j] != n;
  }

  /** The write succeeds iff every replica was reached, accepted it and could say so; then
      and only then one event is published. */
  method Write(cfg: Config, nodes: seq<Hosted>, op: ShardOp, fates: seq<Fate>, ghost c: Cluster)
    returns (nodes': seq<Hosted>, isError: bool, event: Option<ShardOp>,
             ghost steps: seq<Step>, ghost states: seq<Cluster>)
    requires WellFormed(cfg) && c.nodes == nodes && op.id !in c.inFlight
    requires var replicas := cfg.placement[cfg.route(op.id)];
             Distinct(replicas) && |fates| == |replicas| && forall n :: n in replicas ==> n < |nodes|
    ensures isError <==> event.None?
    ensures event.Some? ==> event.value == op
    ensures isError <==>
              || (!op.Remove? && !IsValidContent(op.content))
              || exists k :: 0 <= k < |fates| && CallFails(cfg, nodes, op, fates, k)
    ensures op.Remove? || IsValidContent(op.content) ==>
              CalledUpTo(nodes, nodes', cfg.placement[cfg.route(op.id)], cfg.route(op.id), op, fates, |fates|)
    ensures !op.Remove? && !IsValidContent(op.content) ==> nodes' == nodes
    ensures IsRun(cfg, steps, states) && states[0] == c
    ensures states[|steps|].nodes == nodes' && states[|steps|].inFlight == c.inFlight
    ensures states[|steps|].events == c.events + if event.Some? then [event.value] else []
  {
    hide Enabled, Apply, Sofar;
    nodes', event, steps, states := nodes, None, [], [c];
    if !op.Remove? && !IsValidContent(op.content) {
      isError := true;
      return;
    }
    var sid := cfg.route(op.id);
    var replicas := cfg.placement[sid];
    BeginWrite(cfg, c, op, fates);
    RunSnoc(cfg, steps, states, Begin(op));
    steps, states := steps + [Begin(op)], states + [Apply(cfg, c, Begin(op))];
    var replies: seq<WriteReply> := [];
    ghost var failed := false;
    for k := 0 to |replicas|
      invariant |replies| == k && |nodes'| == |nodes|
      invariant IsRun(cfg, steps, states) && states[0] == c
      invariant Sofar(cfg, c, states[|steps|], op, fates, k, nodes', failed)
      invariant failed <==> exists j :: 0 <= j < k && CallFails(cfg, nodes, op, fates, j)
      invariant failed <==> exists j :: 0 <= j < k && replies[j].isError
    {
      var n := replicas[k];
      assert n in replicas;
      NotYetCalled(cfg, c, states[|steps|], op, fates, k, nodes', failed);
      DeliverNext(cfg, c, states[|steps|], op, fates, k, nodes', failed);
      ghost var step := Deliver(op.id, n, fates[k]);
      RunSnoc(cfg, steps, states, step);
      var node, reply := CallReplica(nodes'[n], sid, op, fates[k]);
      nodes' := nodes'[n := node];
      ghost var before := replies;
      replies := replies + [reply];
      assert replies[k] == reply && forall j :: 0 <= j < k ==> replies[j] == before[j];
      failed := failed || reply.isError;
      steps, states := steps + [step], states + [Apply(cfg, states[|steps|], step)];
    }
    var terms;
    isError, terms := CollectReplies(replies);
    event := if isError then None else Some(op);
    FinishWrite(cfg, c, states[|steps|], op, fates, nodes', failed);
    RunSnoc(cfg, steps, states, Finish(op.id));
    steps, states := steps + [Finish(op.id)], states + [Apply(cfg, states[|steps|], Finish(op.id))];
  }

  /** Call k cannot be counted as a success. */
  ghost predicate CallFails(cfg: Config, nodes: seq<Hosted>, op: ShardOp, fates: seq<Fate>, k: nat)
    requires WellFormed(cfg)
  {
    var sid := cfg.route(op.id);
    var replicas := cfg.placement[sid];
    k < |fates| && k < |replicas| && replicas[k] < |nodes|
    && (fates[k] != Delivered || !AcceptsOp(nodes[replicas[k]], sid, op))
  }

  lemma BeginWrite(cfg: Config, c: Cluster, op: ShardOp, fates: seq<Fate>)
    requires WellFormed(cfg) && op.id !in c.inFlight && (op.Remove? || IsValidContent(op.content))
    ensures Enabled(cfg, c, Begin(op))
    ensures Sofar(cfg, c, Apply(cfg, c, Begin(op)), op, fates, 0, c.nodes, false)
  {
    var replicas := cfg.placement[cfg.route(op.id)];
    assert replicas[0..] == replicas;
    assert Replicas(cfg, op.id) == Remaining(replicas, 0);
    assert c.inFlight[op.id := InFlight(op, Replicas(cfg, op.id), {}, false)] - {op.id} == c.inFlight - {op.id};
  }

  lemma NotYetCalled(cfg: Config, c: Cluster, cur: Cluster, op: ShardOp, fates: seq<Fate>, k: nat,
                     nodes: seq<Hosted>, failed: bool)
    requires WellFormed(cfg) && Sofar(cfg, c, cur, op, fates, k, nodes, failed)
    requires var replicas := cfg.placement[cfg.route(op.id)];
             k < |replicas| == |fates| && replicas[k] < |nodes|
    ensures var n := cfg.placement[cfg.route(op.id)][k];
            && nodes[n] == c.nodes[n]
            && (CallFails(cfg, c.nodes, op, fates, k) <==>
                  fates[k] != Delivered || !AcceptsOp(nodes[n], cfg.route(op.id), op))
  {
  }

  lemma FinishWrite(cfg: Config, c: Cluster, cur: Cluster, op: ShardOp, fates: seq<Fate>,
                    nodes: seq<Hosted>, failed: bool)
    requires WellFormed(cfg) && op.id !in c.inFlight && |fates| == |cfg.placement[cfg.route(op.id)]|
    requires Sofar(cfg, c, cur, op, fates, |cfg.placement[cfg.route(op.id)]|, nodes, failed)
    ensures Enabled(cfg, cur, Finish(op.id))
    ensures var after := Apply(cfg, cur, Finish(op.id));
            && after.nodes == nodes && after.inFlight == c.inFlight
            && after.events == c.events + if failed then [] else [op]
    ensures CalledUpTo(c.nodes, nodes, cfg.placement[cfg.route(op.id)], cfg.route(op.id), op, fates, |fates|)
  {
    assert c.inFlight - {op.id} == c.inFlight;
  }

  // ---------------------------------------------------------------------------
  // When a fan-out divides the replicas
  // ---------------------------------------------------------------------------

  ghost predicate AllHold(nodes: seq<Hosted>, replicas: seq<nat>, sid: nat, id: DocId, v: Option<string>) {
    forall k :: 0 <= k < |replicas| ==> replicas[k] < |nodes| && Value(nodes[replicas[k]], sid, id) == v
  }

  ghost predicate SomeAgreement(nodes: seq<Hosted>, replicas: seq<nat>, sid: nat, id: DocId) {
    exists v :: AllHold(nodes, replicas, sid, id, v)
  }

  /** From replicas that agree on `v`, one fan-out leaves them in agreement exactly when the
      write has no effect on `v`, or no request was lost, or every one was. Lost replies do
      not matter. */
  lemma DividesIff(before: seq<Hosted>, after: seq<Hosted>, replicas: seq<nat>, sid: nat, op: ShardOp,
                   fates: seq<Fate>, v: Option<string>)
    requires |fates| == |replicas| && CalledUpTo(before, after, replicas, sid, op, fates, |fates|)
    requires AllHold(before, replicas, sid, op.id, v)
    requires forall k :: 0 <= k < |replicas| ==> sid in before[replicas[k]]
    ensures SomeAgreement(after, replicas, sid, op.id) <==>
              || MutateValue(v, op) == v
              || (forall k :: 0 <= k < |fates| ==> fates[k] != RequestLost)
              || (forall k :: 0 <= k < |fates| ==> fates[k] == RequestLost)
  {
    var w := MutateValue(v, op);
    forall k | 0 <= k < |replicas|
      ensures Value(after[replicas[k]], sid, op.id) == if fates[k] == RequestLost then v else w
    {
      MutateIsLocal(before[replicas[k]], sid, op, sid, op.id);
    }
    if w == v || (forall k :: 0 <= k < |fates| ==> fates[k] == RequestLost) {
      assert AllHold(after, replicas, sid, op.id, v);
    } else if forall k :: 0 <= k < |fates| ==> fates[k] != RequestLost {
      assert AllHold(after, replicas, sid, op.id, w);
    } else {
      var i :| 0 <= i < |fates| && fates[i] == RequestLost;
      var j :| 0 <= j < |fates| && fates[j] != RequestLost;
      forall u ensures !AllHold(after, replicas, sid, op.id, u) {
        assert Value(after[replicas[i]], sid, op.id) != Value(after[replicas[j]], sid, op.id);
      }
    }
  }
}

/** A run of the replication protocol in which one lost call leaves two replicas of a
    document different: what agreement of replicas excludes. */
module LostCalls {
  import opened Documents
  import opened Tokenizer
  import opened Shards
  import opened Nodes
  import opened R = Replication

  /** A lost call can leave replicas that differ: here the second replica is never
      reached and the write is reported as failed, with the first replica written. */
  lemma LostCallDivides() returns (cfg: Config, steps: seq<Step>, states: seq<Cluster>)
    ensures WellFormed(cfg) && R.IsRun(cfg, steps, states) && Initial(cfg, map[], states[0])
    ensures states[|steps|].inFlight == map[] && states[|steps|].events == []
    ensures states[|steps|].nodes == [map[0 := map[7 := "a"]], map[0 := map[]]]
  {
    cfg := Config([[0, 1]], (id: DocId) => 0);
    var op := ShardOp.Add(7, "a");
    assert IsValidContent("a") by { assert !IsBlankChar("a"[0]); }
    var none: Docs := map[];
    var empty: Hosted := map[0 := none];
    var written: Hosted := map[0 := none[7 := "a"]];
    var c0 := Cluster([empty, empty], map[], [], {}, {});
    var c1 := Cluster([empty, empty], map[7 := InFlight(op, {0, 1}, {}, false)], [], {}, {});
    var c2 := Cluster([written, empty], map[7 := InFlight(op, {1}, {0}, false)], [], {}, {});
    var c3 := Cluster([written, empty], map[7 := InFlight(op, {}, {0, 1}, true)], [], {7}, {});
    var c4 := Cluster([written, empty], map[], [], {7}, {});
    FirstAndLast(cfg, op, c0, c1, c3, c4);
    DividingSteps(cfg, op, c1, c2, c3);
    hide Apply, Enabled;
    steps := [Begin(op), Deliver(7, 0, Delivered), Deliver(7, 1, RequestLost), Finish(7)];
    states := [c0, c1, c2, c3, c4];
  }

  lemma DividingSteps(cfg: Config, op: ShardOp, c1: Cluster, c2: Cluster, c3: Cluster)
    requires cfg == Config([[0, 1]], (id: DocId) => 0) && op == ShardOp.Add(7, "a") && IsValidContent("a")
    requires c1.nodes == [map[0 := map[]], map[0 := map[]]] && c1.events == [] && c1.unreached == {} && c1.unheard == {}
    requires c1.inFlight == map[7 := InFlight(op, {0, 1}, {}, false)]
    requires c2 == Cluster([map[0 := map[7 := "a"]], map[0 := map[]]],
                           map[7 := InFlight(op, {1}, {0}, false)], [], {}, {})
    requires c3 == Cluster(c2.nodes, map[7 := InFlight(op, {}, {0, 1}, true)], [], {7}, {})
    ensures Enabled(cfg, c1, Deliver(7, 0, Delivered)) && c2 == Apply(cfg, c1, Deliver(7, 0, Delivered))
    ensures Enabled(cfg, c2, Deliver(7, 1, RequestLost)) && c3 == Apply(cfg, c2, Deliver(7, 1, RequestLost))
  {
    assert {0, 1} - {0} == {1} && {1} - {1} == {} && {0} + {1} == {0, 1};
    var none: Docs := map[];
    assert MutateHosted(map[0 := none], 0, op) == map[0 := map[7 := "a"]];
    assert c1.nodes[0 := map[0 := map[7 := "a"]]] == c2.nodes;
    var w2 := Apply(cfg, c1, Deliver(7, 0, Delivered)).inFlight[7];
    assert w2.pending == {1} && w2.done == {0};
    assert Apply(cfg, c1, Deliver(7, 0, Delivered)).inFlight == c2.inFlight;
    var w3 := Apply(cfg, c2, Deliver(7, 1, RequestLost)).inFlight[7];
    assert w3.pending == {} && w3.done == {0, 1};
    assert Apply(cfg, c2, Deliver(7, 1, RequestLost)).inFlight == c3.inFlight;
  }

  lemma FirstAndLast(cfg: Config, op: ShardOp, c0: Cluster, c1: Cluster, c3: Cluster, c4: Cluster)
    requires cfg == Config([[0, 1]], (id: DocId) => 0) && op == ShardOp.Add(7, "a") && IsValidContent("a")
    requires c0 == Cluster([map[0 := map[]], map[0 := map[]]], map[], [], {}, {})
    requires c1 == c0.(inFlight := map[7 := InFlight(op, {0, 1}, {}, false)])
    requires c3.inFlight == map[7 := InFlight(op, {}, {0, 1}, true)] && c3.events == []
    requires c4 == c3.(inFlight := map[])
    ensures Initial(cfg, map[], c0)
    ensures Enabled(cfg, c0, Begin(op)) && Apply(cfg, c0, Begin(op)) == c1
    ensures Enabled(cfg, c3, Finish(7)) && Apply(cfg, c3, Finish(7)) == c4
  {
    assert Replicas(cfg, 7) == {0, 1};
  }
}

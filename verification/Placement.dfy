/** src/node_config.cpp (ring placement) and src/replica_placement.cpp (its validation). */
module Placements {
  import opened Wrappers
  import opened Sorting

  datatype ReplicaSet = ReplicaSet(shard: nat, nodes: seq<nat>)

  /** The nodes of one shard: its number and the next ones around the ring. */
  function RingNodes(sid: nat, nodeCount: nat, factor: nat): (nodes: seq<nat>)
    requires nodeCount > 0
    ensures |nodes| == factor && forall r :: 0 <= r < factor ==> nodes[r] == (sid + r) % nodeCount
  {
    seq(factor, r requires 0 <= r < factor => (sid + r) % nodeCount)
  }

  predicate Sensible(shardCount: nat, nodeCount: nat, factor: nat) {
    shardCount > 0 && nodeCount > 0 && 1 <= factor <= nodeCount
  }

  method MakeDeterministicReplicaSets(shardCount: nat, nodeCount: nat, factor: nat)
    returns (result: Option<seq<ReplicaSet>>)
    ensures result.Some? <==> shardCount > 0 && nodeCount > 0 && 1 <= factor <= nodeCount
    ensures result.Some? ==>
              && |result.value| == shardCount
              && forall sid :: 0 <= sid < shardCount ==>
                   result.value[sid] == ReplicaSet(sid, RingNodes(sid, nodeCount, factor))
  {
    if shardCount == 0 || nodeCount == 0 || factor == 0 || factor > nodeCount {
      return None;
    }
    var sets: seq<ReplicaSet> := [];
    for sid := 0 to shardCount
      invariant |sets| == sid
      invariant forall k :: 0 <= k < sid ==> sets[k] == ReplicaSet(k, RingNodes(k, nodeCount, factor))
    {
      var nodes: seq<nat> := [];
      for r := 0 to factor
        invariant |nodes| == r
        invariant forall j :: 0 <= j < r ==> nodes[j] == (sid + j) % nodeCount
      {
        nodes := nodes + [(sid + r) % nodeCount];
      }
      assert nodes == RingNodes(sid, nodeCount, factor);
      sets := sets + [ReplicaSet(sid, nodes)];
    }
    result := Some(sets);
  }

  // ---------------------------------------------------------------------------
  // Validation
  // ---------------------------------------------------------------------------

  ghost predicate ValidNodes(nodes: seq<nat>, nodeCount: nat, factor: nat) {
    && |nodes| == factor && Distinct(nodes)
    && forall i :: 0 <= i < |nodes| ==> nodes[i] < nodeCount
  }

  /** What a placement must satisfy: one replica set per shard, no shard twice, and
      `factor` different known nodes in each. Nothing here asks that every shard occur. */
  ghost predicate ValidPlacement(shardCount: nat, nodeCount: nat, factor: nat, sets: seq<ReplicaSet>) {
    && Sensible(shardCount, nodeCount, factor) && |sets| == shardCount
    && (forall i :: 0 <= i < |sets| ==>
          sets[i].shard < shardCount && ValidNodes(sets[i].nodes, nodeCount, factor))
    && forall i, j :: 0 <= i < j < |sets| ==> sets[i].shard != sets[j].shard
  }

  method CheckNodes(nodes: seq<nat>, nodeCount: nat) returns (ok: bool)
    ensures ok <==> Distinct(nodes) && forall i :: 0 <= i < |nodes| ==> nodes[i] < nodeCount
  {
    var seen := new bool[nodeCount](_ => false);
    for i := 0 to |nodes|
      invariant fresh(seen) && forall j :: 0 <= j < i ==> nodes[j] < nodeCount
      invariant forall n :: 0 <= n < nodeCount ==> (seen[n] <==> n in nodes[..i])
      invariant Distinct(nodes[..i])
    {
      if nodes[i] >= nodeCount {
        return false;
      }
      if seen[nodes[i]] {
        assert nodes[i] in nodes[..i];
        return false;
      }
      seen[nodes[i]] := true;
      assert nodes[..i + 1] == nodes[..i] + [nodes[i]];
    }
    assert nodes[..|nodes|] == nodes;
    ok := true;
  }

  function ShardsOf(sets: seq<ReplicaSet>, n: nat): (ids: seq<nat>)
    requires n <= |sets|
    ensures |ids| == n && forall i :: 0 <= i < n ==> ids[i] == sets[i].shard
  {
    seq(n, i requires 0 <= i < n => sets[i].shard)
  }

  /** Pigeonhole: n different numbers below n are all of them. */
  lemma DistinctCoverAll(ids: seq<nat>)
    requires Distinct(ids) && forall i :: 0 <= i < |ids| ==> ids[i] < |ids|
    ensures forall k: nat :: k < |ids| ==> k in ids
  {
    DistinctLength(ids);
    assert forall k :: k in Elements(ids) ==> k in ids;
    SubsetSize(Elements(ids), Below(|ids|));
    forall k: nat | k < |ids| ensures k in ids {
      assert k in Below(|ids|);
      assert k in Elements(ids);
    }
  }

  /** The constructor: accepts exactly the valid placements and stores each shard's nodes
      under its number. Its last check, for a shard without a replica set, never fires. */
  method ShardReplicaPlacement(shardCount: nat, nodeCount: nat, factor: nat, sets: seq<ReplicaSet>)
    returns (result: Option<seq<seq<nat>>>, uncovered: bool)
    ensures result.Some? <==> ValidPlacement(shardCount, nodeCount, factor, sets)
    ensures result.Some? ==>
              && |result.value| == shardCount
              && forall i :: 0 <= i < |sets| ==> result.value[sets[i].shard] == sets[i].nodes
    ensures !uncovered
  {
    uncovered := false;
    if shardCount == 0 || nodeCount == 0 || factor == 0 || factor > nodeCount || |sets| != shardCount {
      return None, false;
    }
    var seen := new bool[shardCount](_ => false);
    var replicas: seq<seq<nat>> := seq(shardCount, _ => []);
    for k := 0 to |sets|
      invariant fresh(seen) && |replicas| == shardCount
      invariant forall i :: 0 <= i < k ==> sets[i].shard < shardCount && ValidNodes(sets[i].nodes, nodeCount, factor)
      invariant forall i, j :: 0 <= i < j < k ==> sets[i].shard != sets[j].shard
      invariant forall s :: 0 <= s < shardCount ==> (seen[s] <==> s in ShardsOf(sets, k))
      invariant forall i :: 0 <= i < k ==> replicas[sets[i].shard] == sets[i].nodes
    {
      var rs := sets[k];
      if rs.shard >= shardCount {
        return None, false;
      }
      if seen[rs.shard] {
        var i :| 0 <= i < k && ShardsOf(sets, k)[i] == rs.shard;
        return None, false;
      }
      assert forall i :: 0 <= i < k ==> ShardsOf(sets, k)[i] != rs.shard;
      seen[rs.shard] := true;
      if |rs.nodes| != factor {
        return None, false;
      }
      var ok := CheckNodes(rs.nodes, nodeCount);
      if !ok {
        return None, false;
      }
      replicas := replicas[rs.shard := rs.nodes];
      assert ShardsOf(sets, k + 1) == ShardsOf(sets, k) + [rs.shard];
    }
    DistinctCoverAll(ShardsOf(sets, |sets|));
    for s := 0 to shardCount
      invariant fresh(seen) && forall t: nat :: t < shardCount ==> seen[t]
      invariant !uncovered
    {
      uncovered := uncovered || !seen[s];
    }
    result := if uncovered then None else Some(replicas);
  }

  // ---------------------------------------------------------------------------
  // Ring placements are valid
  // ---------------------------------------------------------------------------

  lemma MultipleIsFar(k: int, n: nat)
    ensures k >= 1 ==> k * n >= n
    ensures k <= -1 ==> k * n <= 0 - n
  {
  }

  /** Two numbers less than n apart with the same remainder are equal. */
  lemma SameRemainder(a: nat, b: nat, n: nat)
    requires n > 0 && a <= b < a + n && a % n == b % n
    ensures a == b
  {
    var qa, qb := a / n, b / n;
    assert a == qa * n + a % n && b == qb * n + b % n;
    assert (qb - qa) * n == b - a;
    MultipleIsFar(qb - qa, n);
  }

  lemma RingIsValid(shardCount: nat, nodeCount: nat, factor: nat, sets: seq<ReplicaSet>)
    requires Sensible(shardCount, nodeCount, factor) && |sets| == shardCount
    requires forall sid :: 0 <= sid < shardCount ==> sets[sid] == ReplicaSet(sid, RingNodes(sid, nodeCount, factor))
    ensures ValidPlacement(shardCount, nodeCount, factor, sets)
  {
    forall sid | 0 <= sid < shardCount ensures ValidNodes(sets[sid].nodes, nodeCount, factor) {
      forall i, j | 0 <= i < j < factor ensures sets[sid].nodes[i] != sets[sid].nodes[j] {
        if (sid + i) % nodeCount == (sid + j) % nodeCount { SameRemainder(sid + i, sid + j, nodeCount); }
      }
    }
  }

  /** Generated placements always pass validation. */
  method GeneratedPlacementIsAccepted(shardCount: nat, nodeCount: nat, factor: nat) returns (replicas: seq<seq<nat>>)
    requires Sensible(shardCount, nodeCount, factor)
    ensures |replicas| == shardCount
    ensures forall sid :: 0 <= sid < shardCount ==> replicas[sid] == RingNodes(sid, nodeCount, factor)
  {
    var sets := MakeDeterministicReplicaSets(shardCount, nodeCount, factor);
    RingIsValid(shardCount, nodeCount, factor, sets.value);
    var placed, _ := ShardReplicaPlacement(shardCount, nodeCount, factor, sets.value);
    replicas := placed.value;
  }

  // ---------------------------------------------------------------------------
  // Load
  // ---------------------------------------------------------------------------

  /** How many of the first `shards` shards node `n` hosts. */
  function Load(shards: nat, nodeCount: nat, factor: nat, n: nat): nat
    requires nodeCount > 0
  {
    if shards == 0 then 0
    else Load(shards - 1, nodeCount, factor, n) + (if n in RingNodes(shards - 1, nodeCount, factor) then 1 else 0)
  }

  function Distance(sid: nat, nodeCount: nat, n: nat): int {
    if sid <= n then n - sid else n + nodeCount - sid
  }

  /** In the first turn of the ring a node hosts a shard iff it is less than `factor`
      places further on. */
  lemma HostsIff(sid: nat, nodeCount: nat, factor: nat, n: nat)
    requires n < nodeCount && sid < nodeCount && 1 <= factor <= nodeCount
    ensures n in RingNodes(sid, nodeCount, factor) <==> Distance(sid, nodeCount, n) < factor
  {
    var nodes, d := RingNodes(sid, nodeCount, factor), Distance(sid, nodeCount, n);
    DistanceLeads(sid, nodeCount, n);
    if d < factor {
      assert nodes[d] == n;
    }
    if n in nodes {
      var r :| 0 <= r < factor && nodes[r] == n;
      OnlyDistanceLeads(sid, nodeCount, n, r);
    }
  }

  lemma DistanceLeads(sid: nat, nodeCount: nat, n: nat)
    requires n < nodeCount && sid < nodeCount
    ensures (sid + Distance(sid, nodeCount, n)) % nodeCount == n
  {
    ModOf(if sid <= n then 0 else 1, n, nodeCount);
  }

  lemma OnlyDistanceLeads(sid: nat, nodeCount: nat, n: nat, r: nat)
    requires n < nodeCount && sid < nodeCount && r < nodeCount && (sid + r) % nodeCount == n
    ensures r == Distance(sid, nodeCount, n)
  {
    var d := Distance(sid, nodeCount, n);
    DistanceLeads(sid, nodeCount, n);
    if r <= d { SameRemainder(sid + r, sid + d, nodeCount); } else { SameRemainder(sid + d, sid + r, nodeCount); }
  }

  lemma RingIsPeriodic(sid: nat, nodeCount: nat, factor: nat)
    requires nodeCount > 0
    ensures RingNodes(sid + nodeCount, nodeCount, factor) == RingNodes(sid, nodeCount, factor)
  {
    var before, after := RingNodes(sid, nodeCount, factor), RingNodes(sid + nodeCount, nodeCount, factor);
    forall r | 0 <= r < factor ensures after[r] == before[r] {
      AddTurn(sid + r, nodeCount);
      assert sid + nodeCount + r == sid + r + nodeCount;
    }
  }

  lemma AddTurn(a: nat, n: nat)
    requires n > 0
    ensures (a + n) % n == a % n
  {
    var q, rest := a / n, a % n;
    assert a + n == (q + 1) * n + rest;
    ModOf(q + 1, rest, n);
  }

  lemma ModOf(q: nat, rest: nat, n: nat)
    requires rest < n
    ensures (q * n + rest) % n == rest
  {
    var a := q * n + rest;
    assert a == (a / n) * n + a % n;
    assert (a / n - q) * n == rest - a % n;
    MultipleIsFar(a / n - q, n);
  }

  lemma {:induction false} LoadOfOneTurnMore(shards: nat, nodeCount: nat, factor: nat, n: nat)
    requires nodeCount > 0
    ensures Load(nodeCount + shards, nodeCount, factor, n)
         == Load(nodeCount, nodeCount, factor, n) + Load(shards, nodeCount, factor, n)
  {
    if shards > 0 {
      LoadOfOneTurnMore(shards - 1, nodeCount, factor, n);
      RingIsPeriodic(shards - 1, nodeCount, factor);
    }
  }

  function Positive(a: int): nat { if a > 0 then a else 0 }
  function Min(a: int, b: int): int { if a < b then a else b }

  lemma {:induction false} LoadWithinATurn(shards: nat, nodeCount: nat, factor: nat, n: nat)
    requires shards <= nodeCount && n < nodeCount && 1 <= factor <= nodeCount
    ensures Load(shards, nodeCount, factor, n)
         == if shards <= n + 1 then Positive(shards - Positive(n - factor + 1))
            else Min(n + 1, factor) + Positive(shards - 1 - n - nodeCount + factor)
  {
    if shards > 0 {
      LoadWithinATurn(shards - 1, nodeCount, factor, n);
      HostsIff(shards - 1, nodeCount, factor, n);
    }
  }

  lemma {:induction false} LoadGrows(a: nat, b: nat, nodeCount: nat, factor: nat, n: nat)
    requires a <= b && nodeCount > 0
    ensures Load(a, nodeCount, factor, n) <= Load(b, nodeCount, factor, n)
    ensures Load(a, nodeCount, factor, n) <= a
  {
    if a < b {
      LoadGrows(a, b - 1, nodeCount, factor, n);
    } else if a > 0 {
      LoadGrows(a - 1, a - 1, nodeCount, factor, n);
    }
  }

  lemma {:induction false} LoadOfTurns(turns: nat, rest: nat, nodeCount: nat, factor: nat, n: nat)
    requires n < nodeCount && 1 <= factor <= nodeCount
    ensures Load(turns * nodeCount + rest, nodeCount, factor, n)
         == turns * factor + Load(rest, nodeCount, factor, n)
  {
    if turns > 0 {
      LoadOfTurns(turns - 1, rest, nodeCount, factor, n);
      assert turns * nodeCount + rest == nodeCount + ((turns - 1) * nodeCount + rest);
      LoadOfOneTurnMore((turns - 1) * nodeCount + rest, nodeCount, factor, n);
      LoadWithinATurn(nodeCount, nodeCount, factor, n);
      assert turns * factor == (turns - 1) * factor + factor;
    }
  }

  /** Every node hosts R*(S/N) shards and at most min(R, S mod N) more. */
  lemma LoadIsBalanced(shardCount: nat, nodeCount: nat, factor: nat, n: nat)
    requires n < nodeCount && 1 <= factor <= nodeCount
    ensures (shardCount / nodeCount) * factor
         <= Load(shardCount, nodeCount, factor, n)
         <= (shardCount / nodeCount) * factor + Min(factor, shardCount % nodeCount)
  {
    var turns, rest := shardCount / nodeCount, shardCount % nodeCount;
    assert shardCount == turns * nodeCount + rest;
    LoadOfTurns(turns, rest, nodeCount, factor, n);
    LoadGrows(rest, nodeCount, nodeCount, factor, n);
    LoadWithinATurn(nodeCount, nodeCount, factor, n);
  }
}

/** Which node belongs to which shard. */
module Shards {
  import opened Messages

  datatype Topology = Topology(shardCount: nat, shardSize: nat) {
    predicate Valid() { shardCount > 0 && shardSize > 0 }

    function TotalNodes(): nat { shardCount * shardSize }

    function ShardForNode(node: nat): nat
      requires shardCount > 0 && node > 0
    {
      (node - 1) % shardCount + 1
    }

    /** The nodes of a shard, by what `ShardForNode` says of each. */
    function Members(shard: nat): set<nat>
      requires shardCount > 0
    {
      set n | 1 <= n <= TotalNodes() && ShardForNode(n) == shard
    }
  }

  /** The k-th node of a shard is the shard's number plus k times the shard count. */
  function Nth(top: Topology, shard: nat, k: nat): nat {
    shard + k * top.shardCount
  }

  lemma NthInRange(top: Topology, shard: nat, k: nat)
    requires top.shardCount > 0 && 1 <= shard <= top.shardCount
    ensures Nth(top, shard, k) <= top.TotalNodes() <==> k < top.shardSize
  {
    var c, size := top.shardCount, top.shardSize;
    if k < size {
      assert (k + 1) * c <= size * c;
      assert k * c + c == (k + 1) * c;
      assert size * c == c * size;
    } else {
      assert k * c >= size * c;
      assert size * c == c * size;
    }
  }

  lemma NthBelongs(top: Topology, shard: nat, k: nat)
    requires top.shardCount > 0 && 1 <= shard <= top.shardCount
    ensures top.ShardForNode(Nth(top, shard, k)) == shard
  {
    var c := top.shardCount;
    Remainder(shard - 1, k, c);
  }

  lemma MultipleBetween(d: int, r: int, c: nat)
    requires d * c == r && 0 - c < r < c
    ensures d == 0
  {
    assert d >= 1 ==> d * c >= c;
    assert d <= -1 ==> d * c <= 0 - c;
  }

  lemma Remainder(a: nat, k: nat, c: nat)
    requires a < c
    ensures (a + k * c) % c == a && (a + k * c) / c == k
  {
    var q, r := (a + k * c) / c, (a + k * c) % c;
    assert (q - k) * c == q * c - k * c == a - r;
    MultipleBetween(q - k, a - r, c);
  }

  lemma IsNth(top: Topology, shard: nat, n: nat)
    requires top.shardCount > 0 && n > 0 && top.ShardForNode(n) == shard
    ensures n == Nth(top, shard, (n - 1) / top.shardCount)
  {
    var c := top.shardCount;
    assert n - 1 == (n - 1) / c * c + (n - 1) % c;
  }

  function FirstMembers(top: Topology, shard: nat, k: nat): seq<nat> {
    seq(k, i requires 0 <= i < k => Nth(top, shard, i))
  }

  /** `NodesInShard`: for a shard that exists, exactly its nodes, in order. */
  method NodesInShard(top: Topology, shard: nat) returns (r: Option<seq<nat>>)
    requires top.shardCount > 0
    ensures r.None? <==> shard == 0 || shard > top.shardCount
    ensures r.Some? ==> |r.value| == top.shardSize && (forall n :: n in r.value <==> n in top.Members(shard))
    ensures r.Some? ==> r.value == FirstMembers(top, shard, top.shardSize)
  {
    if shard == 0 || shard > top.shardCount { return None; }
    var nodes := [];
    var total := top.shardCount * top.shardSize;
    var i := shard;
    ghost var k := 0;
    NthInRange(top, shard, 0);
    while i <= total
      invariant i == Nth(top, shard, k) && k <= top.shardSize && nodes == FirstMembers(top, shard, k)
      decreases top.shardSize - k
    {
      NthInRange(top, shard, k);
      nodes := nodes + [i];
      k := k + 1;
      assert k * top.shardCount == (k - 1) * top.shardCount + top.shardCount;
      i := i + top.shardCount;
    }
    NthInRange(top, shard, k);
    MembersAre(top, shard);
    r := Some(nodes);
  }

  lemma MembersAre(top: Topology, shard: nat)
    requires top.shardCount > 0 && 1 <= shard <= top.shardCount
    ensures forall n :: n in FirstMembers(top, shard, top.shardSize) <==> n in top.Members(shard)
  {
    var nodes := FirstMembers(top, shard, top.shardSize);
    forall n | n in top.Members(shard) ensures n in nodes {
      var k := (n - 1) / top.shardCount;
      IsNth(top, shard, n);
      NthInRange(top, shard, k);
      assert nodes[k] == n;
    }
    forall n | n in nodes ensures n in top.Members(shard) {
      var k :| 0 <= k < top.shardSize && nodes[k] == n;
      NthInRange(top, shard, k);
      NthBelongs(top, shard, k);
    }
  }

  /** Every shard has as many nodes as the configuration says, and every node is in
      exactly one shard. */
  lemma ShardsPartition(top: Topology, shard: nat)
    requires top.shardCount > 0 && 1 <= shard <= top.shardCount
    ensures |top.Members(shard)| == top.shardSize
    ensures forall n | 1 <= n <= top.TotalNodes() :: 1 <= top.ShardForNode(n) <= top.shardCount && n in top.Members(top.ShardForNode(n))
  {
    MembersAre(top, shard);
    var nodes := FirstMembers(top, shard, top.shardSize);
    forall i, j | 0 <= i < j < |nodes| ensures nodes[i] != nodes[j] {
      Remainder(shard - 1, i, top.shardCount);
      Remainder(shard - 1, j, top.shardCount);
    }
    DistinctSize(nodes, top.Members(shard));
  }

  lemma {:induction false} DistinctSize(nodes: seq<nat>, all: set<nat>)
    requires forall i, j | 0 <= i < j < |nodes| :: nodes[i] != nodes[j]
    requires forall n :: n in nodes <==> n in all
    ensures |all| == |nodes|
  {
    if nodes != [] {
      var last := nodes[|nodes| - 1];
      assert forall n :: n in nodes[..|nodes| - 1] <==> n in all - {last};
      DistinctSize(nodes[..|nodes| - 1], all - {last});
    } else {
      assert all == {};
    }
  }
}

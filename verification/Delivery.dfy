/** The interpreted graph, and how decisions become rounds delivered in order. */
module Delivery {
  import opened Messages
  import opened Protocol
  import opened Worklist

  /** A dependency of an own block: the received block and its own links. */
  datatype Dep = Dep(block: BlockID, deps: seq<BlockID>, prev: BlockID)

  datatype BlockGraph = BlockGraph(block: BlockID, deps: seq<Dep>, prev: BlockID)

  datatype BlockInfo = BlockInfo(data: BlockGraph, max: nat)

  /** One call of the callback. The source passes the blocks sorted by hash. */
  datatype Interpreted = Interpreted(blocks: set<BlockID>, consumed: int, round: nat)

  /** Whether the process still runs, or which exit it took. */
  datatype Status = Running | HashMismatch | ManyHashes | IndexPanic

  datatype Graph = Graph(
    blocks: seq<BlockInfo>,
    max: map<BlockID, nat>,
    resolved: map<nat, map<nat, Hash>>,
    round: nat,
    statess: map<BlockID, State>,
    cells: seq<Cell>,
    delivered: seq<Interpreted>,
    status: Status)
  {
    function Resolved(round: nat): map<nat, Hash> {
      if round in resolved then resolved[round] else map[]
    }
  }

  function Initial(lastInterpreted: nat): Graph {
    Graph([], map[], map[], lastInterpreted + 1, map[], [], [], Running)
  }

  function RoundBlocks(hashes: map<nat, Hash>, round: nat): set<BlockID> {
    set n | n in hashes && hashes[n] != [] :: BlockID(hashes[n], n, round)
  }

  /** How many own blocks the break-at-first loop removes. */
  function PruneCount(blocks: seq<BlockInfo>, round: nat): (n: nat)
    ensures n <= |blocks|
    ensures forall i | 0 <= i < n :: blocks[i].max <= round
    ensures n < |blocks| ==> blocks[n].max > round
  {
    if blocks == [] || blocks[0].max > round then 0 else 1 + PruneCount(blocks[1..], round)
  }

  function Pruned(blocks: seq<BlockInfo>): set<BlockID> {
    if blocks == [] then {}
    else {blocks[0].data.block} + (set d | d in blocks[0].data.deps :: d.block) + Pruned(blocks[1..])
  }

  /** `deliverRound` for the current round, without the chained call. */
  function DeliverOne(g: Graph): Graph {
    var hashes := g.Resolved(g.round);
    if g.blocks == [] then g.(resolved := g.resolved - {g.round}, status := IndexPanic)
    else
      var n := PruneCount(g.blocks, g.round);
      var gone := Pruned(g.blocks[..n]);
      g.(resolved := g.resolved - {g.round},
         blocks := g.blocks[n..],
         max := g.max - gone,
         statess := g.statess - gone,
         round := g.round + 1,
         delivered := g.delivered +
           [Interpreted(RoundBlocks(hashes, g.round), g.blocks[0].data.block.round - 1 + n, g.round)])
  }

  /** The chain of `deliverRound` calls from the current round on. */
  function DeliverRounds(nodeCount: nat, g: Graph): Graph
    decreases |g.resolved|
  {
    if g.status.Running? && g.round in g.resolved && |g.resolved[g.round]| == nodeCount then
      assert |(g.resolved - {g.round}).Keys| < |g.resolved.Keys| by {
        assert (g.resolved - {g.round}).Keys == g.resolved.Keys - {g.round};
      }
      DeliverRounds(nodeCount, DeliverOne(g))
    else g
  }

  /** The graph after recording a decision, before any round is delivered. */
  function Record(g: Graph, d: Decision): Graph {
    if d.slot.round < g.round then g
    else g.(resolved := g.resolved[d.slot.round := g.Resolved(d.slot.round)[d.slot.node := d.hash]])
  }

  function Deliver(nodeCount: nat, g: Graph, d: Decision): Graph {
    if !g.status.Running? || d.slot.round < g.round then g
    else
      var hashes: map<nat, Hash> := g.Resolved(d.slot.round);
      if d.slot.node in hashes && hashes[d.slot.node] != d.hash then g.(status := HashMismatch)
      else
        if d.slot.round == g.round then DeliverRounds(nodeCount, Record(g, d)) else Record(g, d)
  }

  function DeliverAll(nodeCount: nat, g: Graph, ds: seq<Decision>): Graph {
    if ds == [] then g else Deliver(nodeCount, DeliverAll(nodeCount, g, ds[..|ds| - 1]), ds[|ds| - 1])
  }

  // ---------------------------------------------------------------------------
  // Reference: what a sequence of decisions delivers, slot by slot.

  /** The decision that counts for a slot is the first. */
  function FirstFor(ds: seq<Decision>, slot: Slot): (h: Option<Hash>)
    ensures h.Some? <==> exists i :: 0 <= i < |ds| && ds[i].slot == slot
  {
    if ds == [] then None
    else
      var earlier := ds[..|ds| - 1];
      var before := FirstFor(earlier, slot);
      if before.Some? then assert exists i :: 0 <= i < |earlier| && earlier[i].slot == slot; before
      else if ds[|ds| - 1].slot == slot then Some(ds[|ds| - 1].hash) else None
  }

  predicate Complete(nodes: set<nat>, ds: seq<Decision>, round: nat) {
    forall n | n in nodes :: FirstFor(ds, Slot(n, round)).Some?
  }

  function Hashes(nodes: set<nat>, ds: seq<Decision>, round: nat): map<nat, Hash> {
    map n | n in nodes && FirstFor(ds, Slot(n, round)).Some? :: FirstFor(ds, Slot(n, round)).value
  }

  /** Rounds `first`, `first + 1`, ... were delivered with no gap or repeat, each
      when every node was decided and with exactly the non-empty hashes; what is
      held back is exactly what was decided for the rounds still to come. */
  ghost predicate Follows(g: Graph, nodes: set<nat>, first: nat, ds: seq<Decision>) {
    && g.round == first + |g.delivered|
    && AllJustified(g.delivered, nodes, first, ds)
    && (forall round | round >= g.round :: g.Resolved(round) == Hashes(nodes, ds, round))
    && (forall round | round in g.resolved :: round >= g.round)
  }

  ghost predicate Justified(i: Interpreted, nodes: set<nat>, round: nat, ds: seq<Decision>) {
    i.round == round && Complete(nodes, ds, round) && i.blocks == RoundBlocks(Hashes(nodes, ds, round), round)
  }

  ghost predicate AllJustified(delivered: seq<Interpreted>, nodes: set<nat>, first: nat, ds: seq<Decision>) {
    forall k | 0 <= k < |delivered| :: Justified(delivered[k], nodes, first + k, ds)
  }

  lemma CompleteByCount(nodes: set<nat>, ds: seq<Decision>, round: nat)
    ensures |Hashes(nodes, ds, round)| == |nodes| <==> Complete(nodes, ds, round)
    ensures Hashes(nodes, ds, round).Keys <= nodes
  {
    var keys := Hashes(nodes, ds, round).Keys;
    if |keys| == |nodes| {
      SubsetSameSize(keys, nodes);
      forall n | n in nodes ensures FirstFor(ds, Slot(n, round)).Some? { assert n in keys; }
    }
    if Complete(nodes, ds, round) {
      assert keys == nodes;
    }
  }

  lemma SubsetSameSize(a: set<nat>, b: set<nat>)
    requires a <= b && |a| == |b|
    ensures a == b
  {
    assert |b - a| == |b| - |a|;
  }

  lemma MoreDecisions(nodes: set<nat>, ds: seq<Decision>, d: Decision, round: nat)
    ensures Complete(nodes, ds, round) ==> Complete(nodes, ds + [d], round) && Hashes(nodes, ds + [d], round) == Hashes(nodes, ds, round)
    ensures d.slot.round != round ==> Hashes(nodes, ds + [d], round) == Hashes(nodes, ds, round)
    ensures d.slot.round == round && d.slot.node in nodes ==>
              Hashes(nodes, ds + [d], round) ==
              if FirstFor(ds, d.slot).Some? then Hashes(nodes, ds, round) else Hashes(nodes, ds, round)[d.slot.node := d.hash]
  {
    assert (ds + [d])[..|ds|] == ds;
  }

  lemma DeliverOneFollows(g: Graph, nodes: set<nat>, first: nat, ds: seq<Decision>)
    requires Follows(g, nodes, first, ds) && Complete(nodes, ds, g.round) && g.blocks != []
    ensures Follows(DeliverOne(g), nodes, first, ds)
  {
    var g1 := DeliverOne(g);
    assert Justified(g1.delivered[|g.delivered|], nodes, first + |g.delivered|, ds);
    forall k | 0 <= k < |g1.delivered| ensures Justified(g1.delivered[k], nodes, first + k, ds) {
      if k < |g.delivered| { assert g1.delivered[k] == g.delivered[k]; }
    }
    forall round | round >= g1.round ensures g1.Resolved(round) == Hashes(nodes, ds, round) {
      assert g.Resolved(round) == Hashes(nodes, ds, round);
    }
  }

  lemma {:induction false} DeliverRoundsFollows(g: Graph, nodes: set<nat>, first: nat, ds: seq<Decision>)
    requires nodes != {} && Follows(g, nodes, first, ds)
    ensures var g' := DeliverRounds(|nodes|, g);
            && AllJustified(g'.delivered, nodes, first, ds)
            && (g'.status.Running? ==> Follows(g', nodes, first, ds) && !Complete(nodes, ds, g'.round))
    decreases |g.resolved|
  {
    CompleteByCount(nodes, ds, g.round);
    assert g.Resolved(g.round) == Hashes(nodes, ds, g.round);
    if g.status.Running? && g.round in g.resolved && |g.resolved[g.round]| == |nodes| {
      var g1 := DeliverOne(g);
      assert |g1.resolved.Keys| < |g.resolved.Keys| by {
        assert g1.resolved.Keys == g.resolved.Keys - {g.round};
      }
      if g.blocks != [] {
        DeliverOneFollows(g, nodes, first, ds);
        DeliverRoundsFollows(g1, nodes, first, ds);
      }
    }
  }

  lemma RecordHolds(g: Graph, nodes: set<nat>, ds: seq<Decision>, d: Decision, round: nat)
    requires d.slot.node in nodes && round >= g.round
    requires g.Resolved(round) == Hashes(nodes, ds, round)
    requires d.slot.round == round && d.slot.node in g.Resolved(round) ==> g.Resolved(round)[d.slot.node] == d.hash
    ensures Record(g, d).Resolved(round) == Hashes(nodes, ds + [d], round)
  {
    MoreDecisions(nodes, ds, d, round);
    if d.slot.round == round && FirstFor(ds, d.slot).Some? {
      assert d.slot == Slot(d.slot.node, round);
      assert d.slot.node in Hashes(nodes, ds, round);
    }
  }

  /** More decisions take nothing back. */
  lemma StillJustified(delivered: seq<Interpreted>, nodes: set<nat>, first: nat, ds: seq<Decision>, d: Decision)
    requires AllJustified(delivered, nodes, first, ds)
    ensures AllJustified(delivered, nodes, first, ds + [d])
  {
    forall k | 0 <= k < |delivered| ensures Justified(delivered[k], nodes, first + k, ds + [d]) {
      MoreDecisions(nodes, ds, d, first + k);
      assert Justified(delivered[k], nodes, first + k, ds);
    }
  }

  lemma RecordFollows(g: Graph, nodes: set<nat>, first: nat, ds: seq<Decision>, d: Decision)
    requires d.slot.node in nodes && Follows(g, nodes, first, ds)
    requires d.slot.round >= g.round && d.slot.node in g.Resolved(d.slot.round) ==> g.Resolved(d.slot.round)[d.slot.node] == d.hash
    ensures Follows(Record(g, d), nodes, first, ds + [d])
  {
    var g1 := Record(g, d);
    StillJustified(g.delivered, nodes, first, ds, d);
    forall round | round >= g1.round ensures g1.Resolved(round) == Hashes(nodes, ds + [d], round) {
      RecordHolds(g, nodes, ds, d, round);
    }
  }

  lemma StillIncomplete(nodes: set<nat>, ds: seq<Decision>, d: Decision, round: nat)
    requires d.slot.round != round && !Complete(nodes, ds, round)
    ensures !Complete(nodes, ds + [d], round)
  {
    MoreDecisions(nodes, ds, d, round);
    CompleteByCount(nodes, ds, round);
    CompleteByCount(nodes, ds + [d], round);
  }

  lemma DeliverFollows(g: Graph, nodes: set<nat>, first: nat, ds: seq<Decision>, d: Decision)
    requires nodes != {} && d.slot.node in nodes
    requires Follows(g, nodes, first, ds) && !Complete(nodes, ds, g.round)
    ensures var g' := Deliver(|nodes|, g, d);
            && AllJustified(g'.delivered, nodes, first, ds + [d])
            && (g'.status.Running? ==> Follows(g', nodes, first, ds + [d]) && !Complete(nodes, ds + [d], g'.round))
  {
    StillJustified(g.delivered, nodes, first, ds, d);
    if !(d.slot.node in g.Resolved(d.slot.round) && g.Resolved(d.slot.round)[d.slot.node] != d.hash) {
      RecordFollows(g, nodes, first, ds, d);
      if d.slot.round == g.round {
        DeliverRoundsFollows(Record(g, d), nodes, first, ds + [d]);
      } else {
        StillIncomplete(nodes, ds, d, g.round);
      }
    }
  }
}

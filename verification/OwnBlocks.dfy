/** The queue of own blocks. For contiguous own rounds the bounds along the queue
    never decrease, so removing a prefix removes exactly the blocks that are due,
    the queue is never empty when a round is delivered, and the reported number of
    consumed blocks never decreases. */
module OwnBlocks {
  import opened Messages
  import opened Protocol
  import opened Worklist
  import opened Delivery
  import opened Interpreter
  import opened History
  import opened Chains

  /** Own blocks of contiguous rounds, each with its bound, which never decreases. */
  ghost predicate QueueOk(self: nat, blocks: seq<BlockInfo>, max: map<BlockID, nat>) {
    && (forall i | 0 <= i < |blocks| :: InfoIn(self, blocks[i], max))
    && (forall i | 0 <= i < |blocks| - 1 :: blocks[i + 1].data.block.round == blocks[i].data.block.round + 1)
    && (forall i, j | 0 <= i < j < |blocks| :: blocks[i].max <= blocks[j].max)
  }

  predicate InfoIn(self: nat, info: BlockInfo, max: map<BlockID, nat>) {
    && info.data.block.node == self && info.data.block in max && max[info.data.block] == info.max
    && forall d | d in info.data.deps :: d.block.node != self
  }

  /** `k` is a round already delivered, or one that the last own block knows of. */
  predicate Reached(g: Graph, k: nat) {
    k < g.round || (g.blocks != [] && k <= g.blocks[|g.blocks| - 1].max)
  }

  ghost predicate Ordered(self: nat, g: Graph) {
    && QueueOk(self, g.blocks, g.max)
    && (forall b | b in g.max :: Reached(g, g.max[b]))
    && (forall k | k in g.resolved :: k >= g.round && Reached(g, k))
    && !g.status.IndexPanic?
  }

  // ---------------------------------------------------------------------------
  // The loop that breaks at the first block that is not due.

  lemma PrefixIsFilter(blocks: seq<BlockInfo>, round: nat, i: nat)
    requires forall i, j | 0 <= i < j < |blocks| :: blocks[i].max <= blocks[j].max
    requires i < |blocks|
    ensures i < PruneCount(blocks, round) <==> blocks[i].max <= round
  {
    var n := PruneCount(blocks, round);
    if n < i { assert blocks[n].max <= blocks[i].max; }
  }

  lemma {:induction false} RoundsApart(self: nat, blocks: seq<BlockInfo>, max: map<BlockID, nat>, i: nat, j: nat)
    requires QueueOk(self, blocks, max) && i <= j < |blocks|
    ensures blocks[j].data.block.round == blocks[i].data.block.round + (j - i)
    decreases j
  {
    if i < j {
      RoundsApart(self, blocks, max, i, j - 1);
      assert blocks[j - 1 + 1].data.block.round == blocks[j - 1].data.block.round + 1;
    }
  }

  lemma {:induction false} PrunedElsewhere(self: nat, gone: seq<BlockInfo>, max: map<BlockID, nat>, b: BlockID)
    requires forall i | 0 <= i < |gone| :: InfoIn(self, gone[i], max) && gone[i].data.block != b
    requires b.node == self
    ensures b !in Pruned(gone)
  {
    if gone != [] { PrunedElsewhere(self, gone[1..], max, b); }
  }

  lemma RestQueueOk(self: nat, g: Graph)
    requires Ordered(self, g) && g.blocks != []
    ensures QueueOk(self, DeliverOne(g).blocks, DeliverOne(g).max)
  {
    var n := PruneCount(g.blocks, g.round);
    var g' := DeliverOne(g);
    forall i | 0 <= i < |g'.blocks| ensures InfoIn(self, g'.blocks[i], g'.max) {
      assert g'.blocks[i] == g.blocks[n + i];
      assert InfoIn(self, g.blocks[n + i], g.max);
      forall k | 0 <= k < n ensures g.blocks[..n][k].data.block != g.blocks[n + i].data.block {
        RoundsApart(self, g.blocks, g.max, k, n + i);
      }
      PrunedElsewhere(self, g.blocks[..n], g.max, g'.blocks[i].data.block);
    }
    forall i | 0 <= i < |g'.blocks| - 1 ensures g'.blocks[i + 1].data.block.round == g'.blocks[i].data.block.round + 1 {
      assert g.blocks[n + i + 1].data.block.round == g.blocks[n + i].data.block.round + 1;
    }
  }

  /** What was reached stays reached when a round is delivered. */
  lemma StaysReached(self: nat, g: Graph, k: nat)
    requires Ordered(self, g) && g.blocks != [] && Reached(g, k)
    ensures Reached(DeliverOne(g), k)
  {
    var n := PruneCount(g.blocks, g.round);
    if n < |g.blocks| {
      assert DeliverOne(g).blocks[|g.blocks| - n - 1] == g.blocks[|g.blocks| - 1];
    } else {
      assert g.blocks[|g.blocks| - 1].max <= g.round;
    }
  }

  lemma DeliverOneOrdered(self: nat, g: Graph)
    requires Ordered(self, g) && g.round in g.resolved
    ensures g.blocks != [] && Ordered(self, DeliverOne(g))
  {
    assert Reached(g, g.round);
    RestQueueOk(self, g);
    var g' := DeliverOne(g);
    forall b | b in g'.max ensures Reached(g', g'.max[b]) { StaysReached(self, g, g.max[b]); }
    forall k | k in g'.resolved ensures k >= g'.round && Reached(g', k) { StaysReached(self, g, k); }
  }

  /** `own` is the last own block admitted. The reports say how many own blocks are
      gone: they never decrease, and the next own block is the first that remains. */
  ghost predicate ReportsOk(own: BlockID, g: Graph) {
    && (g.blocks != [] ==> g.blocks[|g.blocks| - 1].data.block == own)
    && (forall i, j | 0 <= i < j < |g.delivered| :: g.delivered[i].consumed <= g.delivered[j].consumed)
    && (g.delivered != [] ==> g.delivered[|g.delivered| - 1].consumed + 1 == if g.blocks != [] then g.blocks[0].data.block.round else own.round + 1)
  }

  /** What a delivery reports as consumed is the round of the last block removed. */
  lemma ReportsLastRemoved(self: nat, g: Graph)
    requires QueueOk(self, g.blocks, g.max) && PruneCount(g.blocks, g.round) > 0
    ensures DeliverOne(g).delivered[|g.delivered|].consumed == g.blocks[PruneCount(g.blocks, g.round) - 1].data.block.round
  {
    RoundsApart(self, g.blocks, g.max, 0, PruneCount(g.blocks, g.round) - 1);
  }

  lemma DeliverOneReports(self: nat, own: BlockID, g: Graph)
    requires QueueOk(self, g.blocks, g.max) && g.blocks != [] && ReportsOk(own, g)
    ensures ReportsOk(own, DeliverOne(g))
  {
    var n := PruneCount(g.blocks, g.round);
    var g' := DeliverOne(g);
    if n < |g.blocks| {
      assert g'.blocks[|g'.blocks| - 1] == g.blocks[|g.blocks| - 1];
      RoundsApart(self, g.blocks, g.max, 0, n);
    } else {
      RoundsApart(self, g.blocks, g.max, 0, |g.blocks| - 1);
    }
  }

  ghost predicate InOrder(self: nat, own: BlockID, g: Graph) {
    Ordered(self, g) && ReportsOk(own, g)
  }

  lemma {:induction false} DeliverRoundsInOrder(nodeCount: nat, self: nat, own: BlockID, g: Graph, k: nat)
    requires InOrder(self, own, g) && Reached(g, k)
    ensures InOrder(self, own, DeliverRounds(nodeCount, g)) && Reached(DeliverRounds(nodeCount, g), k)
    decreases |g.resolved|
  {
    if g.status.Running? && g.round in g.resolved && |g.resolved[g.round]| == nodeCount {
      DeliverOneOrdered(self, g);
      DeliverOneReports(self, own, g);
      StaysReached(self, g, k);
      assert |DeliverOne(g).resolved.Keys| < |g.resolved.Keys| by {
        assert DeliverOne(g).resolved.Keys == g.resolved.Keys - {g.round};
      }
      DeliverRoundsInOrder(nodeCount, self, own, DeliverOne(g), k);
    }
  }

  lemma RecordInOrder(self: nat, own: BlockID, g: Graph, d: Decision)
    requires InOrder(self, own, g) && Reached(g, d.slot.round)
    ensures InOrder(self, own, Record(g, d))
  {
    var g' := Record(g, d);
    forall k | k in g'.resolved ensures k >= g'.round && Reached(g', k) {
      if k in g.resolved { assert Reached(g, k); }
    }
    assert forall b | b in g.max :: Reached(g, g.max[b]) && Reached(g', g.max[b]);
  }

  /** Cells, states and most exits do not matter here. */
  lemma SameQueue(self: nat, own: BlockID, g: Graph, g': Graph, k: nat)
    requires InOrder(self, own, g) && Reached(g, k)
    requires g' == g.(cells := g'.cells, statess := g'.statess, status := g'.status) && !g'.status.IndexPanic?
    ensures InOrder(self, own, g') && Reached(g', k)
  {
    assert forall b | b in g.max :: Reached(g, g.max[b]) && Reached(g', g.max[b]);
    assert forall r | r in g.resolved :: Reached(g, r) && Reached(g', r);
  }

  lemma DeliverInOrder(nodeCount: nat, self: nat, own: BlockID, g: Graph, d: Decision, k: nat)
    requires InOrder(self, own, g) && Reached(g, k) && d.slot.round <= k
    ensures var g' := Deliver(nodeCount, g, d); InOrder(self, own, g') && Reached(g', k)
  {
    assert Reached(g, d.slot.round);
    SameQueue(self, own, g, g.(status := HashMismatch), k);
    RecordInOrder(self, own, g, d);
    assert Reached(Record(g, d), k);
    hide Ordered, ReportsOk, Reached;
    DeliverRoundsInOrder(nodeCount, self, own, Record(g, d), k);
  }

  /** The decisions of a batch are about rounds up to `k`. */
  lemma {:induction false} DeliverAllInOrder(nodeCount: nat, self: nat, own: BlockID, g: Graph, ds: seq<Decision>, k: nat)
    requires InOrder(self, own, g) && Reached(g, k) && forall d | d in ds :: d.slot.round <= k
    ensures var g' := DeliverAll(nodeCount, g, ds); InOrder(self, own, g') && Reached(g', k)
  {
    hide InOrder, Reached, Deliver;
    if ds != [] {
      DeliverAllInOrder(nodeCount, self, own, g, ds[..|ds| - 1], k);
      DeliverInOrder(nodeCount, self, own, DeliverAll(nodeCount, g, ds[..|ds| - 1]), ds[|ds| - 1], k);
    }
  }

  lemma SettleInOrder(nodeCount: nat, self: nat, own: BlockID, g: Graph, w: Work, k: nat)
    requires InOrder(self, own, g) && Reached(g, k) && forall d | d in w.decided :: d.slot.round <= k
    ensures var g' := Settle(nodeCount, g, w); InOrder(self, own, g') && Reached(g', k)
  {
    var g0 := g.(cells := w.cells);
    assert !g.status.IndexPanic?;
    hide InOrder, Reached;
    SameQueue(self, own, g, g0, k);
    DeliverAllInOrder(nodeCount, self, own, g0, w.decided, k);
    var g1 := DeliverAll(nodeCount, g0, w.decided);
    SameQueue(self, own, g1, g1.(status := ManyHashes), k);
  }

  // ---------------------------------------------------------------------------
  // Interpreting a block whose history ends in round `k`.

  lemma BatchInOrder(cfg: Config, self: nat, own: BlockID, q: Progress, sender: nat, receiver: nat, msgs: seq<Message>, k: nat)
    requires cfg.nodes != [] && q.work.Valid() && InOrder(self, own, q.graph) && Reached(q.graph, k)
    requires About(slot => Known(cfg, k, slot), msgs)
    ensures var q' := Batch(cfg, q, sender, receiver, msgs); InOrder(self, own, q'.graph) && Reached(q'.graph, k)
  {
    hide InOrder, Reached;
    if q.graph.status.Running? {
      var w := q.work.(decided := []);
      BatchSlots(cfg.Quorum(), w, sender, receiver, msgs, slot => Known(cfg, k, slot), Place(Slot(0, 0), [], 0));
      SettleInOrder(|cfg.nodes|, self, own, q.graph, ProcessMessages(cfg.Quorum(), w, sender, receiver, msgs).work, k);
    }
  }

  lemma {:induction false} BatchesInOrder(cfg: Config, self: nat, own: BlockID, q: Progress, node: nat, deps: seq<BlockID>, k: nat)
    requires cfg.nodes != [] && q.work.Valid() && q.work.cells == q.graph.cells && InOrder(self, own, q.graph) && Reached(q.graph, k)
    requires forall d | d in deps && d in q.graph.statess :: About(slot => Known(cfg, k, slot), q.graph.statess[d].out)
    ensures var q' := Batches(cfg, q, node, deps); InOrder(self, own, q'.graph) && Reached(q'.graph, k)
  {
    hide InOrder, Reached;
    if deps != [] {
      var init, d := deps[..|deps| - 1], deps[|deps| - 1];
      BatchesInOrder(cfg, self, own, q, node, init, k);
      BatchesSettle(cfg, q, node, init);
      var q1 := Batches(cfg, q, node, init);
      BatchInOrder(cfg, self, own, q1, d.node, node, Output(q1.graph, d), k);
    }
  }

  lemma ReachedHistory(dag: Dag, self: nat, tr: Trace, b: BlockID)
    requires Pruning(dag, tr) && Ordered(self, tr.graph) && b in tr.admitted && b in dag.top
    ensures Reached(tr.graph, dag.top[b])
  {
    assert Below(dag, b, if b in tr.graph.max then tr.graph.max[b] + 1 else tr.graph.round);
    if b in tr.graph.max { assert Reached(tr.graph, tr.graph.max[b]); }
  }

  lemma EvaluateInOrder(cfg: Config, dag: Dag, self: nat, own: BlockID, tr: Trace, e: Entry, fired: seq<Timeout>)
    requires cfg.nodes != [] && DagValid(cfg, dag) && Pruning(dag, tr) && ChainsOk(cfg, dag, tr) && MayInterpret(cfg, dag, tr, e, fired)
    requires InOrder(self, own, tr.graph)
    ensures InOrder(self, own, Evaluate(cfg, tr.graph, e, fired).graph)
    ensures e.block in dag.top && Reached(Evaluate(cfg, tr.graph, e, fired).graph, dag.top[e.block])
  {
    OwnKnown(cfg, dag, tr, e, fired);
    ReachedHistory(dag, self, tr, e.block);
    DependenciesKnown(cfg, dag, tr, e);
    var g, k := tr.graph, dag.top[e.block];
    var own' := OwnMessages(e, FireAll(StartState(g, e.prev), e.block.node, fired));
    hide InOrder, Reached, DagValid, ChainsOk, Known, FireAll, StartState;
    BatchInOrder(cfg, self, own, Progress(g, StartWork(g, e, fired), own', []), e.block.node, e.block.node, own', k);
    OwnBatchSettles(cfg, g, e, fired);
    BatchesInOrder(cfg, self, own, OwnBatch(cfg, g, e, fired), e.block.node, e.deps, k);
  }

  lemma ProcessInOrder(cfg: Config, dag: Dag, self: nat, own: BlockID, tr: Trace, e: Entry, fired: seq<Timeout>)
    requires cfg.nodes != [] && DagValid(cfg, dag) && Pruning(dag, tr) && ChainsOk(cfg, dag, tr) && MayInterpret(cfg, dag, tr, e, fired)
    requires InOrder(self, own, tr.graph)
    ensures InOrder(self, own, Process(cfg, tr.graph, e, fired))
  {
    EvaluateInOrder(cfg, dag, self, own, tr, e, fired);
    var g := Evaluate(cfg, tr.graph, e, fired).graph;
    if g.status.Running? { SameQueue(self, own, g, Process(cfg, tr.graph, e, fired), dag.top[e.block]); }
  }

  // ---------------------------------------------------------------------------
  // Admitting an own block with its dependencies.

  ghost predicate OthersDeps(self: nat, deps: seq<Dep>) {
    forall d | d in deps :: d.block.node != self
  }

  /** The bounds of dependencies are new, and at most `top`. */
  lemma {:induction false} AdmitDepsBound(self: nat, b: Bounds, round: nat, deps: seq<Dep>)
    requires OthersDeps(self, deps)
    ensures var b' := AdmitDeps(b, round, deps);
            && b.top <= b'.top
            && (forall x | x in b'.max :: (x in b.max && b'.max[x] == b.max[x]) || b'.max[x] <= b'.top)
            && (forall x | x in b.max && x.node == self :: x in b'.max && b'.max[x] == b.max[x])
  {
    if deps != [] {
      AdmitDepsBound(self, b, round, deps[..|deps| - 1]);
      assert deps[|deps| - 1].block.node != self;
    }
  }

  /** Own blocks are admitted in order: the next links to the last one. */
  predicate Next(self: nat, own: BlockID, g: Graph, data: BlockGraph) {
    && data.block.node == self
    && (g.blocks != [] || g.delivered != [] ==> data.prev == own && data.block.round == own.round + 1 && own.round >= 1)
  }

  function OwnBound(g: Graph, data: BlockGraph): nat {
    var b := AdmitDeps(Bounds(g.max, data.block.round), g.round, data.deps);
    Bound(b.max, g.round, OwnLinks(data), b.top)
  }

  lemma OwnBoundAbove(self: nat, own: BlockID, g: Graph, data: BlockGraph)
    requires InOrder(self, own, g) && Next(self, own, g, data) && OthersDeps(self, data.deps)
    ensures g.blocks != [] ==> g.blocks[|g.blocks| - 1].max <= OwnBound(g, data)
    ensures AdmitDeps(Bounds(g.max, data.block.round), g.round, data.deps).top <= OwnBound(g, data)
  {
    var b := AdmitDeps(Bounds(g.max, data.block.round), g.round, data.deps);
    AdmitDepsBound(self, Bounds(g.max, data.block.round), g.round, data.deps);
    LinkMaxCovers(b.max, OwnLinks(data), b.top);
    if g.blocks != [] {
      assert InfoIn(self, g.blocks[|g.blocks| - 1], g.max);
      assert data.prev in OwnLinks(data);
    }
  }

  /** The queue with one more own block, whose bound is the largest. */
  lemma LongerQueue(self: nat, own: BlockID, g: Graph, data: BlockGraph, max: map<BlockID, nat>, k: nat)
    requires QueueOk(self, g.blocks, g.max) && ReportsOk(own, g) && Next(self, own, g, data) && OthersDeps(self, data.deps)
    requires forall x | x in g.max && x.node == self :: x in max && max[x] == g.max[x]
    requires g.blocks != [] ==> g.blocks[|g.blocks| - 1].max <= k
    ensures QueueOk(self, g.blocks + [BlockInfo(data, k)], max[data.block := k])
  {
    var blocks := g.blocks + [BlockInfo(data, k)];
    forall i | 0 <= i < |blocks| ensures InfoIn(self, blocks[i], max[data.block := k]) {
      if i < |g.blocks| {
        assert InfoIn(self, g.blocks[i], g.max);
        RoundsApart(self, g.blocks, g.max, i, |g.blocks| - 1);
      }
    }
    forall i, j | 0 <= i < j < |blocks| ensures blocks[i].max <= blocks[j].max {
      if j == |g.blocks| && i < j - 1 { assert g.blocks[i].max <= g.blocks[j - 1].max; }
    }
  }

  lemma AdmitQueue(self: nat, own: BlockID, g: Graph, data: BlockGraph)
    requires InOrder(self, own, g) && Next(self, own, g, data) && OthersDeps(self, data.deps)
    ensures QueueOk(self, Admit(g, data).blocks, Admit(g, data).max)
  {
    OwnBoundAbove(self, own, g, data);
    AdmitDepsBound(self, Bounds(g.max, data.block.round), g.round, data.deps);
    hide AdmitDeps, Bound, QueueOk, Next, OthersDeps;
    var b := AdmitDeps(Bounds(g.max, data.block.round), g.round, data.deps);
    LongerQueue(self, own, g, data, b.max, OwnBound(g, data));
  }

  /** What was reached stays reached with a larger last bound. */
  lemma ReachedStill(g: Graph, g': Graph, k: nat)
    requires Reached(g, k) && g'.round == g.round && g'.blocks != []
    requires g.blocks != [] ==> g.blocks[|g.blocks| - 1].max <= g'.blocks[|g'.blocks| - 1].max
    ensures Reached(g', k)
  {
  }

  lemma AdmitReached(self: nat, own: BlockID, g: Graph, data: BlockGraph, b: BlockID)
    requires InOrder(self, own, g) && Next(self, own, g, data) && OthersDeps(self, data.deps) && b in Admit(g, data).max
    ensures Reached(Admit(g, data), Admit(g, data).max[b])
  {
    OwnBoundAbove(self, own, g, data);
    AdmitDepsBound(self, Bounds(g.max, data.block.round), g.round, data.deps);
    hide AdmitDeps, Bound, QueueOk, OthersDeps, ReportsOk;
    if b in g.max { ReachedStill(g, Admit(g, data), g.max[b]); }
  }

  lemma AdmitInOrder(self: nat, own: BlockID, g: Graph, data: BlockGraph)
    requires InOrder(self, own, g) && Next(self, own, g, data) && OthersDeps(self, data.deps)
    ensures InOrder(self, data.block, Admit(g, data))
  {
    hide QueueOk, AdmitDeps, Bound, OthersDeps;
    OwnBoundAbove(self, own, g, data);
    AdmitQueue(self, own, g, data);
    var g' := Admit(g, data);
    forall b | b in g'.max ensures Reached(g', g'.max[b]) { AdmitReached(self, own, g, data, b); }
    forall k | k in g'.resolved ensures k >= g'.round && Reached(g', k) { ReachedStill(g, g', k); }
  }

  // ---------------------------------------------------------------------------
  // Runs.

  /** The last own block that a run admits. */
  function LastOwn(steps: seq<Step>): BlockID {
    if steps == [] then NO_BLOCK
    else if steps[|steps| - 1].Admission? then steps[|steps| - 1].data.block
    else LastOwn(steps[..|steps| - 1])
  }

  /** The blocks that one node admits: its own, each linking to the one before it,
      with the blocks of other nodes that it refers to. */
  ghost predicate OwnChain(self: nat, steps: seq<Step>) {
    forall i | 0 <= i < |steps| && steps[i].Admission? :: MayFollow(self, LastOwn(steps[..i]), steps[i].data)
  }

  predicate MayFollow(self: nat, own: BlockID, data: BlockGraph) {
    data.block.node == self && (forall d | d in data.deps :: d.block.node != self) && (own == NO_BLOCK || data.prev == own)
  }

  /** Nothing happens before the first own block. */
  lemma {:induction false} NothingYet(cfg: Config, dag: Dag, last: nat, past: set<BlockID>, steps: seq<Step>, tr: Trace)
    requires cfg.nodes != [] && DagValid(cfg, dag) && Run(cfg, dag, last, past, steps, tr)
    ensures LastOwn(steps) == NO_BLOCK ==> steps == []
    ensures steps == [] ==> tr == Start(last, past)
    ensures steps != [] ==> LastOwn(steps) in dag.links
  {
    if steps != [] {
      var init, step := steps[..|steps| - 1], steps[|steps| - 1];
      var t0 :| Run(cfg, dag, last, past, init, t0) && CellsOk(t0.graph) && MayStep(cfg, dag, t0, step) && tr == TakeStep(cfg, t0, step);
      NothingYet(cfg, dag, last, past, init, t0);
    }
  }

  lemma ChainSoFar(self: nat, steps: seq<Step>)
    requires OwnChain(self, steps) && steps != []
    ensures var init, step := steps[..|steps| - 1], steps[|steps| - 1];
            OwnChain(self, init) && (step.Admission? ==> MayFollow(self, LastOwn(init), step.data))
  {
    hide MayFollow, LastOwn;
    var init := steps[..|steps| - 1];
    forall i | 0 <= i < |init| && init[i].Admission? ensures MayFollow(self, LastOwn(init[..i]), init[i].data) {
      assert init[..i] == steps[..i];
      assert MayFollow(self, LastOwn(steps[..i]), steps[i].data);
    }
  }

  lemma AdmitStep(cfg: Config, dag: Dag, self: nat, own: BlockID, tr: Trace, data: BlockGraph)
    requires DagValid(cfg, dag) && InOrder(self, own, tr.graph) && MayAdmit(dag, tr, data) && MayFollow(self, own, data)
    requires own == NO_BLOCK ==> tr.graph.blocks == [] && tr.graph.delivered == []
    requires own != NO_BLOCK ==> own in dag.links
    ensures InOrder(self, data.block, Admit(tr.graph, data))
  {
    assert BlockOk(cfg, dag, data.block);
    if own != NO_BLOCK { assert BlockOk(cfg, dag, own); }
    AdmitInOrder(self, own, tr.graph, data);
  }

  /** In every run: own rounds are contiguous and their bounds never decrease along
      the queue, what deliveries report never decreases, and no delivery ever finds
      the queue empty. */
  lemma {:induction false} QueueInOrder(cfg: Config, dag: Dag, self: nat, last: nat, past: set<BlockID>, steps: seq<Step>, tr: Trace)
    requires cfg.nodes != [] && DagValid(cfg, dag) && Run(cfg, dag, last, past, steps, tr) && OwnChain(self, steps)
    ensures InOrder(self, LastOwn(steps), tr.graph)
  {
    if steps != [] {
      var init, step := steps[..|steps| - 1], steps[|steps| - 1];
      ChainSoFar(self, steps);
      hide InOrder, OwnChain, DagValid, MayFollow;
      var t0 :| Run(cfg, dag, last, past, init, t0) && CellsOk(t0.graph) && MayStep(cfg, dag, t0, step) && tr == TakeStep(cfg, t0, step);
      NothingYet(cfg, dag, last, past, init, t0);
      hide Run;
      QueueInOrder(cfg, dag, self, last, past, init, t0);
      PruningIsSafe(cfg, dag, last, past, init, t0);
      ChainsGrow(cfg, dag, last, past, init, t0);
      match step
      case Admission(data) => AdmitStep(cfg, dag, self, LastOwn(init), t0, data);
      case Interpretation(e, fired) => ProcessInOrder(cfg, dag, self, LastOwn(init), t0, e, fired);
    }
  }
}

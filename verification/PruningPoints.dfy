/** The moments at which a round is delivered, in the middle of a step, and what the
    pruning loop does there. */
module PruningPoints {
  import opened Messages
  import opened Protocol
  import opened Worklist
  import opened Delivery
  import opened Interpreter
  import opened History
  import opened Chains
  import opened OwnBlocks

  // ---------------------------------------------------------------------------
  // The graphs that `deliverRound` finds.

  /** `x` is one that the chain of deliveries from `g` on comes to. */
  ghost predicate InRounds(nodeCount: nat, g: Graph, x: Graph)
    decreases |g.resolved|
  {
    g.status.Running? && g.round in g.resolved && |g.resolved[g.round]| == nodeCount &&
    (x == g ||
     (assert |DeliverOne(g).resolved.Keys| < |g.resolved.Keys| by {
        assert DeliverOne(g).resolved.Keys == g.resolved.Keys - {g.round};
      }
      InRounds(nodeCount, DeliverOne(g), x)))
  }

  ghost predicate InDeliver(nodeCount: nat, g: Graph, d: Decision, x: Graph) {
    && g.status.Running? && d.slot.round == g.round
    && (d.slot.node in g.Resolved(g.round) ==> g.Resolved(g.round)[d.slot.node] == d.hash)
    && InRounds(nodeCount, Record(g, d), x)
  }

  ghost predicate InDeliverAll(nodeCount: nat, g: Graph, ds: seq<Decision>, x: Graph) {
    exists j :: 0 <= j < |ds| && InDeliver(nodeCount, DeliverAll(nodeCount, g, ds[..j]), ds[j], x)
  }

  ghost predicate InBatch(cfg: Config, p: Progress, sender: nat, receiver: nat, msgs: seq<Message>, x: Graph)
    requires cfg.nodes != [] && p.work.Valid()
  {
    p.graph.status.Running? &&
    var w := ProcessMessages(cfg.Quorum(), p.work.(decided := []), sender, receiver, msgs).work;
    InDeliverAll(|cfg.nodes|, p.graph.(cells := w.cells), w.decided, x)
  }

  ghost predicate InBatches(cfg: Config, p: Progress, node: nat, deps: seq<BlockID>, x: Graph)
    requires cfg.nodes != [] && p.work.Valid()
  {
    exists j :: 0 <= j < |deps| && InDep(cfg, p, node, deps, j, x)
  }

  ghost predicate InDep(cfg: Config, p: Progress, node: nat, deps: seq<BlockID>, j: nat, x: Graph)
    requires cfg.nodes != [] && p.work.Valid() && j < |deps|
  {
    var p1 := Batches(cfg, p, node, deps[..j]);
    InBatch(cfg, p1, deps[j].node, node, Output(p1.graph, deps[j]), x)
  }

  /** `x` is a graph to which interpreting a block applies `deliverRound`. */
  ghost predicate InBlock(cfg: Config, g: Graph, e: Entry, fired: seq<Timeout>, x: Graph)
    requires cfg.nodes != [] && CellsOk(g)
  {
    var own := OwnMessages(e, FireAll(StartState(g, e.prev), e.block.node, fired));
    || InBatch(cfg, Progress(g, StartWork(g, e, fired), own, []), e.block.node, e.block.node, own, x)
    || InBatches(cfg, OwnBatch(cfg, g, e, fired), e.block.node, e.deps, x)
  }

  // ---------------------------------------------------------------------------
  // All of them are in order.

  lemma {:induction false} RoundsVisit(nodeCount: nat, self: nat, own: BlockID, g: Graph, x: Graph)
    requires InOrder(self, own, g) && InRounds(nodeCount, g, x)
    ensures InOrder(self, own, x) && x.round in x.resolved
    decreases |g.resolved|
  {
    if x != g {
      DeliverOneOrdered(self, g);
      DeliverOneReports(self, own, g);
      assert |DeliverOne(g).resolved.Keys| < |g.resolved.Keys| by {
        assert DeliverOne(g).resolved.Keys == g.resolved.Keys - {g.round};
      }
      RoundsVisit(nodeCount, self, own, DeliverOne(g), x);
    }
  }

  lemma DeliverVisits(nodeCount: nat, self: nat, own: BlockID, g: Graph, ds: seq<Decision>, k: nat, x: Graph)
    requires InOrder(self, own, g) && Reached(g, k) && (forall d | d in ds :: d.slot.round <= k) && InDeliverAll(nodeCount, g, ds, x)
    ensures InOrder(self, own, x) && x.round in x.resolved
  {
    var j :| 0 <= j < |ds| && InDeliver(nodeCount, DeliverAll(nodeCount, g, ds[..j]), ds[j], x);
    hide InOrder, InRounds;
    DeliverAllInOrder(nodeCount, self, own, g, ds[..j], k);
    var g1 := DeliverAll(nodeCount, g, ds[..j]);
    assert Reached(g1, ds[j].slot.round);
    RecordInOrder(self, own, g1, ds[j]);
    RoundsVisit(nodeCount, self, own, Record(g1, ds[j]), x);
  }

  lemma BatchVisits(cfg: Config, self: nat, own: BlockID, q: Progress, sender: nat, receiver: nat, msgs: seq<Message>, k: nat, x: Graph)
    requires cfg.nodes != [] && q.work.Valid() && InOrder(self, own, q.graph) && Reached(q.graph, k)
    requires About(slot => Known(cfg, k, slot), msgs) && InBatch(cfg, q, sender, receiver, msgs, x)
    ensures InOrder(self, own, x) && x.round in x.resolved
  {
    var w := q.work.(decided := []);
    var w' := ProcessMessages(cfg.Quorum(), w, sender, receiver, msgs).work;
    var g0 := q.graph.(cells := w'.cells);
    SameQueue(self, own, q.graph, g0, k);
    hide InOrder, Reached, InDeliverAll, ProcessMessages;
    BatchSlots(cfg.Quorum(), w, sender, receiver, msgs, slot => Known(cfg, k, slot), Place(Slot(0, 0), [], 0));
    DeliverVisits(|cfg.nodes|, self, own, g0, w'.decided, k, x);
  }

  lemma BatchesVisit(cfg: Config, self: nat, own: BlockID, q: Progress, node: nat, deps: seq<BlockID>, k: nat, x: Graph)
    requires cfg.nodes != [] && q.work.Valid() && q.work.cells == q.graph.cells && InOrder(self, own, q.graph) && Reached(q.graph, k)
    requires forall d | d in deps && d in q.graph.statess :: About(slot => Known(cfg, k, slot), q.graph.statess[d].out)
    requires InBatches(cfg, q, node, deps, x)
    ensures InOrder(self, own, x) && x.round in x.resolved
  {
    var j :| 0 <= j < |deps| && InDep(cfg, q, node, deps, j, x);
    hide InOrder, Reached, InBatch;
    BatchesInOrder(cfg, self, own, q, node, deps[..j], k);
    BatchesSettle(cfg, q, node, deps[..j]);
    var q1 := Batches(cfg, q, node, deps[..j]);
    BatchVisits(cfg, self, own, q1, deps[j].node, node, Output(q1.graph, deps[j]), k, x);
  }

  lemma BlockVisits(cfg: Config, dag: Dag, self: nat, own: BlockID, tr: Trace, e: Entry, fired: seq<Timeout>, x: Graph)
    requires cfg.nodes != [] && DagValid(cfg, dag) && Pruning(dag, tr) && ChainsOk(cfg, dag, tr) && MayInterpret(cfg, dag, tr, e, fired)
    requires InOrder(self, own, tr.graph) && InBlock(cfg, tr.graph, e, fired, x)
    ensures InOrder(self, own, x) && x.round in x.resolved
  {
    OwnKnown(cfg, dag, tr, e, fired);
    ReachedHistory(dag, self, tr, e.block);
    DependenciesKnown(cfg, dag, tr, e);
    var g, k := tr.graph, dag.top[e.block];
    var own' := OwnMessages(e, FireAll(StartState(g, e.prev), e.block.node, fired));
    var p0 := Progress(g, StartWork(g, e, fired), own', []);
    hide InOrder, Reached, DagValid, ChainsOk, Known, FireAll, StartState, InBatch, InBatches;
    if InBatch(cfg, p0, e.block.node, e.block.node, own', x) {
      BatchVisits(cfg, self, own, p0, e.block.node, e.block.node, own', k, x);
    } else {
      BatchInOrder(cfg, self, own, p0, e.block.node, e.block.node, own', k);
      OwnBatchSettles(cfg, g, e, fired);
      BatchesVisit(cfg, self, own, OwnBatch(cfg, g, e, fired), e.block.node, e.deps, k, x);
    }
  }

  /** In every run, whenever a round is delivered: the queue is not empty, and the loop
      that breaks at the first block not yet due removes exactly the blocks that are. */
  lemma PrunesExactlyTheDue(cfg: Config, dag: Dag, self: nat, last: nat, past: set<BlockID>, steps: seq<Step>, tr: Trace,
                            e: Entry, fired: seq<Timeout>, x: Graph, i: nat)
    requires cfg.nodes != [] && DagValid(cfg, dag) && Run(cfg, dag, last, past, steps, tr) && OwnChain(self, steps)
    requires MayInterpret(cfg, dag, tr, e, fired) && CellsOk(tr.graph) && InBlock(cfg, tr.graph, e, fired, x)
    ensures x.blocks != []
    ensures i < |x.blocks| ==> (i < PruneCount(x.blocks, x.round) <==> x.blocks[i].max <= x.round)
  {
    QueueInOrder(cfg, dag, self, last, past, steps, tr);
    PruningIsSafe(cfg, dag, last, past, steps, tr);
    ChainsGrow(cfg, dag, last, past, steps, tr);
    hide Run, DagValid, MayInterpret, InBlock, OwnChain, Pruning, ChainsOk;
    BlockVisits(cfg, dag, self, LastOwn(steps), tr, e, fired, x);
    DeliverOneOrdered(self, x);
    if i < |x.blocks| { PrefixIsFilter(x.blocks, x.round, i); }
  }
}

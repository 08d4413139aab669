/** `process` and the bookkeeping of `run`: how a graph interprets its blocks. */
module Interpreter {
  import opened Messages
  import opened Protocol
  import opened Worklist
  import opened Delivery

  datatype Entry = Entry(block: BlockID, prev: BlockID, deps: seq<BlockID>)

  /** A timer of a chain: give up on `view` of `slot`. */
  datatype Timeout = Timeout(slot: Slot, view: nat)

  /** Every state's view-change references point at cells made for their keys. */
  predicate CellsOk(g: Graph) {
    forall b | b in g.statess :: CellsWellFormed(g.statess[b], g.cells)
  }

  /** `findOrCreateState`: a pruned or missing parent gives a fresh state. */
  function StartState(g: Graph, prev: BlockID): State {
    if prev.Valid() && prev in g.statess then g.statess[prev].Clone(g.round) else FRESH
  }

  datatype Fired = Fired(state: State, out: seq<Message>)

  /** One expired timer: move to the next view unless the chain is past it. */
  function FireOne(f: Fired, node: nat, t: Timeout): Fired {
    var v := f.state.View(t.slot);
    var key := Key(t.slot, t.view);
    if v > t.view then f
    else
      var hash := if key in f.state.prepared then f.state.prepared[key] else [];
      Fired(f.state.(views := f.state.views[t.slot := v + 1]),
            f.out + [ViewChange(hash, t.slot, node, t.view + 1)])
  }

  function FireAll(s: State, node: nat, ts: seq<Timeout>): (f: Fired)
    ensures f.state.viewChanged == s.viewChanged
  {
    if ts == [] then Fired(s, []) else FireOne(FireAll(s, node, ts[..|ts| - 1]), node, ts[|ts| - 1])
  }

  /** Hands a batch's decisions to delivery and notes a fatal view change. */
  function Settle(nodeCount: nat, g: Graph, w: Work): Graph {
    var g1 := DeliverAll(nodeCount, g.(cells := w.cells), w.decided);
    if w.fatal && g1.status.Running? then g1.(status := ManyHashes) else g1
  }

  datatype Progress = Progress(graph: Graph, work: Work, out: seq<Message>, decided: seq<Decision>)

  /** Interprets the output of one dependency, which may have been pruned. */
  function Batch(cfg: Config, p: Progress, sender: nat, receiver: nat, msgs: seq<Message>): (p': Progress)
    requires cfg.nodes != [] && p.work.Valid()
    ensures p'.work.Valid() && Grows(p.work.cells, p'.work.cells)
  {
    if !p.graph.status.Running? then p
    else
      var r := ProcessMessages(cfg.Quorum(), p.work.(decided := []), sender, receiver, msgs);
      Progress(Settle(|cfg.nodes|, p.graph, r.work), r.work, p.out + r.out, p.decided + r.work.decided)
  }

  function Output(g: Graph, dep: BlockID): seq<Message> {
    if dep in g.statess then g.statess[dep].out else []
  }

  function Batches(cfg: Config, p: Progress, node: nat, deps: seq<BlockID>): (p': Progress)
    requires cfg.nodes != [] && p.work.Valid()
    ensures p'.work.Valid() && Grows(p.work.cells, p'.work.cells)
  {
    if deps == [] then p
    else
      var p1 := Batches(cfg, p, node, deps[..|deps| - 1]);
      var dep := deps[|deps| - 1];
      Batch(cfg, p1, dep.node, node, Output(p1.graph, dep))
  }

  function OwnMessages(e: Entry, f: Fired): seq<Message> {
    [PrePrepare(e.block.hash, e.block.AsSlot(), 0)] + f.out
  }

  lemma CloneCells(s: State, minround: nat, cells: seq<Cell>)
    requires CellsWellFormed(s, cells)
    ensures CellsWellFormed(s.Clone(minround), cells)
  {
  }

  function StartWork(g: Graph, e: Entry, fired: seq<Timeout>): (w: Work)
    requires CellsOk(g)
    ensures w.Valid() && w.cells == g.cells
  {
    if e.prev in g.statess then CloneCells(g.statess[e.prev], g.round, g.cells);
      Work(FireAll(StartState(g, e.prev), e.block.node, fired).state, g.cells, {}, [], false)
    else
      Work(FireAll(StartState(g, e.prev), e.block.node, fired).state, g.cells, {}, [], false)
  }

  /** The block's own messages, interpreted as if it had sent them to itself. */
  function OwnBatch(cfg: Config, g: Graph, e: Entry, fired: seq<Timeout>): (p: Progress)
    requires cfg.nodes != [] && CellsOk(g)
    ensures p.work.Valid() && Grows(g.cells, p.work.cells)
  {
    var own := OwnMessages(e, FireAll(StartState(g, e.prev), e.block.node, fired));
    Batch(cfg, Progress(g, StartWork(g, e, fired), own, []), e.block.node, e.block.node, own)
  }

  /** Everything `process` does before it stores the block's state. */
  function Evaluate(cfg: Config, g: Graph, e: Entry, fired: seq<Timeout>): (p: Progress)
    requires cfg.nodes != [] && CellsOk(g)
    ensures p.work.Valid() && Grows(g.cells, p.work.cells)
  {
    Batches(cfg, OwnBatch(cfg, g, e, fired), e.block.node, e.deps)
  }

  function Process(cfg: Config, g: Graph, e: Entry, fired: seq<Timeout>): Graph
    requires cfg.nodes != [] && CellsOk(g)
  {
    var p := Evaluate(cfg, g, e, fired);
    if p.graph.status.Running? then p.graph.(statess := p.graph.statess[e.block := p.work.state.(out := p.out)])
    else p.graph
  }

  // ---------------------------------------------------------------------------
  // The bound that `run` keeps on the rounds of every block's history.

  function Max(a: nat, b: nat): nat { if a < b then b else a }

  function LinkMax(max: map<BlockID, nat>, links: seq<BlockID>, acc: nat): nat {
    if links == [] then acc
    else
      var acc1 := LinkMax(max, links[..|links| - 1], acc);
      if links[|links| - 1] in max then Max(acc1, max[links[|links| - 1]]) else acc1
  }

  predicate AnyMissing(max: map<BlockID, nat>, links: seq<BlockID>) {
    exists l :: l in links && l !in max
  }

  /** A link whose bound was pruned counts as the current round. */
  function Bound(max: map<BlockID, nat>, round: nat, links: seq<BlockID>, acc: nat): nat {
    if AnyMissing(max, links) then Max(LinkMax(max, links, acc), round) else LinkMax(max, links, acc)
  }

  function DepLinks(dep: Dep): seq<BlockID> {
    if dep.block.round != 1 then [dep.prev] + dep.deps else dep.deps
  }

  datatype Bounds = Bounds(max: map<BlockID, nat>, top: nat)

  function AdmitDep(b: Bounds, round: nat, dep: Dep): Bounds {
    var k := Bound(b.max, round, DepLinks(dep), dep.block.round);
    Bounds(b.max[dep.block := k], Max(b.top, k))
  }

  function AdmitDeps(b: Bounds, round: nat, deps: seq<Dep>): Bounds {
    if deps == [] then b else AdmitDep(AdmitDeps(b, round, deps[..|deps| - 1]), round, deps[|deps| - 1])
  }

  function OwnLinks(data: BlockGraph): seq<BlockID> {
    if data.block.round != 1 then [data.prev] else []
  }

  function Admit(g: Graph, data: BlockGraph): Graph {
    var b := AdmitDeps(Bounds(g.max, data.block.round), g.round, data.deps);
    var k := Bound(b.max, g.round, OwnLinks(data), b.top);
    g.(max := b.max[data.block := k], blocks := g.blocks + [BlockInfo(data, k)])
  }

  // ---------------------------------------------------------------------------
  // Delivery touches neither the cells nor the states that stay.

  lemma {:induction false} DeliverRoundsKeeps(nodeCount: nat, g: Graph)
    ensures var g' := DeliverRounds(nodeCount, g);
            g'.cells == g.cells && g'.round >= g.round && (forall b | b in g'.statess :: b in g.statess && g'.statess[b] == g.statess[b])
    decreases |g.resolved|
  {
    if g.status.Running? && g.round in g.resolved && |g.resolved[g.round]| == nodeCount {
      assert |(g.resolved - {g.round}).Keys| < |g.resolved.Keys| by {
        assert (g.resolved - {g.round}).Keys == g.resolved.Keys - {g.round};
      }
      DeliverRoundsKeeps(nodeCount, DeliverOne(g));
    }
  }

  lemma {:induction false} DeliverAllKeeps(nodeCount: nat, g: Graph, ds: seq<Decision>)
    ensures var g' := DeliverAll(nodeCount, g, ds);
            g'.cells == g.cells && g'.round >= g.round && (forall b | b in g'.statess :: b in g.statess && g'.statess[b] == g.statess[b])
  {
    if ds != [] {
      DeliverAllKeeps(nodeCount, g, ds[..|ds| - 1]);
      var g1 := DeliverAll(nodeCount, g, ds[..|ds| - 1]);
      DeliverRoundsKeeps(nodeCount, Record(g1, ds[|ds| - 1]));
    }
  }

  lemma {:induction false} BatchesSettle(cfg: Config, p: Progress, node: nat, deps: seq<BlockID>)
    requires cfg.nodes != [] && p.work.Valid() && p.work.cells == p.graph.cells
    ensures var p' := Batches(cfg, p, node, deps);
            && p'.work.cells == p'.graph.cells && p'.graph.round >= p.graph.round
            && (forall b | b in p'.graph.statess :: b in p.graph.statess && p'.graph.statess[b] == p.graph.statess[b])
  {
    if deps != [] {
      BatchesSettle(cfg, p, node, deps[..|deps| - 1]);
      var p1 := Batches(cfg, p, node, deps[..|deps| - 1]);
      var dep := deps[|deps| - 1];
      BatchSettles(cfg, p1, dep.node, node, Output(p1.graph, dep));
    }
  }

  lemma BatchSettles(cfg: Config, p: Progress, sender: nat, receiver: nat, msgs: seq<Message>)
    requires cfg.nodes != [] && p.work.Valid() && p.work.cells == p.graph.cells
    ensures var p' := Batch(cfg, p, sender, receiver, msgs);
            && p'.work.cells == p'.graph.cells && p'.graph.round >= p.graph.round
            && (forall b | b in p'.graph.statess :: b in p.graph.statess && p'.graph.statess[b] == p.graph.statess[b])
  {
    var r := ProcessMessages(cfg.Quorum(), p.work.(decided := []), sender, receiver, msgs);
    DeliverAllKeeps(|cfg.nodes|, p.graph.(cells := r.work.cells), r.work.decided);
  }

  lemma OwnBatchSettles(cfg: Config, g: Graph, e: Entry, fired: seq<Timeout>)
    requires cfg.nodes != [] && CellsOk(g)
    ensures var p := OwnBatch(cfg, g, e, fired);
            && p.work.cells == p.graph.cells && p.graph.round >= g.round
            && (forall b | b in p.graph.statess :: b in g.statess && p.graph.statess[b] == g.statess[b])
  {
    var own := OwnMessages(e, FireAll(StartState(g, e.prev), e.block.node, fired));
    BatchSettles(cfg, Progress(g, StartWork(g, e, fired), own, []), e.block.node, e.block.node, own);
  }

  /** Interpreting a block keeps every other state that it does not prune. */
  lemma ProcessKeeps(cfg: Config, g: Graph, e: Entry, fired: seq<Timeout>)
    requires cfg.nodes != [] && CellsOk(g)
    ensures var g' := Process(cfg, g, e, fired);
            && CellsOk(g') && g'.round >= g.round
            && (forall b | b in g'.statess && b != e.block :: b in g.statess && g'.statess[b] == g.statess[b])
  {
    OwnBatchSettles(cfg, g, e, fired);
    BatchesSettle(cfg, OwnBatch(cfg, g, e, fired), e.block.node, e.deps);
    hide OwnBatch, Batches;
  }
}

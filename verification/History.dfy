/** Block DAGs, runs of a graph over one, and why pruning is safe: a state or a
    bound is dropped only when the block's whole history is of delivered rounds. */
module History {
  import opened Messages
  import opened Protocol
  import opened Worklist
  import opened Delivery
  import opened Interpreter

  datatype Links = Links(prev: BlockID, refs: seq<BlockID>)

  /** All the blocks that were ever signed. A hash determines its block's links,
      and so `top`, the latest round in the block's causal history. */
  datatype Dag = Dag(links: map<BlockID, Links>, top: map<BlockID, nat>)

  function LinksOf(dag: Dag, b: BlockID): seq<BlockID>
    requires b in dag.links
  {
    (if dag.links[b].prev.Valid() then [dag.links[b].prev] else []) + dag.links[b].refs
  }

  /** What the broadcast layer checks of every block it lets in. */
  ghost predicate BlockOk(cfg: Config, dag: Dag, b: BlockID)
    requires b in dag.links
  {
    var prev := dag.links[b].prev;
    && b.Valid() && b.node in cfg.nodes && b.round >= 1
    && (b.round == 1 ==> prev == NO_BLOCK)
    && (b.round > 1 ==> prev in dag.links && prev.Valid() && prev.node == b.node && prev.round + 1 == b.round)
    && (forall l | l in LinksOf(dag, b) :: l in dag.links && l.Valid())
    && TopOk(dag, b)
  }

  ghost predicate TopOk(dag: Dag, b: BlockID)
    requires b in dag.links
  {
    && b in dag.top && dag.top[b] >= b.round
    && (forall l | l in LinksOf(dag, b) :: l in dag.top && dag.top[l] <= dag.top[b])
    && (dag.top[b] == b.round || exists l :: l in LinksOf(dag, b) && l in dag.top && dag.top[l] == dag.top[b])
  }

  ghost predicate DagValid(cfg: Config, dag: Dag) {
    && NO_BLOCK !in dag.links
    && forall b {:trigger BlockOk(cfg, dag, b)} | b in dag.links :: BlockOk(cfg, dag, b)
  }

  /** `p` leads from a block to one in its history. */
  ghost predicate IsPath(dag: Dag, p: seq<BlockID>) {
    && p != []
    && (forall i | 0 <= i < |p| :: p[i] in dag.links)
    && (forall i | 0 <= i < |p| - 1 :: p[i + 1] in LinksOf(dag, p[i]))
  }

  lemma {:induction false} TopBoundsHistory(cfg: Config, dag: Dag, p: seq<BlockID>)
    requires DagValid(cfg, dag) && IsPath(dag, p)
    ensures p[0] in dag.top && p[|p| - 1].round <= dag.top[p[0]]
  {
    assert BlockOk(cfg, dag, p[0]);
    if |p| > 1 {
      assert p[1..][0] == p[1];
      TopBoundsHistory(cfg, dag, p[1..]);
      assert p[0 + 1] in LinksOf(dag, p[0]);
    }
  }

  /** Every block in the history of `b` is of a round before `k`. */
  ghost predicate Below(dag: Dag, b: BlockID, k: nat) {
    b in dag.top && dag.top[b] < k
  }

  // ---------------------------------------------------------------------------
  // Runs.

  /** `run` first admits an own block with its dependencies, then interprets the
      dependencies in order and the own block last. */
  datatype Step = Admission(data: BlockGraph) | Interpretation(entry: Entry, fired: seq<Timeout>)

  /** A graph with its past: the blocks admitted, every state ever computed
      (pruned or not), and every decision handed to delivery. */
  datatype Trace = Trace(graph: Graph, admitted: set<BlockID>, log: map<BlockID, State>, decided: seq<Decision>)

  function Blocks(deps: seq<Dep>): set<BlockID> {
    set d | d in deps :: d.block
  }

  /** `data` is what the DAG says, and comes after everything it links to. */
  ghost predicate MayAdmit(dag: Dag, t: Trace, data: BlockGraph) {
    && data.block in dag.links && data.block !in t.admitted
    && dag.links[data.block].prev == data.prev
    && dag.links[data.block].refs == seq(|data.deps|, i requires 0 <= i < |data.deps| => data.deps[i].block)
    && (data.prev.Valid() ==> data.prev in t.admitted)
    && MayAdmitDeps(dag, t.admitted, data.deps)
  }

  ghost predicate MayAdmitDeps(dag: Dag, admitted: set<BlockID>, deps: seq<Dep>) {
    deps == [] || (MayAdmitDeps(dag, admitted, deps[..|deps| - 1]) &&
                   MayAdmitDep(dag, admitted + Blocks(deps[..|deps| - 1]), deps[|deps| - 1]))
  }

  ghost predicate MayAdmitDep(dag: Dag, admitted: set<BlockID>, dep: Dep) {
    && dep.block in dag.links && dep.block !in admitted
    && dag.links[dep.block] == Links(dep.prev, dep.deps)
    && forall l | l in LinksOf(dag, dep.block) :: l in admitted
  }

  /** The dependencies whose output `process` interprets; for the first round the
      zero id may or may not stand for the missing predecessor. */
  ghost predicate EntryOf(dag: Dag, e: Entry) {
    && e.block in dag.links && e.prev == dag.links[e.block].prev
    && (e.deps == [e.prev] + dag.links[e.block].refs || (e.block.round == 1 && e.deps == dag.links[e.block].refs))
  }

  ghost predicate MayInterpret(cfg: Config, dag: Dag, t: Trace, e: Entry, fired: seq<Timeout>) {
    && EntryOf(dag, e) && e.block in t.admitted && e.block !in t.log
    && (forall l | l in LinksOf(dag, e.block) :: l in t.log)
    && (forall x | x in fired :: x.slot.node in cfg.nodes && e.block in dag.top && x.slot.round <= dag.top[e.block])
  }

  ghost predicate MayStep(cfg: Config, dag: Dag, t: Trace, step: Step) {
    && t.graph.status.Running?
    && match step
       case Admission(data) => MayAdmit(dag, t, data)
       case Interpretation(e, fired) => MayInterpret(cfg, dag, t, e, fired)
  }

  function TakeStep(cfg: Config, t: Trace, step: Step): Trace
    requires cfg.nodes != [] && CellsOk(t.graph)
  {
    match step
    case Admission(data) =>
      t.(graph := Admit(t.graph, data), admitted := t.admitted + Blocks(data.deps) + {data.block})
    case Interpretation(e, fired) =>
      var g := Process(cfg, t.graph, e, fired);
      Trace(g, t.admitted,
            if g.status.Running? then t.log[e.block := g.statess[e.block]] else t.log,
            t.decided + Evaluate(cfg, t.graph, e, fired).decided)
  }

  /** What a step adds to the log. */
  lemma StepLog(cfg: Config, t: Trace, e: Entry, fired: seq<Timeout>)
    requires cfg.nodes != [] && CellsOk(t.graph)
    ensures var q, t' := Evaluate(cfg, t.graph, e, fired), TakeStep(cfg, t, Interpretation(e, fired));
            && t'.log == (if q.graph.status.Running? then t.log[e.block := q.work.state.(out := q.out)] else t.log)
            && t'.graph.round == q.graph.round
  {
    hide CellsOk, Evaluate;
  }

  /** A fresh graph. After a restart, `past` holds the blocks consumed earlier:
      their histories are of delivered rounds, and their states are gone. */
  function Start(lastInterpreted: nat, past: set<BlockID>): Trace {
    Trace(Initial(lastInterpreted), past, map b | b in past :: FRESH, [])
  }

  ghost predicate MayStart(dag: Dag, lastInterpreted: nat, past: set<BlockID>) {
    forall b | b in past :: b in dag.links && Below(dag, b, lastInterpreted + 1) && forall l | l in LinksOf(dag, b) :: l in past
  }

  /** `t` is what some run from a fresh graph leads to. */
  ghost predicate Run(cfg: Config, dag: Dag, last: nat, past: set<BlockID>, steps: seq<Step>, t: Trace)
    requires cfg.nodes != []
  {
    if steps == [] then MayStart(dag, last, past) && t == Start(last, past)
    else
      exists t0 ::
        && Run(cfg, dag, last, past, steps[..|steps| - 1], t0) && CellsOk(t0.graph)
        && MayStep(cfg, dag, t0, steps[|steps| - 1]) && t == TakeStep(cfg, t0, steps[|steps| - 1])
  }

  // ---------------------------------------------------------------------------
  // Safe pruning.

  /** Every block this graph was given has a bound on its history's rounds: its
      entry in `max`, or, when that was pruned, the round to be delivered next. */
  ghost predicate BoundsOk(dag: Dag, g: Graph, admitted: set<BlockID>) {
    && (forall b | b in admitted :: b in dag.links)
    && (forall b | b in admitted :: Below(dag, b, if b in g.max then g.max[b] + 1 else g.round))
    && (forall i | 0 <= i < |g.blocks| :: InfoOk(dag, g.blocks[i]))
  }

  ghost predicate InfoOk(dag: Dag, info: BlockInfo) {
    && Below(dag, info.data.block, info.max + 1)
    && forall d | d in info.data.deps :: Below(dag, d.block, info.max + 1)
  }

  /** A missing state is one whose block's history is of delivered rounds. */
  ghost predicate StatesOk(dag: Dag, g: Graph, log: map<BlockID, State>) {
    && (forall b | b in g.statess :: b in log && g.statess[b] == log[b])
    && (forall b | b in log && b !in g.statess :: Below(dag, b, g.round))
  }

  ghost predicate Pruning(dag: Dag, t: Trace) {
    && CellsOk(t.graph)
    && t.log.Keys <= t.admitted
    && BoundsOk(dag, t.graph, t.admitted)
    && StatesOk(dag, t.graph, t.log)
  }

  lemma {:induction false} PrunedAreOld(dag: Dag, blocks: seq<BlockInfo>, round: nat, b: BlockID)
    requires forall i | 0 <= i < |blocks| :: InfoOk(dag, blocks[i]) && blocks[i].max <= round
    requires b in Pruned(blocks)
    ensures Below(dag, b, round + 1)
  {
    if b in Pruned(blocks[1..]) {
      PrunedAreOld(dag, blocks[1..], round, b);
    } else {
      assert InfoOk(dag, blocks[0]);
    }
  }

  /** The part of `Pruning` that delivery alone can affect. */
  ghost predicate Safe(dag: Dag, g: Graph, admitted: set<BlockID>, log: map<BlockID, State>) {
    BoundsOk(dag, g, admitted) && StatesOk(dag, g, log)
  }

  lemma DeliverOneSafe(dag: Dag, g: Graph, admitted: set<BlockID>, log: map<BlockID, State>)
    requires Safe(dag, g, admitted, log)
    ensures Safe(dag, DeliverOne(g), admitted, log)
  {
    var g' := DeliverOne(g);
    if g.blocks != [] {
      var n := PruneCount(g.blocks, g.round);
      forall b | b in Pruned(g.blocks[..n]) ensures Below(dag, b, g'.round) {
        PrunedAreOld(dag, g.blocks[..n], g.round, b);
      }
    }
  }

  lemma {:induction false} DeliverRoundsSafe(nodeCount: nat, dag: Dag, g: Graph, admitted: set<BlockID>, log: map<BlockID, State>)
    requires Safe(dag, g, admitted, log)
    ensures Safe(dag, DeliverRounds(nodeCount, g), admitted, log)
    decreases |g.resolved|
  {
    if g.status.Running? && g.round in g.resolved && |g.resolved[g.round]| == nodeCount {
      assert |(g.resolved - {g.round}).Keys| < |g.resolved.Keys| by {
        assert (g.resolved - {g.round}).Keys == g.resolved.Keys - {g.round};
      }
      DeliverOneSafe(dag, g, admitted, log);
      DeliverRoundsSafe(nodeCount, dag, DeliverOne(g), admitted, log);
    }
  }

  lemma DeliverSafe(nodeCount: nat, dag: Dag, g: Graph, d: Decision, admitted: set<BlockID>, log: map<BlockID, State>)
    requires Safe(dag, g, admitted, log)
    ensures Safe(dag, Deliver(nodeCount, g, d), admitted, log)
  {
    assert Safe(dag, Record(g, d), admitted, log);
    DeliverRoundsSafe(nodeCount, dag, Record(g, d), admitted, log);
  }

  lemma {:induction false} DeliverAllSafe(nodeCount: nat, dag: Dag, g: Graph, ds: seq<Decision>, admitted: set<BlockID>, log: map<BlockID, State>)
    requires Safe(dag, g, admitted, log)
    ensures Safe(dag, DeliverAll(nodeCount, g, ds), admitted, log)
  {
    if ds != [] {
      DeliverAllSafe(nodeCount, dag, g, ds[..|ds| - 1], admitted, log);
      DeliverSafe(nodeCount, dag, DeliverAll(nodeCount, g, ds[..|ds| - 1]), ds[|ds| - 1], admitted, log);
    }
  }

  lemma BatchSafe(cfg: Config, dag: Dag, p: Progress, sender: nat, receiver: nat, msgs: seq<Message>, admitted: set<BlockID>, log: map<BlockID, State>)
    requires cfg.nodes != [] && p.work.Valid() && Safe(dag, p.graph, admitted, log)
    ensures Safe(dag, Batch(cfg, p, sender, receiver, msgs).graph, admitted, log)
  {
    var r := ProcessMessages(cfg.Quorum(), p.work.(decided := []), sender, receiver, msgs);
    DeliverAllSafe(|cfg.nodes|, dag, p.graph.(cells := r.work.cells), r.work.decided, admitted, log);
  }

  lemma {:induction false} BatchesSafe(cfg: Config, dag: Dag, p: Progress, node: nat, deps: seq<BlockID>, admitted: set<BlockID>, log: map<BlockID, State>)
    requires cfg.nodes != [] && p.work.Valid() && Safe(dag, p.graph, admitted, log)
    ensures Safe(dag, Batches(cfg, p, node, deps).graph, admitted, log)
  {
    if deps != [] {
      BatchesSafe(cfg, dag, p, node, deps[..|deps| - 1], admitted, log);
      var p1 := Batches(cfg, p, node, deps[..|deps| - 1]);
      BatchSafe(cfg, dag, p1, deps[|deps| - 1].node, node, Output(p1.graph, deps[|deps| - 1]), admitted, log);
    }
  }

  lemma OwnBatchSafe(cfg: Config, dag: Dag, g: Graph, e: Entry, fired: seq<Timeout>, admitted: set<BlockID>, log: map<BlockID, State>)
    requires cfg.nodes != [] && CellsOk(g) && Safe(dag, g, admitted, log)
    ensures Safe(dag, OwnBatch(cfg, g, e, fired).graph, admitted, log)
  {
    var own := OwnMessages(e, FireAll(StartState(g, e.prev), e.block.node, fired));
    BatchSafe(cfg, dag, Progress(g, StartWork(g, e, fired), own, []), e.block.node, e.block.node, own, admitted, log);
  }

  lemma InterpretationSafe(cfg: Config, dag: Dag, g: Graph, e: Entry, fired: seq<Timeout>, admitted: set<BlockID>, log: map<BlockID, State>)
    requires cfg.nodes != [] && CellsOk(g) && Safe(dag, g, admitted, log)
    ensures Safe(dag, Evaluate(cfg, g, e, fired).graph, admitted, log)
  {
    OwnBatchSafe(cfg, dag, g, e, fired, admitted, log);
    BatchesSafe(cfg, dag, OwnBatch(cfg, g, e, fired), e.block.node, e.deps, admitted, log);
  }

  lemma StoreSafe(dag: Dag, g: Graph, admitted: set<BlockID>, log: map<BlockID, State>, b: BlockID, s: State)
    requires Safe(dag, g, admitted, log)
    ensures Safe(dag, g.(statess := g.statess[b := s]), admitted, log[b := s])
  {
  }

  lemma InterpretPruning(cfg: Config, dag: Dag, t: Trace, e: Entry, fired: seq<Timeout>)
    requires cfg.nodes != [] && Pruning(dag, t) && MayStep(cfg, dag, t, Step.Interpretation(e, fired))
    ensures Pruning(dag, TakeStep(cfg, t, Step.Interpretation(e, fired)))
  {
    InterpretationSafe(cfg, dag, t.graph, e, fired, t.admitted, t.log);
    ProcessKeeps(cfg, t.graph, e, fired);
    var p := Evaluate(cfg, t.graph, e, fired);
    StoreSafe(dag, p.graph, t.admitted, t.log, e.block, p.work.state.(out := p.out));
  }

  // Admission.

  lemma {:induction false} LinkMaxCovers(max: map<BlockID, nat>, links: seq<BlockID>, acc: nat)
    ensures LinkMax(max, links, acc) >= acc
    ensures forall l | l in links && l in max :: LinkMax(max, links, acc) >= max[l]
  {
    if links != [] {
      LinkMaxCovers(max, links[..|links| - 1], acc);
      assert links == links[..|links| - 1] + [links[|links| - 1]];
    }
  }

  lemma BoundCovers(dag: Dag, max: map<BlockID, nat>, round: nat, links: seq<BlockID>, acc: nat, l: BlockID)
    requires l in links && Below(dag, l, if l in max then max[l] + 1 else round)
    ensures Below(dag, l, Bound(max, round, links, acc) + 1)
  {
    LinkMaxCovers(max, links, acc);
  }

  /** The bounds after admitting `deps`, seen from the blocks admitted so far. */
  ghost predicate Admitted(dag: Dag, b: Bounds, round: nat, admitted: set<BlockID>) {
    forall x | x in admitted :: x in dag.links && Below(dag, x, if x in b.max then b.max[x] + 1 else round)
  }

  lemma AdmitDepOk(cfg: Config, dag: Dag, b: Bounds, round: nat, admitted: set<BlockID>, dep: Dep)
    requires DagValid(cfg, dag) && Admitted(dag, b, round, admitted) && MayAdmitDep(dag, admitted, dep)
    ensures var b' := AdmitDep(b, round, dep);
            && Admitted(dag, b', round, admitted + {dep.block})
            && b'.top >= b.top && Below(dag, dep.block, b'.top + 1)
  {
    DepBound(cfg, dag, b, round, admitted, dep);
  }

  lemma DepBound(cfg: Config, dag: Dag, b: Bounds, round: nat, admitted: set<BlockID>, dep: Dep)
    requires DagValid(cfg, dag) && Admitted(dag, b, round, admitted) && MayAdmitDep(dag, admitted, dep)
    ensures Below(dag, dep.block, Bound(b.max, round, DepLinks(dep), dep.block.round) + 1)
  {
    var links := DepLinks(dep);
    var k := Bound(b.max, round, links, dep.block.round);
    LinkMaxCovers(b.max, links, dep.block.round);
    forall l | l in LinksOf(dag, dep.block) ensures Below(dag, l, k + 1) {
      DepLinksCover(cfg, dag, dep, l);
      BoundCovers(dag, b.max, round, links, dep.block.round, l);
    }
    assert BlockOk(cfg, dag, dep.block);
  }

  lemma DepLinksCover(cfg: Config, dag: Dag, dep: Dep, l: BlockID)
    requires DagValid(cfg, dag) && dep.block in dag.links && dag.links[dep.block] == Links(dep.prev, dep.deps)
    requires l in LinksOf(dag, dep.block)
    ensures l in DepLinks(dep) && l.Valid()
  {
    assert BlockOk(cfg, dag, dep.block);
  }

  lemma BlocksOfLast(deps: seq<Dep>)
    requires deps != []
    ensures Blocks(deps) == Blocks(deps[..|deps| - 1]) + {deps[|deps| - 1].block}
  {
    assert deps == deps[..|deps| - 1] + [deps[|deps| - 1]];
  }

  ghost predicate AllBelow(dag: Dag, blocks: set<BlockID>, k: nat) {
    forall x | x in blocks :: Below(dag, x, k)
  }

  lemma {:induction false} AdmitDepsOk(cfg: Config, dag: Dag, b: Bounds, round: nat, admitted: set<BlockID>, deps: seq<Dep>)
    requires DagValid(cfg, dag) && Admitted(dag, b, round, admitted) && MayAdmitDeps(dag, admitted, deps)
    ensures Admitted(dag, AdmitDeps(b, round, deps), round, admitted + Blocks(deps))
    ensures AdmitDeps(b, round, deps).top >= b.top && AllBelow(dag, Blocks(deps), AdmitDeps(b, round, deps).top + 1)
  {
    if deps == [] {
      assert admitted + Blocks(deps) == admitted;
    } else {
      var init, d := deps[..|deps| - 1], deps[|deps| - 1];
      AdmitDepsOk(cfg, dag, b, round, admitted, init);
      var b1 := AdmitDeps(b, round, init);
      AdmitDepOk(cfg, dag, b1, round, admitted + Blocks(init), d);
      BlocksOfLast(deps);
      assert admitted + Blocks(init) + {d.block} == admitted + Blocks(deps);
    }
  }

  lemma OwnBound(cfg: Config, dag: Dag, b: Bounds, round: nat, admitted: set<BlockID>, data: BlockGraph)
    requires DagValid(cfg, dag) && data.block in dag.links && dag.links[data.block].prev == data.prev
    requires forall l | l in dag.links[data.block].refs :: Below(dag, l, b.top + 1)
    requires b.top >= data.block.round && Admitted(dag, b, round, admitted) && (data.prev.Valid() ==> data.prev in admitted)
    ensures Below(dag, data.block, Bound(b.max, round, OwnLinks(data), b.top) + 1)
  {
    var links := OwnLinks(data);
    var k := Bound(b.max, round, links, b.top);
    LinkMaxCovers(b.max, links, b.top);
    assert BlockOk(cfg, dag, data.block);
    if data.block.round > 1 {
      BoundCovers(dag, b.max, round, links, b.top, data.prev);
    }
    assert forall l | l in LinksOf(dag, data.block) :: Below(dag, l, k + 1);
  }

  lemma RefsOf(data: BlockGraph, refs: seq<BlockID>)
    requires refs == seq(|data.deps|, i requires 0 <= i < |data.deps| => data.deps[i].block)
    ensures forall l | l in refs :: l in Blocks(data.deps)
  {
  }

  lemma AdmitOwn(cfg: Config, dag: Dag, t: Trace, data: BlockGraph)
    requires DagValid(cfg, dag) && BoundsOk(dag, t.graph, t.admitted) && MayAdmit(dag, t, data)
    ensures var b := AdmitDeps(Bounds(t.graph.max, data.block.round), t.graph.round, data.deps);
            var k := Bound(b.max, t.graph.round, OwnLinks(data), b.top);
            && Admitted(dag, b, t.graph.round, t.admitted + Blocks(data.deps)) && AllBelow(dag, Blocks(data.deps), k + 1)
            && Below(dag, data.block, k + 1)
  {
    var b0 := Bounds(t.graph.max, data.block.round);
    AdmitDepsOk(cfg, dag, b0, t.graph.round, t.admitted, data.deps);
    var b := AdmitDeps(b0, t.graph.round, data.deps);
    RefsOf(data, dag.links[data.block].refs);
    OwnBound(cfg, dag, b, t.graph.round, t.admitted + Blocks(data.deps), data);
    LinkMaxCovers(b.max, OwnLinks(data), b.top);
  }

  lemma NewBounds(dag: Dag, g: Graph, admitted: set<BlockID>, data: BlockGraph, b: Bounds, k: nat)
    requires BoundsOk(dag, g, admitted) && Admitted(dag, b, g.round, admitted + Blocks(data.deps)) && data.block in dag.links
    requires AllBelow(dag, Blocks(data.deps), k + 1) && Below(dag, data.block, k + 1)
    ensures BoundsOk(dag, g.(max := b.max[data.block := k], blocks := g.blocks + [BlockInfo(data, k)]), admitted + Blocks(data.deps) + {data.block})
  {
    var blocks := g.blocks + [BlockInfo(data, k)];
    forall i | 0 <= i < |blocks| ensures InfoOk(dag, blocks[i]) {
      if i == |g.blocks| {
        forall d | d in data.deps ensures Below(dag, d.block, k + 1) { assert d.block in Blocks(data.deps); }
      }
    }
  }

  lemma AdmitKeepsStates(dag: Dag, t: Trace, data: BlockGraph)
    requires CellsOk(t.graph) && StatesOk(dag, t.graph, t.log)
    ensures CellsOk(Admit(t.graph, data)) && StatesOk(dag, Admit(t.graph, data), t.log)
  {
    hide AdmitDeps, Bound;
  }

  lemma AdmitPruning(cfg: Config, dag: Dag, t: Trace, data: BlockGraph)
    requires cfg.nodes != [] && DagValid(cfg, dag) && Pruning(dag, t) && MayStep(cfg, dag, t, Admission(data))
    ensures Pruning(dag, TakeStep(cfg, t, Admission(data)))
  {
    hide DagValid, MayAdmitDeps, CellsOk, StatesOk, LinkMax, AdmitDeps, Bound, BoundsOk, Admitted, AllBelow, Blocks;
    AdmitOwn(cfg, dag, t, data);
    var b := AdmitDeps(Bounds(t.graph.max, data.block.round), t.graph.round, data.deps);
    AdmitKeepsStates(dag, t, data);
    NewBounds(dag, t.graph, t.admitted, data, b, Bound(b.max, t.graph.round, OwnLinks(data), b.top));
  }

  /** In every run, what is missing is old. */
  lemma {:induction false} PruningIsSafe(cfg: Config, dag: Dag, last: nat, past: set<BlockID>, steps: seq<Step>, t: Trace)
    requires cfg.nodes != [] && DagValid(cfg, dag) && Run(cfg, dag, last, past, steps, t)
    ensures Pruning(dag, t)
  {
    if steps != [] {
      var init, step := steps[..|steps| - 1], steps[|steps| - 1];
      var t0 :| Run(cfg, dag, last, past, init, t0) && CellsOk(t0.graph) && MayStep(cfg, dag, t0, step) && t == TakeStep(cfg, t0, step);
      PruningIsSafe(cfg, dag, last, past, init, t0);
      match step
      case Admission(data) => AdmitPruning(cfg, dag, t0, data);
      case Interpretation(e, fired) => InterpretPruning(cfg, dag, t0, e, fired);
    }
  }
}

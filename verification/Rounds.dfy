/** Whole runs deliver rounds in order: the callback is given exactly the rounds
    `LastInterpreted + 1`, `+ 2`, ..., each once every configured node is decided. */
module Rounds {
  import opened Messages
  import opened Protocol
  import opened Worklist
  import opened Delivery
  import opened Interpreter
  import opened History
  import opened Chains
  import opened Sets

  /** What was delivered follows from the decisions, also when the process has exited.
      As long as it runs, nothing that could be delivered is held back. */
  ghost predicate UpToDate(g: Graph, nodes: set<nat>, first: nat, ds: seq<Decision>) {
    && AllJustified(g.delivered, nodes, first, ds)
    && (g.status.Running? ==> Follows(g, nodes, first, ds) && !Complete(nodes, ds, g.round))
  }

  lemma {:induction false} DeliverAllUpToDate(g: Graph, nodes: set<nat>, first: nat, before: seq<Decision>, ds: seq<Decision>)
    requires nodes != {} && UpToDate(g, nodes, first, before) && forall d | d in ds :: d.slot.node in nodes
    ensures UpToDate(DeliverAll(|nodes|, g, ds), nodes, first, before + ds)
  {
    if ds == [] {
      assert before + ds == before;
    } else {
      var init, d := ds[..|ds| - 1], ds[|ds| - 1];
      DeliverAllUpToDate(g, nodes, first, before, init);
      assert before + ds == before + init + [d];
      var g1 := DeliverAll(|nodes|, g, init);
      if g1.status.Running? {
        DeliverFollows(g1, nodes, first, before + init, d);
      } else {
        StillJustified(g1.delivered, nodes, first, before + init, d);
      }
    }
  }

  lemma SettleUpToDate(g: Graph, nodes: set<nat>, first: nat, before: seq<Decision>, w: Work)
    requires nodes != {} && UpToDate(g, nodes, first, before) && forall d | d in w.decided :: d.slot.node in nodes
    ensures UpToDate(Settle(|nodes|, g, w), nodes, first, before + w.decided)
  {
    assert UpToDate(g.(cells := w.cells), nodes, first, before);
    DeliverAllUpToDate(g.(cells := w.cells), nodes, first, before, w.decided);
  }

  lemma BatchUpToDate(cfg: Config, first: nat, before: seq<Decision>, q: Progress, sender: nat, receiver: nat, msgs: seq<Message>, k: nat)
    requires cfg.Valid() && q.work.Valid() && UpToDate(q.graph, Elements(cfg.nodes), first, before + q.decided)
    requires About(slot => Known(cfg, k, slot), msgs)
    ensures var q' := Batch(cfg, q, sender, receiver, msgs); UpToDate(q'.graph, Elements(cfg.nodes), first, before + q'.decided)
  {
    hide UpToDate, ProcessMessages;
    if q.graph.status.Running? {
      ElementCount(cfg.nodes);
      assert cfg.nodes[0] in Elements(cfg.nodes);
      var w := q.work.(decided := []);
      BatchSlots(cfg.Quorum(), w, sender, receiver, msgs, slot => Known(cfg, k, slot), Place(Slot(0, 0), [], 0));
      var w' := ProcessMessages(cfg.Quorum(), w, sender, receiver, msgs).work;
      SettleUpToDate(q.graph, Elements(cfg.nodes), first, before + q.decided, w');
      assert before + (q.decided + w'.decided) == before + q.decided + w'.decided;
    }
  }

  lemma {:induction false} BatchesUpToDate(cfg: Config, first: nat, before: seq<Decision>, q: Progress, node: nat, deps: seq<BlockID>, k: nat)
    requires cfg.Valid() && q.work.Valid() && q.work.cells == q.graph.cells && UpToDate(q.graph, Elements(cfg.nodes), first, before + q.decided)
    requires forall d | d in deps && d in q.graph.statess :: About(slot => Known(cfg, k, slot), q.graph.statess[d].out)
    ensures var q' := Batches(cfg, q, node, deps); UpToDate(q'.graph, Elements(cfg.nodes), first, before + q'.decided)
  {
    hide UpToDate;
    if deps != [] {
      var init, d := deps[..|deps| - 1], deps[|deps| - 1];
      BatchesUpToDate(cfg, first, before, q, node, init, k);
      BatchesSettle(cfg, q, node, init);
      var q1 := Batches(cfg, q, node, init);
      BatchUpToDate(cfg, first, before, q1, d.node, node, Output(q1.graph, d), k);
    }
  }

  lemma EvaluateUpToDate(cfg: Config, dag: Dag, first: nat, tr: Trace, e: Entry, fired: seq<Timeout>)
    requires cfg.Valid() && DagValid(cfg, dag) && Pruning(dag, tr) && ChainsOk(cfg, dag, tr) && MayInterpret(cfg, dag, tr, e, fired)
    requires UpToDate(tr.graph, Elements(cfg.nodes), first, tr.decided)
    ensures var q := Evaluate(cfg, tr.graph, e, fired); UpToDate(q.graph, Elements(cfg.nodes), first, tr.decided + q.decided)
  {
    OwnKnown(cfg, dag, tr, e, fired);
    DependenciesKnown(cfg, dag, tr, e);
    var g, k := tr.graph, dag.top[e.block];
    var own := OwnMessages(e, FireAll(StartState(g, e.prev), e.block.node, fired));
    hide UpToDate, DagValid, ChainsOk, Known, FireAll, StartState, BoundsOk, StatesOk;
    assert tr.decided + [] == tr.decided;
    BatchUpToDate(cfg, first, tr.decided, Progress(g, StartWork(g, e, fired), own, []), e.block.node, e.block.node, own, k);
    OwnBatchSettles(cfg, g, e, fired);
    BatchesUpToDate(cfg, first, tr.decided, OwnBatch(cfg, g, e, fired), e.block.node, e.deps, k);
  }

  lemma SameDeliveries(g: Graph, g': Graph, nodes: set<nat>, first: nat, ds: seq<Decision>)
    requires UpToDate(g, nodes, first, ds)
    requires g'.resolved == g.resolved && g'.round == g.round && g'.delivered == g.delivered && g'.status == g.status
    ensures UpToDate(g', nodes, first, ds)
  {
    assert forall round :: g'.Resolved(round) == g.Resolved(round);
  }

  lemma StepUpToDate(cfg: Config, dag: Dag, first: nat, tr: Trace, step: Step)
    requires cfg.Valid() && DagValid(cfg, dag) && Pruning(dag, tr) && ChainsOk(cfg, dag, tr) && MayStep(cfg, dag, tr, step)
    requires UpToDate(tr.graph, Elements(cfg.nodes), first, tr.decided)
    ensures var tr' := TakeStep(cfg, tr, step); UpToDate(tr'.graph, Elements(cfg.nodes), first, tr'.decided)
  {
    assert CellsOk(tr.graph);
    hide UpToDate, DagValid, ChainsOk, Pruning;
    match step
    case Admission(data) =>
      SameDeliveries(tr.graph, Admit(tr.graph, data), Elements(cfg.nodes), first, tr.decided);
    case Interpretation(e, fired) =>
      EvaluateUpToDate(cfg, dag, first, tr, e, fired);
      var q := Evaluate(cfg, tr.graph, e, fired);
      SameDeliveries(q.graph, Process(cfg, tr.graph, e, fired), Elements(cfg.nodes), first, tr.decided + q.decided);
  }

  lemma StartUpToDate(cfg: Config, last: nat, past: set<BlockID>)
    requires cfg.Valid()
    ensures UpToDate(Start(last, past).graph, Elements(cfg.nodes), last + 1, Start(last, past).decided)
  {
    assert cfg.nodes[0] in Elements(cfg.nodes);
    assert FirstFor([], Slot(cfg.nodes[0], last + 1)).None?;
  }

  /** In every run, rounds were delivered from the first on with no gap or repeat, each
      when all nodes were decided and with exactly the non-empty hashes; and unless the
      process has exited, the next round is not yet decided for all nodes. */
  lemma {:induction false} DeliveredInOrder(cfg: Config, dag: Dag, last: nat, past: set<BlockID>, steps: seq<Step>, tr: Trace)
    requires cfg.Valid() && DagValid(cfg, dag) && Run(cfg, dag, last, past, steps, tr)
    ensures UpToDate(tr.graph, Elements(cfg.nodes), last + 1, tr.decided)
  {
    hide UpToDate, DagValid, MayStep, TakeStep, CellsOk, Start;
    if steps == [] {
      StartUpToDate(cfg, last, past);
    } else {
      var init, step := steps[..|steps| - 1], steps[|steps| - 1];
      var t0 :| Run(cfg, dag, last, past, init, t0) && CellsOk(t0.graph) && MayStep(cfg, dag, t0, step) && tr == TakeStep(cfg, t0, step);
      DeliveredInOrder(cfg, dag, last, past, init, t0);
      PruningIsSafe(cfg, dag, last, past, init, t0);
      ChainsGrow(cfg, dag, last, past, init, t0);
      StepUpToDate(cfg, dag, last + 1, t0, step);
    }
  }
}

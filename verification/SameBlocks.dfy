/** Two graphs that deliver a round deliver the same blocks for it, if no timer of the
    round's slots expired in either. Decisions are made before anything is delivered, so
    each rests on votes that the DAG determines, although its step may deliver the round. */
module SameBlocks {
  import opened Messages
  import opened Protocol
  import opened Worklist
  import opened Delivery
  import opened Interpreter
  import opened History
  import opened Agreement
  import opened Chains
  import opened Rounds
  import LiveGraph
  import opened Sets

  // ---------------------------------------------------------------------------
  // Without timers, all that is said about a slot is said in view 0.

  predicate Zero(slot: Slot, m: Message) {
    m.slot == slot ==> m.view == 0 && !m.ViewChange? && !m.NewView?
  }

  ghost predicate AllZero(slot: Slot, out: seq<Message>) {
    forall m | m in out :: Zero(slot, m)
  }

  lemma ResponseZero(slot: Slot, quorum: nat, s: State, cells: seq<Cell>, sender: nat, receiver: nat, m: Message)
    requires CellsWellFormed(s, cells) && Zero(slot, m)
    ensures var o := ProcessMessage(quorum, s, cells, sender, receiver, m);
            && (o.response.Some? ==> Zero(slot, o.response.value))
            && (o.decided.Some? ==> m.Commit? && o.decided.value == m.hash)
  {
    hide State.View, State.VotesFor, State.AddPrepares, State.AddCommit, CellsWellFormed, Gathered, NonEmptyHashes;
  }

  lemma BatchZero(slot: Slot, quorum: nat, w: Work, sender: nat, receiver: nat, msgs: seq<Message>)
    requires w.Valid() && AllZero(slot, msgs)
    ensures AllZero(slot, ProcessMessages(quorum, w, sender, receiver, msgs).out)
  {
    var inv := (v: Work, out: seq<Message>) => AllZero(slot, out);
    forall v: Work, out: seq<Message>, m: Message {:trigger inv(v, out), Interpret(quorum, v, sender, receiver, m)}
      | v.Valid() && inv(v, out) && (m in msgs || m in out)
      ensures inv(Interpret(quorum, v, sender, receiver, m).work, out + Interpret(quorum, v, sender, receiver, m).out)
    {
      ResponseZero(slot, quorum, v.state, v.cells, sender, receiver, m);
    }
    BatchKeeps(quorum, w, sender, receiver, msgs, inv);
  }

  ghost predicate GraphZero(slot: Slot, g: Graph) {
    forall b | b in g.statess :: AllZero(slot, g.statess[b].out)
  }

  lemma StepZero(cfg: Config, slot: Slot, p: Progress, sender: nat, receiver: nat, msgs: seq<Message>)
    requires cfg.nodes != [] && p.work.Valid() && AllZero(slot, p.out) && AllZero(slot, msgs)
    ensures AllZero(slot, Batch(cfg, p, sender, receiver, msgs).out)
  {
    hide ProcessMessages;
    if p.graph.status.Running? { BatchZero(slot, cfg.Quorum(), p.work.(decided := []), sender, receiver, msgs); }
  }

  lemma {:induction false} StepsZero(cfg: Config, slot: Slot, p: Progress, node: nat, deps: seq<BlockID>)
    requires cfg.nodes != [] && p.work.Valid() && p.work.cells == p.graph.cells && AllZero(slot, p.out) && GraphZero(slot, p.graph)
    ensures AllZero(slot, Batches(cfg, p, node, deps).out)
  {
    if deps != [] {
      var init, d := deps[..|deps| - 1], deps[|deps| - 1];
      StepsZero(cfg, slot, p, node, init);
      BatchesSettle(cfg, p, node, init);
      hide AllZero;
      var p1 := Batches(cfg, p, node, init);
      assert AllZero(slot, Output(p1.graph, d)) by { NothingIsZero(slot); }
      StepZero(cfg, slot, p1, d.node, node, Output(p1.graph, d));
    }
  }

  lemma NothingIsZero(slot: Slot)
    ensures AllZero(slot, [])
  {
  }

  predicate NoTimers(slot: Slot, fired: seq<Timeout>) {
    forall t | t in fired :: t.slot != slot
  }

  lemma {:induction false} FireZero(slot: Slot, s: State, node: nat, fired: seq<Timeout>)
    requires NoTimers(slot, fired)
    ensures AllZero(slot, FireAll(s, node, fired).out)
  {
    if fired != [] { FireZero(slot, s, node, fired[..|fired| - 1]); }
  }

  lemma EvaluateZero(cfg: Config, slot: Slot, g: Graph, e: Entry, fired: seq<Timeout>)
    requires cfg.nodes != [] && CellsOk(g) && GraphZero(slot, g) && NoTimers(slot, fired)
    ensures AllZero(slot, OwnMessages(e, FireAll(StartState(g, e.prev), e.block.node, fired)))
    ensures AllZero(slot, Evaluate(cfg, g, e, fired).out)
  {
    var s0 := StartState(g, e.prev);
    FireZero(slot, s0, e.block.node, fired);
    var own := OwnMessages(e, FireAll(s0, e.block.node, fired));
    assert AllZero(slot, own);
    OwnBatchSettles(cfg, g, e, fired);
    assert GraphZero(slot, OwnBatch(cfg, g, e, fired).graph);
    hide AllZero, GraphZero, CellsOk, StartState, FireAll, OwnMessages;
    StepZero(cfg, slot, Progress(g, StartWork(g, e, fired), own, []), e.block.node, e.block.node, own);
    StepsZero(cfg, slot, OwnBatch(cfg, g, e, fired), e.block.node, e.deps);
  }

  /** No timer of the slot expires in the whole run. */
  predicate Untimed(slot: Slot, steps: seq<Step>) {
    forall s | s in steps && s.Interpretation? :: NoTimers(slot, s.fired)
  }

  lemma StepGraphZero(cfg: Config, slot: Slot, tr: Trace, step: Step)
    requires cfg.nodes != [] && CellsOk(tr.graph) && GraphZero(slot, tr.graph) && (step.Interpretation? ==> NoTimers(slot, step.fired))
    ensures GraphZero(slot, TakeStep(cfg, tr, step).graph)
  {
    if step.Interpretation? {
      hide AllZero, CellsOk, NoTimers, OwnBatch, Batches;
      EvaluateZero(cfg, slot, tr.graph, step.entry, step.fired);
      OwnBatchSettles(cfg, tr.graph, step.entry, step.fired);
      BatchesSettle(cfg, OwnBatch(cfg, tr.graph, step.entry, step.fired), step.entry.block.node, step.entry.deps);
    }
  }

  lemma {:induction false} RunZero(cfg: Config, dag: Dag, slot: Slot, last: nat, past: set<BlockID>, steps: seq<Step>, tr: Trace)
    requires cfg.nodes != [] && Run(cfg, dag, last, past, steps, tr) && Untimed(slot, steps)
    ensures GraphZero(slot, tr.graph)
  {
    if steps != [] {
      var init, step := steps[..|steps| - 1], steps[|steps| - 1];
      UntimedInit(slot, steps);
      hide Untimed, NoTimers, GraphZero, MayStep, TakeStep, CellsOk;
      var t0 :| Run(cfg, dag, last, past, init, t0) && CellsOk(t0.graph) && MayStep(cfg, dag, t0, step) && tr == TakeStep(cfg, t0, step);
      RunZero(cfg, dag, slot, last, past, init, t0);
      StepGraphZero(cfg, slot, t0, step);
    }
  }

  // ---------------------------------------------------------------------------
  // A decision that a batch makes is for a certified hash.

  ghost predicate DecidedOk(t: Tally, ds: seq<Decision>) {
    forall d | d in ds && d.slot == t.slot :: t.Certified(d.hash)
  }

  lemma InterpretDecides(t: Tally, w: Work, sender: nat, receiver: nat, m: Message)
    requires w.Valid() && Zero(t.slot, m) && MessageOk(t, m) && DecidedOk(t, w.decided)
    ensures var r := Interpret(t.quorum, w, sender, receiver, m); DecidedOk(t, r.work.decided) && AllZero(t.slot, r.out)
  {
    if !(w.fatal || m in w.processed) { ResponseZero(t.slot, t.quorum, w.state, w.cells, sender, receiver, m); }
    hide ProcessMessage, Tally.Certified;
  }

  lemma BatchDecides(t: Tally, w: Work, sender: nat, receiver: nat, msgs: seq<Message>, seen: Option<Hash>, opening: Option<Hash>)
    requires w.Valid() && WorkOk(t, w, seen) && w.decided == [] && AllZero(t.slot, msgs) && forall m | m in msgs :: Opens(t, opening, m)
    requires opening.Some? ==> sender == t.slot.node
    requires Opened(seen, opening).Some? ==> Vote(receiver, Opened(seen, opening).value) in t.votes
    ensures DecidedOk(t, ProcessMessages(t.quorum, w, sender, receiver, msgs).work.decided)
  {
    var inv := (x: Work, out: seq<Message>) =>
      && WorkOk(t, x, SeenIn(t, x, seen, opening)) && (forall y | y in out :: Opens(t, opening, y))
      && AllZero(t.slot, out) && DecidedOk(t, x.decided);
    forall x: Work, out: seq<Message>, m: Message {:trigger inv(x, out), Interpret(t.quorum, x, sender, receiver, m)}
      | x.Valid() && inv(x, out) && (m in msgs || m in out)
      ensures inv(Interpret(t.quorum, x, sender, receiver, m).work, out + Interpret(t.quorum, x, sender, receiver, m).out)
    {
      InterpretOk(t, x, sender, receiver, m, seen, opening);
      InterpretDecides(t, x, sender, receiver, m);
    }
    BatchKeeps(t.quorum, w, sender, receiver, msgs, inv);
  }

  // ---------------------------------------------------------------------------
  // The first decision for a slot is for a certified hash.

  ghost predicate FirstOk(t: Tally, ds: seq<Decision>) {
    FirstFor(ds, t.slot).Some? ==> t.Certified(FirstFor(ds, t.slot).value)
  }

  lemma {:induction false} FirstStays(t: Tally, ds: seq<Decision>, more: seq<Decision>)
    requires FirstOk(t, ds) && (FirstFor(ds, t.slot).Some? || DecidedOk(t, more))
    ensures FirstOk(t, ds + more)
    ensures FirstFor(ds, t.slot).Some? ==> FirstFor(ds + more, t.slot).Some?
  {
    if more == [] {
      assert ds + more == ds;
    } else {
      var init := more[..|more| - 1];
      FirstStays(t, ds, init);
      assert (ds + more)[..|ds + more| - 1] == ds + init;
    }
  }

  /** Once the slot's round is delivered, the slot is decided. */
  lemma DeliveredIsDecided(g: Graph, nodes: set<nat>, first: nat, ds: seq<Decision>, slot: Slot)
    requires Follows(g, nodes, first, ds) && first <= slot.round < g.round && slot.node in nodes
    ensures FirstFor(ds, slot).Some?
  {
    assert Justified(g.delivered[slot.round - first], nodes, slot.round, ds);
    assert slot == Slot(slot.node, slot.round);
  }

  /** What a batch of a block needs to make no other decision. */
  ghost predicate Ready(cfg: Config, t: Tally, first: nat, before: seq<Decision>, p: Progress) {
    && UpToDate(p.graph, Elements(cfg.nodes), first, before + p.decided) && FirstOk(t, before + p.decided)
    && first <= t.slot.round && t.slot.node in cfg.nodes
  }

  lemma BatchFirst(cfg: Config, t: Tally, first: nat, before: seq<Decision>, b: BlockID, p: Progress, sender: BlockID, msgs: seq<Message>, seen: Option<Hash>)
    requires cfg.nodes != [] && t.quorum == cfg.Quorum() && p.work.Valid() && Ready(cfg, t, first, before, p) && AllZero(t.slot, msgs)
    requires p.graph.status.Running? && p.graph.round <= t.slot.round ==>
               && ProgressOk(t, b, p, seen) && (forall m | m in msgs :: Opens(t, OpeningOf(t, sender), m))
               && var seen' := Opened(seen, OpeningOf(t, sender)); seen'.Some? ==> Vote(b.node, seen'.value) in t.votes
    ensures FirstOk(t, before + Batch(cfg, p, sender.node, b.node, msgs).decided)
  {
    hide StateOk, MessageOk, Tally.Certified, AllZero, AllJustified;
    if p.graph.status.Running? {
      var w := p.work.(decided := []);
      if p.graph.round <= t.slot.round {
        BatchDecides(t, w, sender.node, b.node, msgs, seen, OpeningOf(t, sender));
      } else {
        assert t.slot.node in Elements(cfg.nodes);
        DeliveredIsDecided(p.graph, Elements(cfg.nodes), first, before + p.decided, t.slot);
      }
      hide FirstOk, DecidedOk, ProcessMessages;
      var ds := ProcessMessages(cfg.Quorum(), w, sender.node, b.node, msgs).work.decided;
      FirstStays(t, before + p.decided, ds);
      assert before + p.decided + ds == before + (p.decided + ds);
    }
  }

  lemma {:induction false} BatchesFirst(cfg: Config, dag: Dag, t: Tally, first: nat, before: seq<Decision>, log: map<BlockID, State>,
                                        admitted: set<BlockID>, b: BlockID, p: Progress, deps: seq<BlockID>)
    requires cfg.Valid() && DagValid(cfg, dag) && t.quorum == cfg.Quorum() && 1 <= t.slot.round && b in dag.links && b in dag.top
    requires p.work.Valid() && p.work.cells == p.graph.cells && Safe(dag, p.graph, admitted, log) && LogOk(dag, t, log)
    requires forall d | d in deps :: d in log || d == NO_BLOCK
    requires ProgressOk(t, b, p, SeenUpTo(dag, t.slot, b, [])) && Ready(cfg, t, first, before, p) && GraphZero(t.slot, p.graph)
    requires forall d | d in deps && d in p.graph.statess :: About(slot => Known(cfg, dag.top[b], slot), p.graph.statess[d].out)
    requires forall i | 0 <= i <= |deps| :: VotesFirst(dag, t, b, deps[..i])
    ensures FirstOk(t, before + Batches(cfg, p, b.node, deps).decided)
  {
    if deps != [] {
      var init, d := deps[..|deps| - 1], deps[|deps| - 1];
      var p1 := Batches(cfg, p, b.node, init);
      forall i | 0 <= i <= |init| ensures VotesFirst(dag, t, b, init[..i]) {
        assert init[..i] == deps[..i];
        assert VotesFirst(dag, t, b, deps[..i]);
      }
      assert VotesFirst(dag, t, b, deps) by { assert deps[..|deps|] == deps; }
      hide DagValid, LogOk, ProgressOk, FirstOk, UpToDate, Known, AllZero;
      BatchesFirst(cfg, dag, t, first, before, log, admitted, b, p, init);
      BatchesSettle(cfg, p, b.node, init);
      BatchesUpToDate(cfg, first, before, p, b.node, init, dag.top[b]);
      assert AllZero(t.slot, Output(p1.graph, d)) by { NothingIsZero(t.slot); }
      if p1.graph.status.Running? && p1.graph.round <= t.slot.round {
        BatchesSafe(cfg, dag, p, b.node, init, admitted, log);
        BatchesOk(cfg, dag, t, log, admitted, b, p, init);
        DependencyOutput(cfg, dag, t, p1.graph, log, d);
        SeenUpToLast(dag, t.slot, b, deps);
      }
      BatchFirst(cfg, t, first, before, b, p1, d, Output(p1.graph, d), SeenUpTo(dag, t.slot, b, init));
    }
  }

  /** What is known before a block is interpreted that may decide the slot. */
  ghost predicate Before(cfg: Config, dag: Dag, t: Tally, first: nat, tr: Trace, e: Entry, fired: seq<Timeout>)
    requires cfg.nodes != []
  {
    && DagValid(cfg, dag) && Pruning(dag, tr) && ChainsOk(cfg, dag, tr) && MayInterpret(cfg, dag, tr, e, fired) && LogOk(dag, t, tr.log)
    && t == TallyOf(cfg, dag, t.slot) && 1 <= t.slot.round && tr.graph.round <= t.slot.round
    && first <= t.slot.round && t.slot.node in cfg.nodes && GraphZero(t.slot, tr.graph) && NoTimers(t.slot, fired)
    && UpToDate(tr.graph, Elements(cfg.nodes), first, tr.decided) && FirstOk(t, tr.decided)
  }

  function OwnStart(g: Graph, e: Entry, fired: seq<Timeout>): (p: Progress)
    requires CellsOk(g)
    ensures p.work.Valid()
  {
    Progress(g, StartWork(g, e, fired), OwnMessages(e, FireAll(StartState(g, e.prev), e.block.node, fired)), [])
  }

  lemma OwnFirst(cfg: Config, dag: Dag, t: Tally, first: nat, tr: Trace, e: Entry, fired: seq<Timeout>)
    requires cfg.Valid() && Before(cfg, dag, t, first, tr, e, fired)
    ensures Ready(cfg, t, first, tr.decided, OwnBatch(cfg, tr.graph, e, fired))
    ensures ProgressOk(t, e.block, OwnBatch(cfg, tr.graph, e, fired), SeenUpTo(dag, t.slot, e.block, []))
  {
    var g, b := tr.graph, e.block;
    hide DagValid, ChainsOk, LogOk, UpToDate, FirstOk, GraphZero, NoTimers, StartState, FireAll, CellsOk, BoundsOk, StatesOk, TallyOf, LinksOf, Seen, Known;
    var p0 := OwnStart(g, e, fired);
    TallySlot(cfg, dag, t.slot);
    assert tr.decided + [] == tr.decided;
    EvaluateZero(cfg, t.slot, g, e, fired);
    OwnOk(cfg, dag, t, g, tr.log, e, fired);
    OwnBatchOk(cfg, dag, t, g, tr.log, e, fired);
    EntryVotes(cfg, dag, t.slot, e);
    SeenSelf(dag, t.slot, b);
    assert VotesFirst(dag, t, b, e.deps[..0]) && e.deps[..0] == [];
    BatchFirst(cfg, t, first, tr.decided, b, p0, b, p0.out, SeenBefore(dag, t.slot, b));
    OwnKnown(cfg, dag, tr, e, fired);
    BatchUpToDate(cfg, first, tr.decided, p0, b.node, b.node, p0.out, dag.top[b]);
  }

  lemma EvaluateFirst(cfg: Config, dag: Dag, t: Tally, first: nat, tr: Trace, e: Entry, fired: seq<Timeout>)
    requires cfg.Valid() && Before(cfg, dag, t, first, tr, e, fired)
    ensures FirstOk(t, tr.decided + Evaluate(cfg, tr.graph, e, fired).decided)
  {
    var g, b := tr.graph, e.block;
    OwnBatchSettles(cfg, g, e, fired);
    assert GraphZero(t.slot, OwnBatch(cfg, g, e, fired).graph);
    hide DagValid, ChainsOk, LogOk, UpToDate, FirstOk, GraphZero, NoTimers, StartState, FireAll, CellsOk, BoundsOk, StatesOk, TallyOf, LinksOf, Seen, OwnBatch, ProgressOk, Known;
    OwnFirst(cfg, dag, t, first, tr, e, fired);
    OwnKnown(cfg, dag, tr, e, fired);
    DependenciesKnown(cfg, dag, tr, e);
    OwnBatchSafe(cfg, dag, g, e, fired, tr.admitted, tr.log);
    EntryDepsLogged(cfg, dag, e, tr.log);
    EntryVotes(cfg, dag, t.slot, e);
    BatchesFirst(cfg, dag, t, first, tr.decided, tr.log, tr.admitted, b, OwnBatch(cfg, g, e, fired), e.deps);
  }

  lemma StepFirst(cfg: Config, dag: Dag, t: Tally, first: nat, tr: Trace, step: Step)
    requires cfg.Valid() && Pruning(dag, tr) && MayStep(cfg, dag, tr, step)
    requires UpToDate(tr.graph, Elements(cfg.nodes), first, tr.decided) && FirstOk(t, tr.decided) && first <= t.slot.round && t.slot.node in cfg.nodes
    requires step.Interpretation? && tr.graph.round <= t.slot.round ==> Before(cfg, dag, t, first, tr, step.entry, step.fired)
    ensures FirstOk(t, TakeStep(cfg, tr, step).decided)
  {
    hide FirstOk, Before, CellsOk, BoundsOk, StatesOk, Evaluate, MayInterpret, MayAdmit;
    if step.Interpretation? {
      if tr.graph.round <= t.slot.round {
        EvaluateFirst(cfg, dag, t, first, tr, step.entry, step.fired);
      } else {
        assert t.slot.node in Elements(cfg.nodes);
        DeliveredIsDecided(tr.graph, Elements(cfg.nodes), first, tr.decided, t.slot);
        FirstStays(t, tr.decided, Evaluate(cfg, tr.graph, step.entry, step.fired).decided);
      }
    }
  }

  /** In every run in which no timer of the slot expires, also in the step that
      delivers it. */
  lemma {:induction false} RunFirst(cfg: Config, dag: Dag, slot: Slot, last: nat, past: set<BlockID>, steps: seq<Step>, tr: Trace)
    requires cfg.Valid() && DagValid(cfg, dag) && Run(cfg, dag, last, past, steps, tr) && Untimed(slot, steps)
    requires last + 1 <= slot.round && slot.node in cfg.nodes
    ensures FirstOk(TallyOf(cfg, dag, slot), tr.decided)
  {
    hide Untimed, NoTimers, GraphZero, TakeStep, CellsOk, DagValid, TallyOf, UpToDate, FirstOk, LogOk, ChainsOk, Pruning, MayInterpret, MayAdmit;
    var t := TallyOf(cfg, dag, slot);
    TallySlot(cfg, dag, slot);
    if steps == [] {
      NothingDecided(t);
    } else {
      var init, step := steps[..|steps| - 1], steps[|steps| - 1];
      UntimedInit(slot, steps);
      var t0 :| Run(cfg, dag, last, past, init, t0) && CellsOk(t0.graph) && MayStep(cfg, dag, t0, step) && tr == TakeStep(cfg, t0, step);
      hide Run;
      RunFirst(cfg, dag, slot, last, past, init, t0);
      PruningIsSafe(cfg, dag, last, past, init, t0);
      ChainsGrow(cfg, dag, last, past, init, t0);
      DeliveredInOrder(cfg, dag, last, past, init, t0);
      RunZero(cfg, dag, slot, last, past, init, t0);
      if t0.graph.round <= slot.round { RunOk(cfg, dag, slot, last, past, init, t0); }
      StepFirst(cfg, dag, t, last + 1, t0, step);
    }
  }

  lemma NothingDecided(t: Tally)
    ensures FirstOk(t, [])
  {
  }

  lemma UntimedInit(slot: Slot, steps: seq<Step>)
    requires steps != [] && Untimed(slot, steps)
    ensures Untimed(slot, steps[..|steps| - 1])
    ensures steps[|steps| - 1].Interpretation? ==> NoTimers(slot, steps[|steps| - 1].fired)
  {
  }

  lemma TallySlot(cfg: Config, dag: Dag, slot: Slot)
    requires cfg.nodes != []
    ensures TallyOf(cfg, dag, slot).slot == slot && TallyOf(cfg, dag, slot).quorum == cfg.Quorum()
  {
  }

  // ---------------------------------------------------------------------------
  // Two graphs.

  /** One delivery of a run: of which round, and that no timer of the round expired. */
  ghost predicate Delivers(cfg: Config, dag: Dag, last: nat, past: set<BlockID>, steps: seq<Step>, tr: Trace, i: nat, round: nat)
    requires cfg.nodes != []
  {
    && Run(cfg, dag, last, past, steps, tr) && i < |tr.graph.delivered| && tr.graph.delivered[i].round == round
    && forall n | n in cfg.nodes :: Untimed(Slot(n, round), steps)
  }

  /** Every node's block of a delivered round has a certified hash. */
  lemma DeliversCertified(cfg: Config, dag: Dag, last: nat, past: set<BlockID>, steps: seq<Step>, tr: Trace, i: nat, round: nat, n: nat)
    requires cfg.Valid() && DagValid(cfg, dag) && Delivers(cfg, dag, last, past, steps, tr, i, round) && n in cfg.nodes
    ensures Justified(tr.graph.delivered[i], Elements(cfg.nodes), round, tr.decided)
    ensures var h := FirstFor(tr.decided, Slot(n, round)); h.Some? && TallyOf(cfg, dag, Slot(n, round)).Certified(h.value)
  {
    hide Run, DagValid, TallyOf, Untimed;
    DeliveredInOrder(cfg, dag, last, past, steps, tr);
    assert Justified(tr.graph.delivered[i], Elements(cfg.nodes), last + 1 + i, tr.decided) && n in Elements(cfg.nodes);
    RunFirst(cfg, dag, Slot(n, round), last, past, steps, tr);
    TallySlot(cfg, dag, Slot(n, round));
  }

  lemma SameHashes(nodes: set<nat>, ds1: seq<Decision>, ds2: seq<Decision>, round: nat)
    requires forall n | n in nodes :: FirstFor(ds1, Slot(n, round)) == FirstFor(ds2, Slot(n, round))
    ensures Hashes(nodes, ds1, round) == Hashes(nodes, ds2, round)
  {
    hide FirstFor;
  }

  /** With n = 3f + 1 and at most f forking nodes: two graphs, after any runs over one
      DAG, that have delivered a round none of whose timers expired, have delivered the
      same blocks for it. */
  lemma SameBlocksDelivered(cfg: Config, dag: Dag, round: nat,
                            last1: nat, past1: set<BlockID>, steps1: seq<Step>, t1: Trace, i1: nat,
                            last2: nat, past2: set<BlockID>, steps2: seq<Step>, t2: Trace, i2: nat)
    requires cfg.Valid() && |cfg.nodes| % 3 == 1 && DagValid(cfg, dag) && |Forkers(cfg, dag)| <= cfg.Faults()
    requires Delivers(cfg, dag, last1, past1, steps1, t1, i1, round) && Delivers(cfg, dag, last2, past2, steps2, t2, i2, round)
    ensures t1.graph.delivered[i1].blocks == t2.graph.delivered[i2].blocks
  {
    hide DagValid, TallyOf, Forkers, Run, Untimed;
    var nodes := Elements(cfg.nodes);
    DeliversCertified(cfg, dag, last1, past1, steps1, t1, i1, round, cfg.nodes[0]);
    DeliversCertified(cfg, dag, last2, past2, steps2, t2, i2, round, cfg.nodes[0]);
    forall n | n in nodes ensures FirstFor(t1.decided, Slot(n, round)) == FirstFor(t2.decided, Slot(n, round)) {
      DeliversCertified(cfg, dag, last1, past1, steps1, t1, i1, round, n);
      DeliversCertified(cfg, dag, last2, past2, steps2, t2, i2, round, n);
      CertifiedAgree(cfg, dag, Slot(n, round), FirstFor(t1.decided, Slot(n, round)).value, FirstFor(t2.decided, Slot(n, round)).value);
    }
    SameHashes(nodes, t1.decided, t2.decided, round);
  }

  /** So the callbacks of two live graphs that stand there were given the same blocks in
      the same order, if different blocks have different hashes. */
  lemma SameReports(cfg: Config, dag: Dag, round: nat,
                    last1: nat, past1: set<BlockID>, steps1: seq<Step>, t1: Trace, reports1: seq<LiveGraph.Report>, i1: nat,
                    last2: nat, past2: set<BlockID>, steps2: seq<Step>, t2: Trace, reports2: seq<LiveGraph.Report>, i2: nat)
    requires cfg.Valid() && |cfg.nodes| % 3 == 1 && DagValid(cfg, dag) && |Forkers(cfg, dag)| <= cfg.Faults()
    requires Delivers(cfg, dag, last1, past1, steps1, t1, i1, round) && Delivers(cfg, dag, last2, past2, steps2, t2, i2, round)
    requires LiveGraph.AllNeat(reports1) && LiveGraph.Abstract(reports1) == t1.graph.delivered
    requires LiveGraph.AllNeat(reports2) && LiveGraph.Abstract(reports2) == t2.graph.delivered
    requires forall b, b' | b in reports1[i1].blocks && b' in reports1[i1].blocks && b != b' :: b.hash != b'.hash
    ensures reports1[i1].blocks == reports2[i2].blocks
  {
    SameBlocksDelivered(cfg, dag, round, last1, past1, steps1, t1, i1, last2, past2, steps2, t2, i2);
    assert reports1[i1] in reports1 && reports2[i2] in reports2;
    assert t1.graph.delivered[i1].blocks == Elements(reports1[i1].blocks) && t2.graph.delivered[i2].blocks == Elements(reports2[i2].blocks);
    hide Run, DagValid, Forkers, Untimed, LiveGraph.Neat;
    LiveGraph.SameOrder(reports1[i1], reports2[i2]);
  }
}

/** Along a chain nothing about an undelivered round is ever lost: votes are only
    added, what was pre-prepared, prepared, announced or decided stays, and views
    do not go back, even when a parent's state was pruned. */
module Chains {
  import opened Messages
  import opened Protocol
  import opened Worklist
  import opened Delivery
  import opened Interpreter
  import opened History

  /** A place in a state: a ballot, the key it belongs to, and its slot. */
  datatype Place = Place(slot: Slot, hash: Hash, view: nat) {
    function Ballot(): Ballot { Protocol.Ballot.Ballot(hash, slot, view) }

    function Key(): Key { Protocol.Key.Key(slot, view) }
  }

  /** `s'` knows all that `s` knows at `x`. */
  predicate Extends(s: State, s': State, x: Place) {
    && s.VotesFor(x.Ballot()).prepares <= s'.VotesFor(x.Ballot()).prepares
    && s.VotesFor(x.Ballot()).commits <= s'.VotesFor(x.Ballot()).commits
    && (x.Key() in s.prePrepared ==> x.Key() in s'.prePrepared && s'.prePrepared[x.Key()] == s.prePrepared[x.Key()])
    && (x.Key() in s.prepared ==> x.Key() in s'.prepared && s'.prepared[x.Key()] == s.prepared[x.Key()])
    && (x.Key() in s.hnv ==> x.Key() in s'.hnv)
    && s.View(x.slot) <= s'.View(x.slot)
    && (x.slot in s.final ==> x.slot in s'.final && s'.final[x.slot] == s.final[x.slot])
  }

  /** `s` knows nothing at `x`. */
  predicate Blank(s: State, x: Place) {
    && x.Ballot() !in s.bitsets
    && x.Key() !in s.prePrepared && x.Key() !in s.prepared && x.Key() !in s.hnv
    && x.slot !in s.views && x.slot !in s.final
  }

  /** Interpreting one message loses nothing and touches only its own slot. */
  ghost predicate Grown(s: State, s': State, m: Message, x: Place) {
    Extends(s, s', x) && (m.slot != x.slot && Blank(s, x) ==> Blank(s', x))
  }

  lemma AddPreparesExtends(s: State, b: Ballot, ids: set<nat>, m: Message, x: Place)
    requires b.slot == m.slot
    ensures Grown(s, s.AddPrepares(b, ids), m, x)
  {
  }

  lemma AddCommitExtends(s: State, b: Ballot, id: nat, m: Message, x: Place)
    requires b.slot == m.slot
    ensures Grown(s, s.AddCommit(b, id), m, x)
  {
  }

  lemma AddsExtend(s: State, b: Ballot, ids: set<nat>, id: nat, m: Message, x: Place)
    requires b.slot == m.slot
    ensures Grown(s, s.AddPrepares(b, ids), m, x) && Grown(s, s.AddCommit(b, id), m, x)
  {
    hide Grown;
    AddPreparesExtends(s, b, ids, m, x);
    AddCommitExtends(s, b, id, m, x);
  }

  lemma SetsExtend(s: State, s': State, m: Message, x: Place)
    requires s' == s || (s' == s.(prepared := s.prepared[Key(m.slot, m.view) := m.hash]) && Key(m.slot, m.view) !in s.prepared) ||
             (s' == s.(prePrepared := s.prePrepared[Key(m.slot, m.view) := m.hash]) && Key(m.slot, m.view) !in s.prePrepared) ||
             (s' == s.(final := s.final[m.slot := m.hash]) && m.slot !in s.final)
    ensures Grown(s, s', m, x)
  {
  }

  lemma GrownOn(s: State, s1: State, s2: State, m: Message, x: Place)
    requires Grown(s, s1, m, x) && Grown(s1, s2, m, x)
    ensures Grown(s, s2, m, x)
  {
    hide State.VotesFor, State.View, Blank;
  }

  lemma PrePrepareExtends(s: State, cells: seq<Cell>, sender: nat, receiver: nat, m: Message, x: Place)
    requires m.PrePrepare?
    ensures Grown(s, OnPrePrepare(s, cells, sender, receiver, m).state, m, x)
  {
    var ballot := Ballot(m.hash, m.slot, m.view);
    var s1 := s.AddPrepares(ballot, {sender, receiver});
    var s' := OnPrePrepare(s, cells, sender, receiver, m).state;
    assert s' == s || (s' == s1.(prePrepared := s1.prePrepared[Key(m.slot, m.view) := m.hash]) && Key(m.slot, m.view) !in s1.prePrepared);
    SetsExtend(s, s, m, x);
    hide Grown, OnPrePrepare;
    if s' != s {
      AddPreparesExtends(s, ballot, {sender, receiver}, m, x);
      SetsExtend(s1, s', m, x);
      GrownOn(s, s1, s', m, x);
    }
  }

  lemma PrepareExtends(quorum: nat, s: State, cells: seq<Cell>, receiver: nat, m: Message, x: Place)
    requires m.Prepare?
    ensures Grown(s, OnPrepare(quorum, s, cells, receiver, m).state, m, x)
  {
    var ballot := Ballot(m.hash, m.slot, m.view);
    var s1 := s.AddPrepares(ballot, {m.sender});
    var s2 := s1.AddCommit(ballot, receiver);
    AddsExtend(s, ballot, {m.sender}, receiver, m, x);
    AddsExtend(s1, ballot, {m.sender}, receiver, m, x);
    var s' := OnPrepare(quorum, s, cells, receiver, m).state;
    if s' != s && s' != s1 {
      SetsExtend(s2, s', m, x);
    }
  }

  lemma CommitExtends(quorum: nat, s: State, cells: seq<Cell>, m: Message, x: Place)
    requires m.Commit?
    ensures Grown(s, OnCommit(quorum, s, cells, m).state, m, x)
  {
    var ballot := Ballot(m.hash, m.slot, m.view);
    AddsExtend(s, ballot, {}, m.sender, m, x);
    var s' := OnCommit(quorum, s, cells, m).state;
    if s' != s {
      SetsExtend(s.AddCommit(ballot, m.sender), s', m, x);
    }
  }

  lemma ViewChangeExtends(quorum: nat, s: State, cells: seq<Cell>, receiver: nat, m: Message, x: Place)
    requires m.ViewChange? && CellsWellFormed(s, cells)
    ensures Grown(s, OnViewChange(quorum, s, cells, receiver, m).state, m, x)
  {
    assert OnViewChange(quorum, s, cells, receiver, m).state.View(x.slot) >= s.View(x.slot);
  }

  lemma NewViewExtends(s: State, cells: seq<Cell>, m: Message, x: Place)
    requires m.NewView?
    ensures Grown(s, OnNewView(s, cells, m).state, m, x)
  {
  }

  lemma WithViewExtends(s: State, m: Message, x: Place)
    ensures Grown(s, WithView(s, m.slot), m, x)
  {
  }

  lemma MessageExtends(quorum: nat, s: State, cells: seq<Cell>, sender: nat, receiver: nat, m: Message, x: Place)
    requires CellsWellFormed(s, cells)
    ensures Grown(s, ProcessMessage(quorum, s, cells, sender, receiver, m).state, m, x)
  {
    var s1 := WithView(s, m.slot);
    assert CellsWellFormed(s1, cells);
    hide Grown, OnPrePrepare, OnPrepare, OnCommit, OnViewChange, OnNewView, WithView, CellsWellFormed;
    WithViewExtends(s, m, x);
    match m
    case PrePrepare(_, _, _) => PrePrepareExtends(s1, cells, sender, receiver, m, x);
    case Prepare(_, _, _, _) => PrepareExtends(quorum, s1, cells, receiver, m, x);
    case Commit(_, _, _, _) => CommitExtends(quorum, s1, cells, m, x);
    case ViewChange(_, _, _, _) => ViewChangeExtends(quorum, s1, cells, receiver, m, x);
    case NewView(_, _, _, _) => NewViewExtends(s1, cells, m, x);
    GrownOn(s, s1, ProcessMessage(quorum, s, cells, sender, receiver, m).state, m, x);
  }

  // ---------------------------------------------------------------------------
  // Batches and blocks.

  lemma BatchExtends(quorum: nat, w: Work, sender: nat, receiver: nat, msgs: seq<Message>, x: Place)
    requires w.Valid()
    ensures Extends(w.state, ProcessMessages(quorum, w, sender, receiver, msgs).work.state, x)
  {
    var inv := (v: Work, out: seq<Message>) => Extends(w.state, v.state, x);
    forall v: Work, out: seq<Message>, m: Message {:trigger inv(v, out), Interpret(quorum, v, sender, receiver, m)}
      | v.Valid() && inv(v, out) && (m in msgs || m in out)
      ensures inv(Interpret(quorum, v, sender, receiver, m).work, out + Interpret(quorum, v, sender, receiver, m).out)
    {
      MessageExtends(quorum, v.state, v.cells, sender, receiver, m, x);
    }
    BatchKeeps(quorum, w, sender, receiver, msgs, inv);
  }

  /** Messages about slots in `p` provoke only responses and decisions about such
      slots, and leave alone what is known of the others. */
  lemma BatchSlots(quorum: nat, w: Work, sender: nat, receiver: nat, msgs: seq<Message>, p: Slot -> bool, x: Place)
    requires w.Valid() && (forall m | m in msgs :: p(m.slot)) && (forall d | d in w.decided :: p(d.slot))
    ensures var r := ProcessMessages(quorum, w, sender, receiver, msgs);
            && (forall m | m in r.out :: p(m.slot)) && (forall d | d in r.work.decided :: p(d.slot))
            && (!p(x.slot) && Blank(w.state, x) ==> Blank(r.work.state, x))
  {
    var quiet := !p(x.slot) && Blank(w.state, x);
    var inv := (v: Work, out: seq<Message>) =>
      (forall d | d in v.decided :: p(d.slot)) && (forall m | m in out :: p(m.slot)) && (quiet ==> Blank(v.state, x));
    forall v: Work, out: seq<Message>, m: Message {:trigger inv(v, out), Interpret(quorum, v, sender, receiver, m)}
      | v.Valid() && inv(v, out) && (m in msgs || m in out)
      ensures inv(Interpret(quorum, v, sender, receiver, m).work, out + Interpret(quorum, v, sender, receiver, m).out)
    {
      MessageExtends(quorum, v.state, v.cells, sender, receiver, m, x);
    }
    BatchKeeps(quorum, w, sender, receiver, msgs, inv);
  }

  ghost predicate About(p: Slot -> bool, out: seq<Message>) {
    forall m | m in out :: p(m.slot)
  }

  /** What `process` has so far: output and decisions are about slots in `p`. */
  ghost predicate ProgressAbout(p: Slot -> bool, q: Progress) {
    About(p, q.out) && forall d | d in q.decided :: p(d.slot)
  }

  lemma ProgressStep(cfg: Config, q: Progress, sender: nat, receiver: nat, msgs: seq<Message>, p: Slot -> bool, x: Place)
    requires cfg.nodes != [] && q.work.Valid() && ProgressAbout(p, q) && About(p, msgs)
    ensures var q' := Batch(cfg, q, sender, receiver, msgs);
            && ProgressAbout(p, q') && Extends(q.work.state, q'.work.state, x)
            && (!p(x.slot) && Blank(q.work.state, x) ==> Blank(q'.work.state, x))
  {
    BatchSlots(cfg.Quorum(), q.work.(decided := []), sender, receiver, msgs, p, x);
    BatchExtends(cfg.Quorum(), q.work.(decided := []), sender, receiver, msgs, x);
  }

  lemma {:induction false} ProgressSteps(cfg: Config, q: Progress, node: nat, deps: seq<BlockID>, p: Slot -> bool, x: Place)
    requires cfg.nodes != [] && q.work.Valid() && q.work.cells == q.graph.cells && ProgressAbout(p, q)
    requires forall d | d in deps && d in q.graph.statess :: About(p, q.graph.statess[d].out)
    ensures var q' := Batches(cfg, q, node, deps);
            && ProgressAbout(p, q') && Extends(q.work.state, q'.work.state, x)
            && (!p(x.slot) && Blank(q.work.state, x) ==> Blank(q'.work.state, x))
  {
    if deps != [] {
      var init, d := deps[..|deps| - 1], deps[|deps| - 1];
      ProgressSteps(cfg, q, node, init, p, x);
      BatchesSettle(cfg, q, node, init);
      var q1 := Batches(cfg, q, node, init);
      ProgressStep(cfg, q1, d.node, node, Output(q1.graph, d), p, x);
    }
  }

  lemma {:induction false} FireExtends(s: State, node: nat, ts: seq<Timeout>, p: Slot -> bool, x: Place)
    requires forall t | t in ts :: p(t.slot)
    ensures var f := FireAll(s, node, ts);
            && Extends(s, f.state, x) && About(p, f.out)
            && (!p(x.slot) && Blank(s, x) ==> Blank(f.state, x))
  {
    if ts != [] { FireExtends(s, node, ts[..|ts| - 1], p, x); }
  }

  /** Interpreting a block extends the state it starts from. */
  lemma BlockExtends(cfg: Config, g: Graph, e: Entry, fired: seq<Timeout>, p: Slot -> bool, x: Place)
    requires cfg.nodes != [] && CellsOk(g) && p(e.block.AsSlot()) && forall t | t in fired :: p(t.slot)
    requires forall d | d in e.deps && d in g.statess :: About(p, g.statess[d].out)
    ensures var q := Evaluate(cfg, g, e, fired);
            && ProgressAbout(p, q) && Extends(StartState(g, e.prev), q.work.state, x)
            && (!p(x.slot) && Blank(StartState(g, e.prev), x) ==> Blank(q.work.state, x))
  {
    FireExtends(StartState(g, e.prev), e.block.node, fired, p, x);
    var own := OwnMessages(e, FireAll(StartState(g, e.prev), e.block.node, fired));
    ProgressStep(cfg, Progress(g, StartWork(g, e, fired), own, []), e.block.node, e.block.node, own, p, x);
    OwnBatchSettles(cfg, g, e, fired);
    ProgressSteps(cfg, OwnBatch(cfg, g, e, fired), e.block.node, e.deps, p, x);
  }

  // ---------------------------------------------------------------------------
  // Runs.

  /** The slots that a history up to round `k` can speak of. */
  predicate Known(cfg: Config, k: nat, slot: Slot) {
    slot.node in cfg.nodes && slot.round <= k
  }

  /** A block's state and output concern rounds of its own history. */
  ghost predicate Informed(cfg: Config, dag: Dag, b: BlockID, s: State) {
    && b in dag.top
    && (forall m | m in s.out :: Known(cfg, dag.top[b], m.slot))
    && (forall x: Place | x.slot.round > dag.top[b] :: Blank(s, x))
  }

  ghost predicate Inherits(dag: Dag, log: map<BlockID, State>, b: BlockID, round: nat)
    requires b in dag.links && b in log
  {
    var prev := dag.links[b].prev;
    prev.Valid() ==> prev in log && forall x: Place | x.slot.round >= round :: Extends(log[prev], log[b], x)
  }

  ghost predicate ChainsOk(cfg: Config, dag: Dag, tr: Trace) {
    && (forall b | b in tr.log :: b in dag.links && Informed(cfg, dag, b, tr.log[b]))
    && (forall b | b in tr.log :: Inherits(dag, tr.log, b, tr.graph.round))
    && (forall d | d in tr.decided :: d.slot.node in cfg.nodes)
  }

  lemma StartExtends(cfg: Config, dag: Dag, tr: Trace, e: Entry, x: Place)
    requires DagValid(cfg, dag) && Pruning(dag, tr) && ChainsOk(cfg, dag, tr) && EntryOf(dag, e)
    requires forall l | l in LinksOf(dag, e.block) :: l in tr.log
    ensures e.prev.Valid() ==> e.prev in tr.log && (x.slot.round >= tr.graph.round ==> Extends(tr.log[e.prev], StartState(tr.graph, e.prev), x))
    ensures e.block in dag.top && (x.slot.round > dag.top[e.block] ==> Blank(StartState(tr.graph, e.prev), x))
  {
    assert BlockOk(cfg, dag, e.block);
    if e.prev.Valid() {
      assert e.prev in LinksOf(dag, e.block);
      assert Informed(cfg, dag, e.prev, tr.log[e.prev]);
    }
  }

  lemma DependenciesKnown(cfg: Config, dag: Dag, tr: Trace, e: Entry)
    requires DagValid(cfg, dag) && Pruning(dag, tr) && ChainsOk(cfg, dag, tr) && EntryOf(dag, e) && e.block in dag.top
    requires forall l | l in LinksOf(dag, e.block) :: l in tr.log
    ensures forall d | d in e.deps && d in tr.graph.statess :: About(slot => Known(cfg, dag.top[e.block], slot), tr.graph.statess[d].out)
  {
    assert BlockOk(cfg, dag, e.block);
    hide BoundsOk, Inherits, Blank, DagValid;
    forall d | d in e.deps && d in tr.graph.statess
      ensures About(slot => Known(cfg, dag.top[e.block], slot), tr.graph.statess[d].out)
    {
      assert d in tr.log && d in dag.links && d != NO_BLOCK;
      assert d in LinksOf(dag, e.block);
      assert Informed(cfg, dag, d, tr.log[d]);
    }
  }

  /** A block's own messages concern rounds of its own history. */
  lemma OwnKnown(cfg: Config, dag: Dag, tr: Trace, e: Entry, fired: seq<Timeout>)
    requires DagValid(cfg, dag) && MayInterpret(cfg, dag, tr, e, fired)
    ensures e.block in dag.top
    ensures About(slot => Known(cfg, dag.top[e.block], slot), OwnMessages(e, FireAll(StartState(tr.graph, e.prev), e.block.node, fired)))
  {
    assert BlockOk(cfg, dag, e.block);
    var k, s := dag.top[e.block], StartState(tr.graph, e.prev);
    hide DagValid, StartState, FireAll;
    FireExtends(s, e.block.node, fired, slot => Known(cfg, k, slot), Place(Slot(0, 0), [], 0));
  }

  /** What interpreting a block leaves at one place. */
  lemma InterpretAt(cfg: Config, dag: Dag, tr: Trace, e: Entry, fired: seq<Timeout>, x: Place)
    requires cfg.nodes != [] && DagValid(cfg, dag) && Pruning(dag, tr) && ChainsOk(cfg, dag, tr) && MayInterpret(cfg, dag, tr, e, fired)
    ensures e.block in dag.top
    ensures var q := Evaluate(cfg, tr.graph, e, fired);
            && ProgressAbout(slot => Known(cfg, dag.top[e.block], slot), q)
            && (x.slot.round > dag.top[e.block] ==> Blank(q.work.state, x))
            && (e.prev.Valid() ==> e.prev in tr.log && (x.slot.round >= tr.graph.round ==> Extends(tr.log[e.prev], q.work.state, x)))
  {
    assert BlockOk(cfg, dag, e.block);
    var p := (slot: Slot) => Known(cfg, dag.top[e.block], slot);
    DependenciesKnown(cfg, dag, tr, e);
    StartExtends(cfg, dag, tr, e, x);
    BlockExtends(cfg, tr.graph, e, fired, p, x);
  }

  lemma InterpretInforms(cfg: Config, dag: Dag, tr: Trace, e: Entry, fired: seq<Timeout>)
    requires cfg.nodes != [] && DagValid(cfg, dag) && Pruning(dag, tr) && ChainsOk(cfg, dag, tr) && MayInterpret(cfg, dag, tr, e, fired)
    ensures var q := Evaluate(cfg, tr.graph, e, fired);
            Informed(cfg, dag, e.block, q.work.state.(out := q.out)) && forall d | d in q.decided :: Known(cfg, dag.top[e.block], d.slot)
  {
    var q := Evaluate(cfg, tr.graph, e, fired);
    InterpretAt(cfg, dag, tr, e, fired, Place(e.block.AsSlot(), [], 0));
    forall x: Place | x.slot.round > dag.top[e.block] ensures Blank(q.work.state.(out := q.out), x) {
      InterpretAt(cfg, dag, tr, e, fired, x);
    }
  }

  lemma InterpretInherits(cfg: Config, dag: Dag, tr: Trace, e: Entry, fired: seq<Timeout>)
    requires cfg.nodes != [] && DagValid(cfg, dag) && Pruning(dag, tr) && ChainsOk(cfg, dag, tr) && MayInterpret(cfg, dag, tr, e, fired)
    ensures var q := Evaluate(cfg, tr.graph, e, fired);
            e.prev.Valid() ==> e.prev in tr.log && forall x: Place | x.slot.round >= tr.graph.round :: Extends(tr.log[e.prev], q.work.state.(out := q.out), x)
  {
    var q := Evaluate(cfg, tr.graph, e, fired);
    if e.prev.Valid() {
      InterpretAt(cfg, dag, tr, e, fired, Place(e.block.AsSlot(), [], 0));
      forall x: Place | x.slot.round >= tr.graph.round ensures Extends(tr.log[e.prev], q.work.state.(out := q.out), x) {
        InterpretAt(cfg, dag, tr, e, fired, x);
      }
    }
  }

  lemma StepChains(cfg: Config, dag: Dag, tr: Trace, step: Step)
    requires cfg.nodes != [] && DagValid(cfg, dag) && Pruning(dag, tr) && ChainsOk(cfg, dag, tr) && MayStep(cfg, dag, tr, step)
    ensures ChainsOk(cfg, dag, TakeStep(cfg, tr, step))
  {
    hide DagValid, Inherits, Informed, Evaluate, CellsOk, BoundsOk, StatesOk, LinksOf;
    match step
    case Admission(data) =>
    case Interpretation(e, fired) =>
      ProcessKeeps(cfg, tr.graph, e, fired);
      InterpretInforms(cfg, dag, tr, e, fired);
      InterpretInherits(cfg, dag, tr, e, fired);
      LogInherits(cfg, dag, tr, e, fired);
  }

  lemma LogInherits(cfg: Config, dag: Dag, tr: Trace, e: Entry, fired: seq<Timeout>)
    requires cfg.nodes != [] && DagValid(cfg, dag) && Pruning(dag, tr) && ChainsOk(cfg, dag, tr) && MayInterpret(cfg, dag, tr, e, fired)
    ensures var tr' := TakeStep(cfg, tr, Step.Interpretation(e, fired));
            forall b | b in tr'.log :: b in dag.links && Inherits(dag, tr'.log, b, tr'.graph.round)
  {
    hide DagValid, Evaluate, Extends, CellsOk, BoundsOk, StatesOk, LinksOf, Informed;
    var tr' := TakeStep(cfg, tr, Step.Interpretation(e, fired));
    ProcessKeeps(cfg, tr.graph, e, fired);
    InterpretInherits(cfg, dag, tr, e, fired);
    StepLog(cfg, tr, e, fired);
    assert tr'.graph.round >= tr.graph.round;
    hide TakeStep, Process;
    forall b | b in tr'.log ensures b in dag.links && Inherits(dag, tr'.log, b, tr'.graph.round) {
      if b != e.block { assert Inherits(dag, tr.log, b, tr.graph.round); }
    }
  }

  /** In every run, whatever is pruned. */
  lemma {:induction false} ChainsGrow(cfg: Config, dag: Dag, last: nat, past: set<BlockID>, steps: seq<Step>, tr: Trace)
    requires cfg.nodes != [] && DagValid(cfg, dag) && Run(cfg, dag, last, past, steps, tr)
    ensures ChainsOk(cfg, dag, tr)
  {
    if steps == [] {
      forall b | b in tr.log ensures b in dag.links && Informed(cfg, dag, b, tr.log[b]) && Inherits(dag, tr.log, b, tr.graph.round) {
        assert BlockOk(cfg, dag, b);
      }
    } else {
      var init, step := steps[..|steps| - 1], steps[|steps| - 1];
      var t0 :| Run(cfg, dag, last, past, init, t0) && CellsOk(t0.graph) && MayStep(cfg, dag, t0, step) && tr == TakeStep(cfg, t0, step);
      PruningIsSafe(cfg, dag, last, past, init, t0);
      ChainsGrow(cfg, dag, last, past, init, t0);
      StepChains(cfg, dag, t0, step);
    }
  }

  /** `a` is `b` or a predecessor of it on its chain. */
  ghost predicate OnChain(dag: Dag, a: BlockID, b: BlockID)
    decreases b.round
  {
    a == b || (b in dag.links && dag.links[b].prev.Valid() && dag.links[b].prev.round < b.round && OnChain(dag, a, dag.links[b].prev))
  }

  /** So any later block of a chain knows all that an earlier one did about what is
      still undelivered. */
  lemma {:induction false} ChainMonotone(cfg: Config, dag: Dag, tr: Trace, a: BlockID, b: BlockID, x: Place)
    requires ChainsOk(cfg, dag, tr) && a in tr.log && b in tr.log && OnChain(dag, a, b) && x.slot.round >= tr.graph.round
    ensures Extends(tr.log[a], tr.log[b], x)
    decreases b.round
  {
    if a != b {
      assert Inherits(dag, tr.log, b, tr.graph.round);
      var prev := dag.links[b].prev;
      assert Extends(tr.log[prev], tr.log[b], x);
      ChainMonotone(cfg, dag, tr, a, prev, x);
    }
  }
}

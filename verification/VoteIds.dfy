/** Which ids the interpreter counts votes of. The source makes room for as many ids as
    there are nodes, rounded up to words, and a vote of a larger id panics. */
module VoteIds {
  import opened Messages
  import opened Protocol
  import opened Worklist
  import opened Delivery
  import opened Interpreter
  import opened History
  import opened Chains
  import Bitsets
  import opened Sets

  // ---------------------------------------------------------------------------
  // Votes are of configured nodes.

  predicate Among(nodes: set<nat>, v: Votes) {
    v.prepares <= nodes && v.commits <= nodes
  }

  ghost predicate StateAmong(nodes: set<nat>, s: State) {
    forall b :: Among(nodes, s.VotesFor(b))
  }

  predicate SentAmong(nodes: set<nat>, m: Message) {
    m.PrePrepare? || m.sender in nodes
  }

  ghost predicate AllAmong(nodes: set<nat>, out: seq<Message>) {
    forall m | m in out :: SentAmong(nodes, m)
  }

  lemma SameVotes(nodes: set<nat>, s: State, s': State)
    requires StateAmong(nodes, s) && s'.bitsets == s.bitsets
    ensures StateAmong(nodes, s')
  {
    forall b ensures Among(nodes, s'.VotesFor(b)) { assert Among(nodes, s.VotesFor(b)); }
  }

  lemma AddsAmong(nodes: set<nat>, s: State, b: Ballot, ids: set<nat>, id: nat)
    requires StateAmong(nodes, s) && ids <= nodes && id in nodes
    ensures StateAmong(nodes, s.AddPrepares(b, ids)) && StateAmong(nodes, s.AddCommit(b, id))
  {
    assert Among(nodes, s.VotesFor(b));
    forall c ensures Among(nodes, s.AddPrepares(b, ids).VotesFor(c)) && Among(nodes, s.AddCommit(b, id).VotesFor(c)) {
      assert Among(nodes, s.VotesFor(c));
    }
  }

  ghost predicate OutcomeAmong(nodes: set<nat>, o: Outcome) {
    StateAmong(nodes, o.state) && (o.response.Some? ==> SentAmong(nodes, o.response.value))
  }

  lemma PrePrepareAmong(nodes: set<nat>, s: State, cells: seq<Cell>, sender: nat, receiver: nat, m: Message)
    requires StateAmong(nodes, s) && sender in nodes && receiver in nodes && m.PrePrepare?
    ensures OutcomeAmong(nodes, OnPrePrepare(s, cells, sender, receiver, m))
  {
    var b := Ballot(m.hash, m.slot, m.view);
    AddsAmong(nodes, s, b, {sender, receiver}, receiver);
    var s1 := s.AddPrepares(b, {sender, receiver});
    SameVotes(nodes, s1, s1.(prePrepared := s1.prePrepared[Key(m.slot, m.view) := m.hash]));
    hide StateAmong, State.AddPrepares, State.View;
  }

  lemma PrepareAmong(nodes: set<nat>, quorum: nat, s: State, cells: seq<Cell>, receiver: nat, m: Message)
    requires StateAmong(nodes, s) && receiver in nodes && m.Prepare? && SentAmong(nodes, m)
    ensures OutcomeAmong(nodes, OnPrepare(quorum, s, cells, receiver, m))
  {
    hide StateAmong, State.AddPrepares, State.AddCommit, State.View, State.VotesFor;
    var b := Ballot(m.hash, m.slot, m.view);
    AddsAmong(nodes, s, b, {m.sender}, receiver);
    var s1 := s.AddPrepares(b, {m.sender});
    AddsAmong(nodes, s1, b, {m.sender}, receiver);
    var s2 := s1.AddCommit(b, receiver);
    SameVotes(nodes, s2, s2.(prepared := s2.prepared[Key(m.slot, m.view) := m.hash]));
  }

  lemma CommitAmong(nodes: set<nat>, quorum: nat, s: State, cells: seq<Cell>, m: Message)
    requires StateAmong(nodes, s) && m.Commit? && SentAmong(nodes, m)
    ensures OutcomeAmong(nodes, OnCommit(quorum, s, cells, m))
  {
    hide StateAmong, State.AddPrepares, State.AddCommit, State.View, State.VotesFor;
    var b := Ballot(m.hash, m.slot, m.view);
    AddsAmong(nodes, s, b, {}, m.sender);
    var s1 := s.AddCommit(b, m.sender);
    SameVotes(nodes, s1, s1.(final := s1.final[m.slot := m.hash]));
  }

  lemma ViewChangeAmong(nodes: set<nat>, quorum: nat, s: State, cells: seq<Cell>, receiver: nat, m: Message)
    requires StateAmong(nodes, s) && CellsWellFormed(s, cells) && receiver in nodes && m.ViewChange?
    ensures OutcomeAmong(nodes, OnViewChange(quorum, s, cells, receiver, m))
  {
    SameVotes(nodes, s, OnViewChange(quorum, s, cells, receiver, m).state);
    hide StateAmong, Gathered, NonEmptyHashes, State.View, Answers, CellsWellFormed, Grows;
  }

  lemma NewViewAmong(nodes: set<nat>, s: State, cells: seq<Cell>, m: Message)
    requires StateAmong(nodes, s) && m.NewView?
    ensures OutcomeAmong(nodes, OnNewView(s, cells, m))
  {
    SameVotes(nodes, s, OnNewView(s, cells, m).state);
    hide StateAmong, State.View, Answers;
  }

  lemma MessageAmong(nodes: set<nat>, quorum: nat, s: State, cells: seq<Cell>, sender: nat, receiver: nat, m: Message)
    requires StateAmong(nodes, s) && CellsWellFormed(s, cells) && sender in nodes && receiver in nodes && SentAmong(nodes, m)
    ensures OutcomeAmong(nodes, ProcessMessage(quorum, s, cells, sender, receiver, m))
  {
    var s1 := WithView(s, m.slot);
    SameVotes(nodes, s, s1);
    assert CellsWellFormed(s1, cells);
    hide OutcomeAmong, StateAmong, WithView, CellsWellFormed, OnPrePrepare, OnPrepare, OnCommit, OnViewChange, OnNewView, Answers, Grows;
    match m
    case PrePrepare(_, _, _) => PrePrepareAmong(nodes, s1, cells, sender, receiver, m);
    case Prepare(_, _, _, _) => PrepareAmong(nodes, quorum, s1, cells, receiver, m);
    case Commit(_, _, _, _) => CommitAmong(nodes, quorum, s1, cells, m);
    case ViewChange(_, _, _, _) => ViewChangeAmong(nodes, quorum, s1, cells, receiver, m);
    case NewView(_, _, _, _) => NewViewAmong(nodes, s1, cells, m);
  }

  lemma BatchAmong(nodes: set<nat>, quorum: nat, w: Work, sender: nat, receiver: nat, msgs: seq<Message>)
    requires w.Valid() && StateAmong(nodes, w.state) && sender in nodes && receiver in nodes && AllAmong(nodes, msgs)
    ensures var r := ProcessMessages(quorum, w, sender, receiver, msgs); StateAmong(nodes, r.work.state) && AllAmong(nodes, r.out)
  {
    var inv := (v: Work, out: seq<Message>) => StateAmong(nodes, v.state) && AllAmong(nodes, out);
    forall v: Work, out: seq<Message>, m: Message {:trigger inv(v, out), Interpret(quorum, v, sender, receiver, m)}
      | v.Valid() && inv(v, out) && (m in msgs || m in out)
      ensures inv(Interpret(quorum, v, sender, receiver, m).work, out + Interpret(quorum, v, sender, receiver, m).out)
    {
      MessageAmong(nodes, quorum, v.state, v.cells, sender, receiver, m);
    }
    BatchKeeps(quorum, w, sender, receiver, msgs, inv);
  }

  // ---------------------------------------------------------------------------
  // Blocks and runs.

  ghost predicate ProgressAmong(nodes: set<nat>, p: Progress) {
    StateAmong(nodes, p.work.state) && AllAmong(nodes, p.out)
  }

  ghost predicate GraphAmong(nodes: set<nat>, g: Graph) {
    forall b | b in g.statess :: b.node in nodes && StateAmong(nodes, g.statess[b]) && AllAmong(nodes, g.statess[b].out)
  }

  lemma StepAmong(cfg: Config, nodes: set<nat>, p: Progress, sender: nat, receiver: nat, msgs: seq<Message>)
    requires cfg.nodes != [] && p.work.Valid() && ProgressAmong(nodes, p) && receiver in nodes && AllAmong(nodes, msgs) && (msgs != [] ==> sender in nodes)
    ensures ProgressAmong(nodes, Batch(cfg, p, sender, receiver, msgs))
  {
    hide StateAmong;
    if p.graph.status.Running? {
      var w := p.work.(decided := []);
      if msgs != [] {
        BatchAmong(nodes, cfg.Quorum(), w, sender, receiver, msgs);
      } else {
        assert ProcessMessages(cfg.Quorum(), w, sender, receiver, []) == Reply(w, []);
      }
      hide ProcessMessages;
    }
  }

  lemma {:induction false} StepsAmong(cfg: Config, nodes: set<nat>, p: Progress, node: nat, deps: seq<BlockID>)
    requires cfg.nodes != [] && p.work.Valid() && p.work.cells == p.graph.cells && ProgressAmong(nodes, p) && node in nodes && GraphAmong(nodes, p.graph)
    ensures ProgressAmong(nodes, Batches(cfg, p, node, deps))
  {
    if deps != [] {
      hide ProgressAmong, StateAmong;
      var init, d := deps[..|deps| - 1], deps[|deps| - 1];
      StepsAmong(cfg, nodes, p, node, init);
      BatchesSettle(cfg, p, node, init);
      var p1 := Batches(cfg, p, node, init);
      StepAmong(cfg, nodes, p1, d.node, node, Output(p1.graph, d));
    }
  }

  lemma {:induction false} FireAmong(nodes: set<nat>, s: State, node: nat, fired: seq<Timeout>)
    requires node in nodes
    ensures var f := FireAll(s, node, fired); f.state.bitsets == s.bitsets && AllAmong(nodes, f.out)
  {
    if fired != [] { FireAmong(nodes, s, node, fired[..|fired| - 1]); }
  }

  lemma StartAmong(nodes: set<nat>, g: Graph, prev: BlockID)
    requires GraphAmong(nodes, g)
    ensures StateAmong(nodes, StartState(g, prev))
  {
    if prev in g.statess {
      assert StateAmong(nodes, g.statess[prev]);
      forall b ensures Among(nodes, g.statess[prev].Clone(g.round).VotesFor(b)) { assert Among(nodes, g.statess[prev].VotesFor(b)); }
    }
  }

  lemma EvaluateAmong(cfg: Config, nodes: set<nat>, g: Graph, e: Entry, fired: seq<Timeout>)
    requires cfg.nodes != [] && CellsOk(g) && GraphAmong(nodes, g) && e.block.node in nodes
    ensures ProgressAmong(nodes, Evaluate(cfg, g, e, fired))
  {
    var s0 := StartState(g, e.prev);
    StartAmong(nodes, g, e.prev);
    FireAmong(nodes, s0, e.block.node, fired);
    var f := FireAll(s0, e.block.node, fired);
    SameVotes(nodes, s0, f.state);
    var own := OwnMessages(e, f);
    var p0 := Progress(g, StartWork(g, e, fired), own, []);
    assert ProgressAmong(nodes, p0) && AllAmong(nodes, own);
    OwnBatchSettles(cfg, g, e, fired);
    assert GraphAmong(nodes, OwnBatch(cfg, g, e, fired).graph);
    hide ProgressAmong, GraphAmong, AllAmong, StateAmong, StartState, FireAll, CellsOk;
    StepAmong(cfg, nodes, p0, e.block.node, e.block.node, own);
    StepsAmong(cfg, nodes, OwnBatch(cfg, g, e, fired), e.block.node, e.deps);
  }

  lemma TakeStepAmong(cfg: Config, nodes: set<nat>, tr: Trace, step: Step)
    requires cfg.nodes != [] && CellsOk(tr.graph) && GraphAmong(nodes, tr.graph) && (step.Interpretation? ==> step.entry.block.node in nodes)
    ensures GraphAmong(nodes, TakeStep(cfg, tr, step).graph)
  {
    if step.Interpretation? {
      var e, fired := step.entry, step.fired;
      EvaluateAmong(cfg, nodes, tr.graph, e, fired);
      var q := Evaluate(cfg, tr.graph, e, fired);
      SameVotes(nodes, q.work.state, q.work.state.(out := q.out));
      hide AllAmong, StateAmong, CellsOk, OwnBatch, Batches;
      OwnBatchSettles(cfg, tr.graph, e, fired);
      BatchesSettle(cfg, OwnBatch(cfg, tr.graph, e, fired), e.block.node, e.deps);
    }
  }

  lemma {:induction false} RunAmong(cfg: Config, dag: Dag, last: nat, past: set<BlockID>, steps: seq<Step>, tr: Trace)
    requires cfg.nodes != [] && DagValid(cfg, dag) && Run(cfg, dag, last, past, steps, tr)
    ensures GraphAmong(Elements(cfg.nodes), tr.graph)
  {
    if steps != [] {
      var init, step := steps[..|steps| - 1], steps[|steps| - 1];
      hide GraphAmong, TakeStep, CellsOk;
      var t0 :| Run(cfg, dag, last, past, init, t0) && CellsOk(t0.graph) && MayStep(cfg, dag, t0, step) && tr == TakeStep(cfg, t0, step);
      hide Run;
      RunAmong(cfg, dag, last, past, init, t0);
      if step.Interpretation? { assert BlockOk(cfg, dag, step.entry.block); }
      TakeStepAmong(cfg, Elements(cfg.nodes), t0, step);
    }
  }

  // ---------------------------------------------------------------------------
  // A node's first block counts a vote of its own.

  function OwnProposal(p: nat): Message {
    PrePrepare([1], Slot(p, 1), 0)
  }

  ghost predicate OwnCounted(p: nat, w: Work, out: seq<Message>) {
    && (if w.processed == {} then w.state == FRESH && !w.fatal && out == [] else OwnProposal(p) in w.processed)
    && (OwnProposal(p) in w.processed ==> p in w.state.VotesFor(Ballot([1], Slot(p, 1), 0)).prepares)
  }

  lemma FirstVote(quorum: nat, w: Work, p: nat)
    requires w.Valid() && w.processed == {} && w.state == FRESH && !w.fatal
    ensures p in Interpret(quorum, w, p, p, OwnProposal(p)).work.state.VotesFor(Ballot([1], Slot(p, 1), 0)).prepares
  {
  }

  lemma StillCounted(quorum: nat, w: Work, p: nat, m: Message)
    requires w.Valid() && p in w.state.VotesFor(Ballot([1], Slot(p, 1), 0)).prepares
    ensures p in Interpret(quorum, w, p, p, m).work.state.VotesFor(Ballot([1], Slot(p, 1), 0)).prepares
  {
    MessageExtends(quorum, w.state, w.cells, p, p, m, Place(Slot(p, 1), [1], 0));
    hide ProcessMessage, State.VotesFor;
  }

  lemma BatchCountsOwn(quorum: nat, p: nat)
    ensures var w := Work(FRESH, [], {}, [], false);
            w.Valid() && p in ProcessMessages(quorum, w, p, p, [OwnProposal(p)]).work.state.VotesFor(Ballot([1], Slot(p, 1), 0)).prepares
  {
    var w, msgs := Work(FRESH, [], {}, [], false), [OwnProposal(p)];
    var inv := (v: Work, out: seq<Message>) => OwnCounted(p, v, out);
    forall v: Work, out: seq<Message>, m: Message {:trigger inv(v, out), Interpret(quorum, v, p, p, m)}
      | v.Valid() && inv(v, out) && (m in msgs || m in out)
      ensures inv(Interpret(quorum, v, p, p, m).work, out + Interpret(quorum, v, p, p, m).out)
    {
      if v.processed == {} { FirstVote(quorum, v, p); } else { StillCounted(quorum, v, p, m); }
      hide ProcessMessage, State.VotesFor;
    }
    BatchKeeps(quorum, w, p, p, msgs, inv);
    BatchProcessesFirst(quorum, w, p, msgs);
    hide ProcessMessages;
  }

  lemma BatchProcessesFirst(quorum: nat, w: Work, p: nat, msgs: seq<Message>)
    requires w.Valid() && !w.fatal && w.processed == {} && msgs != []
    ensures ProcessMessages(quorum, w, p, p, msgs).work.processed != {}
  {
    var first := Interpret(quorum, w, p, p, msgs[0]);
    assert msgs[0] in first.work.processed;
    SweepProcesses(quorum, first.work, p, p, msgs[1..]);
    var swept := Sweep(quorum, w, p, p, msgs);
    DrainProcesses(quorum, swept.work, p, p, swept.out);
  }

  // ---------------------------------------------------------------------------
  // The ids that are counted are exactly those of the configured nodes.

  predicate Counts(s: State, b: Ballot, id: nat) {
    id in s.VotesFor(b).prepares || id in s.VotesFor(b).commits
  }

  /** A vote of `id` is counted when `e` is interpreted after some run. */
  ghost predicate CountedAfter(cfg: Config, dag: Dag, steps: seq<Step>, tr: Trace, e: Entry, fired: seq<Timeout>, b: Ballot, id: nat)
    requires cfg.nodes != []
  {
    && DagValid(cfg, dag) && (exists last: nat, past: set<BlockID> :: Run(cfg, dag, last, past, steps, tr))
    && CellsOk(tr.graph) && MayStep(cfg, dag, tr, Interpretation(e, fired)) && Counts(Evaluate(cfg, tr.graph, e, fired).work.state, b, id)
  }

  ghost predicate Counted(cfg: Config, id: nat)
    requires cfg.nodes != []
  {
    exists dag: Dag, steps: seq<Step>, tr: Trace, e: Entry, fired: seq<Timeout>, b: Ballot :: CountedAfter(cfg, dag, steps, tr, e, fired, b, id)
  }

  lemma CountedBy(cfg: Config, dag: Dag, last: nat, past: set<BlockID>, steps: seq<Step>, tr: Trace, e: Entry, fired: seq<Timeout>, b: Ballot, id: nat)
    requires cfg.nodes != [] && DagValid(cfg, dag) && Run(cfg, dag, last, past, steps, tr)
    requires CellsOk(tr.graph) && MayStep(cfg, dag, tr, Interpretation(e, fired)) && Counts(Evaluate(cfg, tr.graph, e, fired).work.state, b, id)
    ensures Counted(cfg, id)
  {
    hide DagValid, Run, CellsOk, MayStep, Counts, Evaluate;
    assert CountedAfter(cfg, dag, steps, tr, e, fired, b, id);
  }

  lemma CountedConfigured(cfg: Config, dag: Dag, steps: seq<Step>, tr: Trace, e: Entry, fired: seq<Timeout>, b: Ballot, id: nat)
    requires cfg.nodes != [] && CountedAfter(cfg, dag, steps, tr, e, fired, b, id)
    ensures id in cfg.nodes
  {
    var last: nat, past: set<BlockID> :| Run(cfg, dag, last, past, steps, tr);
    assert BlockOk(cfg, dag, e.block);
    hide Run, DagValid, GraphAmong, CellsOk, Evaluate, BlockOk;
    RunAmong(cfg, dag, last, past, steps, tr);
    EvaluateAmong(cfg, Elements(cfg.nodes), tr.graph, e, fired);
    assert Among(Elements(cfg.nodes), Evaluate(cfg, tr.graph, e, fired).work.state.VotesFor(b));
  }

  function Alone(p: nat): Dag {
    var b := BlockID([1], p, 1);
    Dag(map[b := Links(NO_BLOCK, [])], map[b := 1])
  }

  lemma AloneValid(cfg: Config, p: nat)
    requires p in cfg.nodes
    ensures DagValid(cfg, Alone(p))
  {
    var b := BlockID([1], p, 1);
    assert LinksOf(Alone(p), b) == [];
  }

  function AloneAdmitted(p: nat): Trace {
    Trace(Admit(Initial(0), BlockGraph(BlockID([1], p, 1), [], NO_BLOCK)), {BlockID([1], p, 1)}, map[], [])
  }

  lemma AloneRun(cfg: Config, p: nat)
    requires p in cfg.nodes
    ensures Run(cfg, Alone(p), 0, {}, [Admission(BlockGraph(BlockID([1], p, 1), [], NO_BLOCK))], AloneAdmitted(p))
  {
    var data := BlockGraph(BlockID([1], p, 1), [], NO_BLOCK);
    var steps, t0 := [Admission(data)], Start(0, {});
    assert steps[..0] == [] && Run(cfg, Alone(p), 0, {}, [], t0) && CellsOk(t0.graph);
    assert Alone(p).links[data.block].refs == seq(|data.deps|, i requires 0 <= i < |data.deps| => data.deps[i].block);
    assert MayStep(cfg, Alone(p), t0, Admission(data));
    assert TakeStep(cfg, t0, Admission(data)) == AloneAdmitted(p) by {
      assert Blocks([]) == {} && {} + Blocks([]) + {data.block} == {data.block};
    }
  }

  lemma AloneWork(cfg: Config, p: nat)
    requires p in cfg.nodes
    ensures CellsOk(AloneAdmitted(p).graph)
    ensures Evaluate(cfg, AloneAdmitted(p).graph, Entry(BlockID([1], p, 1), NO_BLOCK, []), []).work ==
            ProcessMessages(cfg.Quorum(), Work(FRESH, [], {}, [], false), p, p, [OwnProposal(p)]).work
  {
    hide ProcessMessages, Settle;
    var e, g := Entry(BlockID([1], p, 1), NO_BLOCK, []), AloneAdmitted(p).graph;
    assert g.statess == map[] && g.cells == [] && g.status.Running?;
    hide AloneAdmitted;
    assert OwnMessages(e, FireAll(StartState(g, e.prev), p, [])) == [OwnProposal(p)];
  }

  lemma AloneMay(cfg: Config, p: nat)
    requires p in cfg.nodes
    ensures MayStep(cfg, Alone(p), AloneAdmitted(p), Interpretation(Entry(BlockID([1], p, 1), NO_BLOCK, []), []))
  {
    assert LinksOf(Alone(p), BlockID([1], p, 1)) == [];
  }

  lemma AloneCounts(cfg: Config, p: nat)
    requires p in cfg.nodes
    ensures Counted(cfg, p)
  {
    var e, b, tr := Entry(BlockID([1], p, 1), NO_BLOCK, []), Ballot([1], Slot(p, 1), 0), AloneAdmitted(p);
    var steps := [Admission(BlockGraph(BlockID([1], p, 1), [], NO_BLOCK))];
    hide Run, DagValid, ProcessMessages, Evaluate, MayStep, AloneAdmitted, CellsOk, Alone, OwnProposal, Counted;
    AloneValid(cfg, p);
    AloneRun(cfg, p);
    BatchCountsOwn(cfg.Quorum(), p);
    AloneWork(cfg, p);
    AloneMay(cfg, p);
    hide State.VotesFor;
    assert Run(cfg, Alone(p), 0, {}, steps, tr) && Counts(Evaluate(cfg, tr.graph, e, []).work.state, b, p);
    CountedBy(cfg, Alone(p), 0, {}, steps, tr, e, [], b, p);
  }

  lemma CountedExactly(cfg: Config, id: nat)
    requires cfg.nodes != []
    ensures Counted(cfg, id) <==> id in cfg.nodes
  {
    if Counted(cfg, id) {
      var dag: Dag, steps: seq<Step>, tr: Trace, e: Entry, fired: seq<Timeout>, b: Ballot :| CountedAfter(cfg, dag, steps, tr, e, fired, b, id);
      CountedConfigured(cfg, dag, steps, tr, e, fired, b, id);
    }
    if id in cfg.nodes { AloneCounts(cfg, id); }
  }

  /** Counting votes never panics if and only if the ids of the nodes are below their
      number rounded up to a multiple of 64. */
  lemma NoPanicExactly(cfg: Config)
    requires cfg.nodes != []
    ensures (forall id: nat | Counted(cfg, id) :: id < Bitsets.Room(|cfg.nodes|)) <==> (forall p | p in cfg.nodes :: p < Bitsets.Room(|cfg.nodes|))
  {
    hide Counted;
    forall id: nat ensures Counted(cfg, id) <==> id in cfg.nodes { CountedExactly(cfg, id); }
  }

  /** Four nodes, one of them with an id of a larger network. */
  lemma PanicsForExample()
    ensures Counted(Config([1, 2, 3, 64]), 64) && 64 >= Bitsets.Room(4)
  {
    CountedExactly(Config([1, 2, 3, 64]), 64);
  }
}

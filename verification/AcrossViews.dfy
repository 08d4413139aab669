/** Agreement over views 0 and 1 within one run: once a state holds a commit quorum
    of view 0, nothing else is ever newly viewed, voted for in view 1, or decided. */
module AcrossViews {
  import opened Messages
  import opened Protocol
  import opened Worklist
  import opened Delivery
  import opened Interpreter
  import opened History
  import opened Agreement
  import opened Chains
  import opened HandOver

  /** The votes to leave view 0 of a slot, each quorum of which names one hash. */
  datatype Voucher = Voucher(slot: Slot, quorum: nat, cast: set<Vote>, hash: Hash) {
    ghost predicate Decisive() {
      forall votes: map<nat, Hash> | |votes| >= quorum && AllCast(votes, cast) :: NonEmptyHashes(votes) == {hash}
    }
  }

  /** Beyond view 0 only the hash of the voucher is spoken of. */
  predicate MessageVouched(v: Voucher, m: Message) {
    m.slot == v.slot ==>
      match m
      case PrePrepare(h, _, view) => view >= 1 ==> h == v.hash
      case Prepare(h, _, _, view) => view >= 1 ==> h == v.hash
      case Commit(h, _, _, view) => view >= 1 ==> h == v.hash
      case ViewChange(h, _, p, _) => Vote(p, h) in v.cast
      case NewView(h, _, _, _) => h == v.hash
  }

  predicate AllVouched(v: Voucher, msgs: seq<Message>) {
    forall m | m in msgs :: MessageVouched(v, m)
  }

  predicate CellsVouched(v: Voucher, cells: seq<Cell>) {
    forall c | c in cells && c.key.slot == v.slot :: AllCast(c.votes, v.cast)
  }

  /** A decision is for the hash of the voucher, or rests on commits of view 0. */
  predicate StateVouched(v: Voucher, s: State) {
    v.slot in s.final ==> s.final[v.slot] == v.hash || s.VotesFor(Ballot(s.final[v.slot], v.slot, 0)).commits != {}
  }

  predicate DecidedHere(slot: Slot, s: State, decided: seq<Decision>) {
    forall d | d in decided && d.slot == slot :: slot in s.final && s.final[slot] == d.hash
  }

  // ---------------------------------------------------------------------------
  // One message.

  lemma GatheredCast(v: Voucher, s: State, cells: seq<Cell>, m: Message)
    requires CellsWellFormed(s, cells) && CellsVouched(v, cells) && MessageVouched(v, m) && m.ViewChange? && m.slot == v.slot
    ensures AllCast(Gathered(s, cells, m), v.cast)
  {
    var key := Key(m.slot, s.View(m.slot));
    if key in s.viewChanged {
      assert cells[s.viewChanged[key]] in cells;
    }
  }

  lemma ViewChangeCells(quorum: nat, s: State, cells: seq<Cell>, receiver: nat, m: Message, c: Cell)
    requires CellsWellFormed(s, cells) && m.ViewChange? && c in OnViewChange(quorum, s, cells, receiver, m).cells
    ensures c in cells || c == Cell(Key(m.slot, s.View(m.slot)), Gathered(s, cells, m))
  {
    hide NonEmptyHashes, Gathered;
  }

  /** The votes in hand after a view change were all cast. */
  lemma CellsStayVouched(v: Voucher, s: State, cells: seq<Cell>, receiver: nat, m: Message)
    requires CellsWellFormed(s, cells) && CellsVouched(v, cells) && MessageVouched(v, m) && m.ViewChange?
    ensures CellsVouched(v, OnViewChange(v.quorum, s, cells, receiver, m).cells)
  {
    if m.slot == v.slot { GatheredCast(v, s, cells, m); }
    hide AllCast, MessageVouched, OnViewChange, Gathered;
    var o := OnViewChange(v.quorum, s, cells, receiver, m);
    forall c | c in o.cells && c.key.slot == v.slot ensures AllCast(c.votes, v.cast) {
      ViewChangeCells(v.quorum, s, cells, receiver, m, c);
    }
  }

  lemma OneHashGathered(v: Voucher, s: State, cells: seq<Cell>, m: Message)
    requires v.Decisive() && CellsWellFormed(s, cells) && CellsVouched(v, cells) && MessageVouched(v, m) && m.ViewChange? && m.slot == v.slot
    ensures |Gathered(s, cells, m)| >= v.quorum ==> NonEmptyHashes(Gathered(s, cells, m)) == {v.hash}
  {
    GatheredCast(v, s, cells, m);
    hide Gathered, CellsVouched, CellsWellFormed;
  }

  lemma ViewChangeVouched(v: Voucher, s: State, cells: seq<Cell>, receiver: nat, m: Message)
    requires v.Decisive() && CellsWellFormed(s, cells) && CellsVouched(v, cells) && MessageVouched(v, m) && m.ViewChange?
    ensures var o := OnViewChange(v.quorum, s, cells, receiver, m);
            && CellsVouched(v, o.cells) && (o.response.Some? ==> MessageVouched(v, o.response.value))
            && (m.slot == v.slot ==> !o.fatal)
  {
    hide Voucher.Decisive, AllCast, NonEmptyHashes, CellsVouched, CellsWellFormed, Gathered, State.View, Answers, Grows;
    CellsStayVouched(v, s, cells, receiver, m);
    if m.slot == v.slot { OneHashGathered(v, s, cells, m); }
  }

  ghost predicate OutcomeVouched(v: Voucher, o: Outcome) {
    StateVouched(v, o.state) && (o.response.Some? ==> MessageVouched(v, o.response.value))
  }

  lemma PrePrepareVouched(v: Voucher, s: State, cells: seq<Cell>, sender: nat, receiver: nat, m: Message)
    requires StateVouched(v, s) && MessageVouched(v, m) && m.PrePrepare?
    ensures OutcomeVouched(v, OnPrePrepare(s, cells, sender, receiver, m))
  {
  }

  lemma VotesVouched(v: Voucher, s: State, b: Ballot, ids: set<nat>, id: nat)
    requires StateVouched(v, s)
    ensures StateVouched(v, s.AddPrepares(b, ids)) && StateVouched(v, s.AddCommit(b, id))
  {
    if v.slot in s.final && s.final[v.slot] != v.hash {
      var at := Ballot(s.final[v.slot], v.slot, 0);
      assert s.VotesFor(at).commits <= s.AddCommit(b, id).VotesFor(at).commits;
    }
  }

  lemma PrepareVouched(v: Voucher, s: State, cells: seq<Cell>, receiver: nat, m: Message)
    requires StateVouched(v, s) && MessageVouched(v, m) && m.Prepare?
    ensures OutcomeVouched(v, OnPrepare(v.quorum, s, cells, receiver, m))
  {
    var ballot := Ballot(m.hash, m.slot, m.view);
    VotesVouched(v, s, ballot, {m.sender}, receiver);
    var s1 := s.AddPrepares(ballot, {m.sender});
    VotesVouched(v, s1, ballot, {}, receiver);
    var s2 := s1.AddCommit(ballot, receiver);
    assert StateVouched(v, s2.(prepared := s2.prepared[Key(m.slot, m.view) := m.hash]));
    hide StateVouched;
  }

  lemma CommitVouched(v: Voucher, s: State, cells: seq<Cell>, m: Message)
    requires StateVouched(v, s) && MessageVouched(v, m) && m.Commit?
    ensures OutcomeVouched(v, OnCommit(v.quorum, s, cells, m))
  {
    assert m.sender in s.AddCommit(Ballot(m.hash, m.slot, m.view), m.sender).VotesFor(Ballot(m.hash, m.slot, m.view)).commits;
  }

  lemma ProcessVouched(v: Voucher, s: State, cells: seq<Cell>, sender: nat, receiver: nat, m: Message)
    requires v.Decisive() && CellsWellFormed(s, cells) && CellsVouched(v, cells) && StateVouched(v, s) && MessageVouched(v, m)
    ensures var o := ProcessMessage(v.quorum, s, cells, sender, receiver, m);
            CellsVouched(v, o.cells) && OutcomeVouched(v, o) && (m.slot == v.slot ==> !o.fatal)
  {
    var s1 := WithView(s, m.slot);
    assert StateVouched(v, s1);
    assert m.NewView? ==> OutcomeVouched(v, OnNewView(s1, cells, m));
    hide OutcomeVouched, StateVouched, CellsVouched, MessageVouched, Voucher.Decisive, OnPrePrepare, OnPrepare, OnCommit, OnViewChange;
    match m
    case PrePrepare(_, _, _) => PrePrepareVouched(v, s1, cells, sender, receiver, m);
    case Prepare(_, _, _, _) => PrepareVouched(v, s1, cells, receiver, m);
    case Commit(_, _, _, _) => CommitVouched(v, s1, cells, m);
    case ViewChange(_, _, _, _) => ViewChangeVouched(v, s1, cells, receiver, m);
    case NewView(_, _, _, _) =>
  }

  lemma PrePrepareLeavesFinal(s: State, cells: seq<Cell>, sender: nat, receiver: nat, m: Message)
    requires m.PrePrepare?
    ensures OnPrePrepare(s, cells, sender, receiver, m).state.final == s.final && OnPrePrepare(s, cells, sender, receiver, m).decided.None?
  {
    hide Answers, State.View, State.VotesFor;
  }

  lemma PrepareLeavesFinal(quorum: nat, s: State, cells: seq<Cell>, receiver: nat, m: Message)
    requires m.Prepare?
    ensures OnPrepare(quorum, s, cells, receiver, m).state.final == s.final && OnPrepare(quorum, s, cells, receiver, m).decided.None?
  {
    hide Answers, State.View, State.VotesFor;
  }

  lemma CommitFinal(quorum: nat, s: State, cells: seq<Cell>, m: Message)
    requires m.Commit?
    ensures var o := OnCommit(quorum, s, cells, m);
            && (forall x | x in s.final :: x in o.state.final && o.state.final[x] == s.final[x])
            && (o.decided.Some? ==> m.slot in o.state.final && o.state.final[m.slot] == o.decided.value)
  {
    hide Answers, State.View, State.VotesFor;
  }

  /** A decision enters `final`, which is never overwritten. */
  lemma FinalStays(quorum: nat, s: State, cells: seq<Cell>, sender: nat, receiver: nat, m: Message)
    requires CellsWellFormed(s, cells)
    ensures var o := ProcessMessage(quorum, s, cells, sender, receiver, m);
            && (forall x | x in s.final :: x in o.state.final && o.state.final[x] == s.final[x])
            && (o.decided.Some? ==> m.slot in o.state.final && o.state.final[m.slot] == o.decided.value)
  {
    var s1 := WithView(s, m.slot);
    assert s1.final == s.final;
    if m.PrePrepare? { PrePrepareLeavesFinal(s1, cells, sender, receiver, m); }
    if m.Prepare? { PrepareLeavesFinal(quorum, s1, cells, receiver, m); }
    if m.Commit? { CommitFinal(quorum, s1, cells, m); }
    if m.ViewChange? { assert OnViewChange(quorum, s1, cells, receiver, m).state.final == s1.final && OnViewChange(quorum, s1, cells, receiver, m).decided.None?; }
    if m.NewView? { assert OnNewView(s1, cells, m).state.final == s1.final && OnNewView(s1, cells, m).decided.None?; }
    hide OnPrePrepare, OnPrepare, OnCommit, OnViewChange, OnNewView, WithView;
  }

  lemma DecisionsStay(slot: Slot, quorum: nat, w: Work, sender: nat, receiver: nat, m: Message)
    requires w.Valid() && DecidedHere(slot, w.state, w.decided)
    ensures var r := Interpret(quorum, w, sender, receiver, m); DecidedHere(slot, r.work.state, r.work.decided)
  {
    FinalStays(quorum, w.state, w.cells, sender, receiver, m);
    hide ProcessMessage;
  }

  // ---------------------------------------------------------------------------
  // One batch, and one block.

  ghost predicate WorkVouched(v: Voucher, w: Work, out: seq<Message>) {
    CellsVouched(v, w.cells) && StateVouched(v, w.state) && DecidedHere(v.slot, w.state, w.decided) && AllVouched(v, out)
  }

  lemma InterpretVouched(v: Voucher, w: Work, sender: nat, receiver: nat, m: Message, out: seq<Message>)
    requires v.Decisive() && w.Valid() && WorkVouched(v, w, out) && MessageVouched(v, m)
    ensures var r := Interpret(v.quorum, w, sender, receiver, m); WorkVouched(v, r.work, out + r.out)
  {
    DecisionsStay(v.slot, v.quorum, w, sender, receiver, m);
    if !(w.fatal || m in w.processed) {
      ProcessVouched(v, w.state, w.cells, sender, receiver, m);
    }
  }

  lemma BatchVouched(v: Voucher, w: Work, sender: nat, receiver: nat, msgs: seq<Message>)
    requires v.Decisive() && w.Valid() && WorkVouched(v, w, []) && AllVouched(v, msgs)
    ensures var r := ProcessMessages(v.quorum, w, sender, receiver, msgs); WorkVouched(v, r.work, r.out)
  {
    var inv := (x: Work, out: seq<Message>) => WorkVouched(v, x, out);
    forall x: Work, out: seq<Message>, m: Message {:trigger inv(x, out), Interpret(v.quorum, x, sender, receiver, m)}
      | x.Valid() && inv(x, out) && (m in msgs || m in out)
      ensures inv(Interpret(v.quorum, x, sender, receiver, m).work, out + Interpret(v.quorum, x, sender, receiver, m).out)
    {
      assert MessageVouched(v, m);
      InterpretVouched(v, x, sender, receiver, m, out);
    }
    BatchKeeps(v.quorum, w, sender, receiver, msgs, inv);
  }

  ghost predicate ProgressVouched(v: Voucher, p: Progress) {
    WorkVouched(v, p.work, p.out) && DecidedHere(v.slot, p.work.state, p.decided)
  }

  lemma StepVouched(cfg: Config, v: Voucher, p: Progress, sender: nat, receiver: nat, msgs: seq<Message>)
    requires cfg.nodes != [] && v.quorum == cfg.Quorum() && v.Decisive()
    requires p.work.Valid() && ProgressVouched(v, p) && AllVouched(v, msgs)
    ensures ProgressVouched(v, Batch(cfg, p, sender, receiver, msgs))
  {
    if p.graph.status.Running? {
      var w := p.work.(decided := []);
      BatchVouched(v, w, sender, receiver, msgs);
      BatchExtends(cfg.Quorum(), w, sender, receiver, msgs, Place(v.slot, [], 0));
    }
  }

  lemma {:induction false} StepsVouched(cfg: Config, v: Voucher, p: Progress, node: nat, deps: seq<BlockID>)
    requires cfg.nodes != [] && v.quorum == cfg.Quorum() && v.Decisive()
    requires p.work.Valid() && p.work.cells == p.graph.cells && ProgressVouched(v, p)
    requires forall d | d in deps && d in p.graph.statess :: AllVouched(v, p.graph.statess[d].out)
    ensures ProgressVouched(v, Batches(cfg, p, node, deps))
  {
    if deps != [] {
      var init, d := deps[..|deps| - 1], deps[|deps| - 1];
      StepsVouched(cfg, v, p, node, init);
      BatchesSettle(cfg, p, node, init);
      var p1 := Batches(cfg, p, node, init);
      StepVouched(cfg, v, p1, d.node, node, Output(p1.graph, d));
    }
  }

  /** Timers for the slot expire only while its chain is in view 0. */
  predicate FirstChanges(slot: Slot, fired: seq<Timeout>) {
    forall x | x in fired && x.slot == slot :: x.view == 0
  }

  lemma {:induction false} FireChanges(s: State, node: nat, ts: seq<Timeout>, slot: Slot)
    requires FirstChanges(slot, ts)
    ensures forall m | m in FireAll(s, node, ts).out && m.slot == slot :: IsChange(m, slot)
  {
    if ts != [] { FireChanges(s, node, ts[..|ts| - 1], slot); }
  }

  /** A block's output begins with its own messages. */
  lemma {:induction false} OwnFirst(cfg: Config, p: Progress, node: nat, deps: seq<BlockID>)
    requires cfg.nodes != [] && p.work.Valid()
    ensures p.out <= Batches(cfg, p, node, deps).out
  {
    if deps != [] { OwnFirst(cfg, p, node, deps[..|deps| - 1]); }
  }

  lemma OwnSaid(cfg: Config, g: Graph, e: Entry, fired: seq<Timeout>)
    requires cfg.nodes != [] && CellsOk(g)
    ensures forall m | m in FireAll(StartState(g, e.prev), e.block.node, fired).out :: m in Evaluate(cfg, g, e, fired).out
  {
    var f := FireAll(StartState(g, e.prev), e.block.node, fired);
    var own := OwnMessages(e, f);
    assert own <= OwnBatch(cfg, g, e, fired).out;
    OwnFirst(cfg, OwnBatch(cfg, g, e, fired), e.block.node, e.deps);
    var out := Evaluate(cfg, g, e, fired).out;
    assert own <= out;
    forall m | m in f.out ensures m in out {
      var i :| 0 <= i < |f.out| && f.out[i] == m;
      assert own[i + 1] == m && out[i + 1] == m;
    }
  }

  ghost predicate LogVouched(v: Voucher, log: map<BlockID, State>) {
    forall b | b in log :: StateVouched(v, log[b]) && AllVouched(v, log[b].out)
  }

  lemma {:induction false} FireKeeps(v: Voucher, s: State, node: nat, ts: seq<Timeout>)
    requires StateVouched(v, s)
    ensures StateVouched(v, FireAll(s, node, ts).state)
  {
    if ts != [] { FireKeeps(v, s, node, ts[..|ts| - 1]); }
  }

  lemma StartVouched(v: Voucher, dag: Dag, tr: Trace, prev: BlockID)
    requires Pruning(dag, tr) && LogVouched(v, tr.log) && tr.graph.round <= v.slot.round
    ensures StateVouched(v, StartState(tr.graph, prev))
  {
  }

  lemma BlockVouched(cfg: Config, dag: Dag, v: Voucher, tr: Trace, e: Entry, fired: seq<Timeout>)
    requires cfg.nodes != [] && v.quorum == cfg.Quorum() && v.Decisive() && Pruning(dag, tr)
    requires LogVouched(v, tr.log) && CellsVouched(v, tr.graph.cells) && tr.graph.round <= v.slot.round
    requires AllVouched(v, FireAll(StartState(tr.graph, e.prev), e.block.node, fired).out)
    ensures ProgressVouched(v, Evaluate(cfg, tr.graph, e, fired))
  {
    var g := tr.graph;
    StartVouched(v, dag, tr, e.prev);
    FireKeeps(v, StartState(g, e.prev), e.block.node, fired);
    var own := OwnMessages(e, FireAll(StartState(g, e.prev), e.block.node, fired));
    assert AllVouched(v, own);
    StepVouched(cfg, v, Progress(g, StartWork(g, e, fired), own, []), e.block.node, e.block.node, own);
    OwnBatchSettles(cfg, g, e, fired);
    StepsVouched(cfg, v, OwnBatch(cfg, g, e, fired), e.block.node, e.deps);
  }

  // ---------------------------------------------------------------------------
  // Runs.

  ghost predicate DecidedIn(log: map<BlockID, State>, d: Decision) {
    exists b :: b in log && d.slot in log[b].final && log[b].final[d.slot] == d.hash
  }

  ghost predicate TraceVouched(v: Voucher, tr: Trace) {
    && LogVouched(v, tr.log)
    && (tr.graph.status.Running? ==> CellsVouched(v, tr.graph.cells) && forall d | d in tr.decided && d.slot == v.slot :: DecidedIn(tr.log, d))
  }

  /** In the whole run, timers for the slot expire only in view 0. */
  predicate OnlyFirstChanges(slot: Slot, steps: seq<Step>) {
    forall s | s in steps && s.Interpretation? :: FirstChanges(slot, s.fired)
  }

  lemma OwnVouched(cfg: Config, v: Voucher, tr: Trace, e: Entry, fired: seq<Timeout>)
    requires cfg.nodes != [] && CellsOk(tr.graph) && FirstChanges(v.slot, fired)
    requires Evaluate(cfg, tr.graph, e, fired).graph.status.Running?
    requires ChangeVotes(TakeStep(cfg, tr, Step.Interpretation(e, fired)).log, v.slot) <= v.cast
    ensures AllVouched(v, FireAll(StartState(tr.graph, e.prev), e.block.node, fired).out)
  {
    var f := FireAll(StartState(tr.graph, e.prev), e.block.node, fired);
    var log := TakeStep(cfg, tr, Step.Interpretation(e, fired)).log;
    FireChanges(StartState(tr.graph, e.prev), e.block.node, fired, v.slot);
    OwnSaid(cfg, tr.graph, e, fired);
    forall m | m in f.out && m.slot == v.slot ensures MessageVouched(v, m) {
      assert m in log[e.block].out && IsChange(m, v.slot);
      assert Vote(m.sender, m.hash) in ChangeVotes(log, v.slot);
    }
  }

  lemma DecisionsLogged(slot: Slot, log: map<BlockID, State>, b: BlockID, s: State, before: seq<Decision>, now: seq<Decision>)
    requires b !in log && DecidedHere(slot, s, now) && forall d | d in before && d.slot == slot :: DecidedIn(log, d)
    ensures forall d | d in before + now && d.slot == slot :: DecidedIn(log[b := s], d)
  {
    forall d | d in before + now && d.slot == slot ensures DecidedIn(log[b := s], d) {
      if d in before {
        var b' :| b' in log && d.slot in log[b'].final && log[b'].final[d.slot] == d.hash;
        assert b' in log[b := s] && log[b := s][b'] == log[b'];
      } else {
        assert b in log[b := s] && log[b := s][b].final[d.slot] == d.hash;
      }
    }
  }

  lemma NewStateVouched(cfg: Config, dag: Dag, v: Voucher, tr: Trace, e: Entry, fired: seq<Timeout>)
    requires cfg.nodes != [] && v.quorum == cfg.Quorum() && v.Decisive() && Pruning(dag, tr) && TraceVouched(v, tr)
    requires tr.graph.status.Running? && tr.graph.round <= v.slot.round && FirstChanges(v.slot, fired)
    requires Evaluate(cfg, tr.graph, e, fired).graph.status.Running?
    requires ChangeVotes(TakeStep(cfg, tr, Step.Interpretation(e, fired)).log, v.slot) <= v.cast
    ensures var p := Evaluate(cfg, tr.graph, e, fired);
            ProgressVouched(v, p) && CellsVouched(v, p.graph.cells)
  {
    hide Voucher.Decisive, ChangeVotes, CellsVouched, LogVouched, CellsOk, BoundsOk, StatesOk, FireAll, AllVouched, FirstChanges;
    OwnVouched(cfg, v, tr, e, fired);
    BlockVouched(cfg, dag, v, tr, e, fired);
    OwnBatchSettles(cfg, tr.graph, e, fired);
    BatchesSettle(cfg, OwnBatch(cfg, tr.graph, e, fired), e.block.node, e.deps);
  }

  lemma InterpretationVouched(cfg: Config, dag: Dag, v: Voucher, tr: Trace, e: Entry, fired: seq<Timeout>)
    requires cfg.nodes != [] && v.quorum == cfg.Quorum() && v.Decisive() && Pruning(dag, tr) && TraceVouched(v, tr)
    requires tr.graph.status.Running? && e.block !in tr.log && tr.graph.round <= v.slot.round && FirstChanges(v.slot, fired)
    requires ChangeVotes(TakeStep(cfg, tr, Step.Interpretation(e, fired)).log, v.slot) <= v.cast
    ensures TraceVouched(v, TakeStep(cfg, tr, Step.Interpretation(e, fired)))
  {
    hide Voucher.Decisive, ChangeVotes, CellsVouched, AllVouched, DecidedIn, CellsOk, BoundsOk, StatesOk, FirstChanges, Evaluate;
    var p := Evaluate(cfg, tr.graph, e, fired);
    if p.graph.status.Running? {
      NewStateVouched(cfg, dag, v, tr, e, fired);
      var st := p.work.state.(out := p.out);
      assert StateVouched(v, st) && DecidedHere(v.slot, st, p.decided);
      hide StateVouched, DecidedHere;
      DecisionsLogged(v.slot, tr.log, e.block, st, tr.decided, p.decided);
      StepLog(cfg, tr, e, fired);
    }
  }

  lemma FewerVotes(log: map<BlockID, State>, log': map<BlockID, State>, slot: Slot)
    requires forall b | b in log :: b in log' && log'[b] == log[b]
    ensures ChangeVotes(log, slot) <= ChangeVotes(log', slot)
  {
  }

  lemma StepGrows(cfg: Config, dag: Dag, tr: Trace, step: Step, slot: Slot)
    requires cfg.nodes != [] && CellsOk(tr.graph) && MayStep(cfg, dag, tr, step)
    ensures ChangeVotes(tr.log, slot) <= ChangeVotes(TakeStep(cfg, tr, step).log, slot)
    ensures tr.graph.round <= TakeStep(cfg, tr, step).graph.round
  {
    if step.Interpretation? { ProcessKeeps(cfg, tr.graph, step.entry, step.fired); }
    FewerVotes(tr.log, TakeStep(cfg, tr, step).log, slot);
    hide *;
  }

  lemma TakeStepVouched(cfg: Config, dag: Dag, v: Voucher, tr: Trace, step: Step)
    requires cfg.nodes != [] && v.quorum == cfg.Quorum() && v.Decisive() && Pruning(dag, tr) && TraceVouched(v, tr)
    requires MayStep(cfg, dag, tr, step) && tr.graph.round <= v.slot.round && OnlyFirstChanges(v.slot, [step])
    requires ChangeVotes(TakeStep(cfg, tr, step).log, v.slot) <= v.cast
    ensures TraceVouched(v, TakeStep(cfg, tr, step))
  {
    if step.Interpretation? {
      assert step in [step];
      InterpretationVouched(cfg, dag, v, tr, step.entry, step.fired);
    }
  }

  lemma {:induction false} RunVouched(cfg: Config, dag: Dag, v: Voucher, last: nat, past: set<BlockID>, steps: seq<Step>, tr: Trace)
    requires cfg.nodes != [] && DagValid(cfg, dag) && Run(cfg, dag, last, past, steps, tr)
    requires v.quorum == cfg.Quorum() && v.Decisive() && tr.graph.round <= v.slot.round
    requires OnlyFirstChanges(v.slot, steps) && ChangeVotes(tr.log, v.slot) <= v.cast
    ensures TraceVouched(v, tr)
  {
    hide Voucher.Decisive;
    hide DagValid;
    if steps != [] {
      var init, step := steps[..|steps| - 1], steps[|steps| - 1];
      assert OnlyFirstChanges(v.slot, init) && OnlyFirstChanges(v.slot, [step]);
      hide OnlyFirstChanges, CellsOk, MayStep, TakeStep, ChangeVotes, TraceVouched;
      var t0 :| Run(cfg, dag, last, past, init, t0) && CellsOk(t0.graph) && MayStep(cfg, dag, t0, step) && tr == TakeStep(cfg, t0, step);
      StepGrows(cfg, dag, t0, step, v.slot);
      PruningIsSafe(cfg, dag, last, past, init, t0);
      RunVouched(cfg, dag, v, last, past, init, t0);
      TakeStepVouched(cfg, dag, v, t0, step);
    }
  }

  // ---------------------------------------------------------------------------
  // A counted commit is one that its sender said.

  function CommitOf(b: Ballot, p: nat): Message {
    Commit(b.hash, b.slot, p, b.view)
  }

  /** Who is counted for `b` is in `base`, or has just said it. */
  predicate Counted(b: Ballot, base: set<nat>, s: State, out: seq<Message>) {
    forall p | p in s.VotesFor(b).commits :: p in base || CommitOf(b, p) in out
  }

  ghost predicate SaidBy(b: Ballot, base: set<nat>, msgs: seq<Message>) {
    forall p: nat {:trigger CommitOf(b, p)} :: CommitOf(b, p) in msgs ==> p in base
  }

  lemma CommitsAfter(s: State, b: Ballot, c: Ballot, ids: set<nat>, id: nat)
    ensures s.AddPrepares(c, ids).VotesFor(b).commits == s.VotesFor(b).commits
    ensures s.AddCommit(c, id).VotesFor(b).commits == s.VotesFor(b).commits + if b == c then {id} else {}
  {
  }

  /** Who is newly counted has sent the message, or sends the response. */
  ghost predicate Answered(b: Ballot, s: State, o: Outcome, m: Message) {
    forall p | p in o.state.VotesFor(b).commits && p !in s.VotesFor(b).commits :: m == CommitOf(b, p) || o.response == Some(CommitOf(b, p))
  }

  lemma PrepareBitsets(quorum: nat, s: State, cells: seq<Cell>, receiver: nat, m: Message)
    requires m.Prepare?
    ensures var ballot, o := Ballot(m.hash, m.slot, m.view), OnPrepare(quorum, s, cells, receiver, m);
            var s1 := s.AddPrepares(ballot, {m.sender});
            || o.state.bitsets == s.bitsets || o.state.bitsets == s1.bitsets
            || (o.state.bitsets == s1.AddCommit(ballot, receiver).bitsets && o.response == Some(CommitOf(ballot, receiver)))
  {
    hide Answers, State.View, State.VotesFor, State.AddPrepares, State.AddCommit;
  }

  lemma PrepareCounted(b: Ballot, quorum: nat, s: State, cells: seq<Cell>, receiver: nat, m: Message)
    requires m.Prepare?
    ensures Answered(b, s, OnPrepare(quorum, s, cells, receiver, m), m)
  {
    var ballot := Ballot(m.hash, m.slot, m.view);
    hide OnPrepare, State.AddPrepares, State.AddCommit;
    PrepareBitsets(quorum, s, cells, receiver, m);
    CommitsAfter(s, b, ballot, {m.sender}, receiver);
    CommitsAfter(s.AddPrepares(ballot, {m.sender}), b, ballot, {m.sender}, receiver);
  }

  lemma CommitCounted(b: Ballot, quorum: nat, s: State, cells: seq<Cell>, m: Message)
    requires m.Commit?
    ensures Answered(b, s, OnCommit(quorum, s, cells, m), m)
  {
    var ballot := Ballot(m.hash, m.slot, m.view);
    CommitsAfter(s, b, ballot, {}, m.sender);
    var o := OnCommit(quorum, s, cells, m);
    assert o.state.bitsets == s.bitsets || o.state.bitsets == s.AddCommit(ballot, m.sender).bitsets;
    hide OnCommit;
  }

  lemma ProcessCounted(b: Ballot, quorum: nat, s: State, cells: seq<Cell>, sender: nat, receiver: nat, m: Message)
    requires CellsWellFormed(s, cells)
    ensures Answered(b, s, ProcessMessage(quorum, s, cells, sender, receiver, m), m)
  {
    var s1 := WithView(s, m.slot);
    assert s1.VotesFor(b) == s.VotesFor(b);
    match m
    case PrePrepare(_, _, _) =>
      CommitsAfter(s1, b, Ballot(m.hash, m.slot, m.view), {sender, receiver}, 0);
    case Prepare(_, _, _, _) => PrepareCounted(b, quorum, s1, cells, receiver, m);
    case Commit(_, _, _, _) => CommitCounted(b, quorum, s1, cells, m);
    case ViewChange(_, _, _, _) => assert OnViewChange(quorum, s1, cells, receiver, m).state.bitsets == s1.bitsets;
    case NewView(_, _, _, _) => assert OnNewView(s1, cells, m).state.bitsets == s1.bitsets;
  }

  lemma InterpretCounted(b: Ballot, quorum: nat, base: set<nat>, w: Work, sender: nat, receiver: nat, m: Message, msgs: seq<Message>, out: seq<Message>)
    requires w.Valid() && Counted(b, base, w.state, out) && SaidBy(b, base, msgs) && (m in msgs || m in out)
    ensures var r := Interpret(quorum, w, sender, receiver, m); Counted(b, base, r.work.state, out + r.out)
  {
    ProcessCounted(b, quorum, w.state, w.cells, sender, receiver, m);
    hide ProcessMessage;
  }

  lemma BatchCounted(b: Ballot, quorum: nat, base: set<nat>, w: Work, sender: nat, receiver: nat, msgs: seq<Message>)
    requires w.Valid() && Counted(b, base, w.state, []) && SaidBy(b, base, msgs)
    ensures var r := ProcessMessages(quorum, w, sender, receiver, msgs); Counted(b, base, r.work.state, r.out)
  {
    hide Counted, SaidBy;
    var inv := (x: Work, out: seq<Message>) => Counted(b, base, x.state, out);
    forall x: Work, out: seq<Message>, m: Message {:trigger inv(x, out), Interpret(quorum, x, sender, receiver, m)}
      | x.Valid() && inv(x, out) && (m in msgs || m in out)
      ensures inv(Interpret(quorum, x, sender, receiver, m).work, out + Interpret(quorum, x, sender, receiver, m).out)
    {
      InterpretCounted(b, quorum, base, x, sender, receiver, m, msgs, out);
    }
    BatchKeeps(quorum, w, sender, receiver, msgs, inv);
  }

  lemma StepCounted(cfg: Config, b: Ballot, base: set<nat>, p: Progress, sender: nat, receiver: nat, msgs: seq<Message>)
    requires cfg.nodes != [] && p.work.Valid() && Counted(b, base, p.work.state, p.out) && SaidBy(b, base, msgs)
    ensures var p' := Batch(cfg, p, sender, receiver, msgs); Counted(b, base, p'.work.state, p'.out)
  {
    if p.graph.status.Running? {
      var w := p.work.(decided := []);
      var said := base + w.state.VotesFor(b).commits;
      BatchCounted(b, cfg.Quorum(), said, w, sender, receiver, msgs);
      var r := ProcessMessages(cfg.Quorum(), w, sender, receiver, msgs);
      forall q | q in r.work.state.VotesFor(b).commits ensures q in base || CommitOf(b, q) in p.out + r.out {
        assert q in said || CommitOf(b, q) in r.out;
      }
      hide ProcessMessages;
    }
  }

  lemma {:induction false} StepsCounted(cfg: Config, b: Ballot, base: set<nat>, p: Progress, node: nat, deps: seq<BlockID>)
    requires cfg.nodes != [] && p.work.Valid() && p.work.cells == p.graph.cells && Counted(b, base, p.work.state, p.out)
    requires forall d | d in deps && d in p.graph.statess :: SaidBy(b, base, p.graph.statess[d].out)
    ensures var p' := Batches(cfg, p, node, deps); Counted(b, base, p'.work.state, p'.out)
  {
    if deps != [] {
      var init, d := deps[..|deps| - 1], deps[|deps| - 1];
      StepsCounted(cfg, b, base, p, node, init);
      BatchesSettle(cfg, p, node, init);
      var p1 := Batches(cfg, p, node, init);
      StepCounted(cfg, b, base, p1, d.node, node, Output(p1.graph, d));
    }
  }

  /** All who said that they commit. */
  function LogSayers(b: Ballot, log: map<BlockID, State>): set<nat> {
    set id, m | id in log && m in log[id].out && m.Commit? && m == CommitOf(b, m.sender) :: m.sender
  }

  ghost predicate LogCounted(b: Ballot, log: map<BlockID, State>) {
    forall id | id in log :: log[id].VotesFor(b).commits <= LogSayers(b, log)
  }

  lemma LogSaid(b: Ballot, log: map<BlockID, State>, id: BlockID)
    requires id in log
    ensures SaidBy(b, LogSayers(b, log), log[id].out)
  {
  }

  lemma {:induction false} FireCounts(b: Ballot, s: State, node: nat, ts: seq<Timeout>)
    ensures var f := FireAll(s, node, ts); f.state.bitsets == s.bitsets && forall m | m in f.out :: m.ViewChange?
  {
    if ts != [] { FireCounts(b, s, node, ts[..|ts| - 1]); }
  }

  lemma BlockCounted(cfg: Config, dag: Dag, b: Ballot, tr: Trace, e: Entry, fired: seq<Timeout>)
    requires cfg.nodes != [] && Pruning(dag, tr) && LogCounted(b, tr.log)
    ensures var p := Evaluate(cfg, tr.graph, e, fired); Counted(b, LogSayers(b, tr.log), p.work.state, p.out)
  {
    var g, base := tr.graph, LogSayers(b, tr.log);
    var f := FireAll(StartState(g, e.prev), e.block.node, fired);
    FireCounts(b, StartState(g, e.prev), e.block.node, fired);
    var own := OwnMessages(e, f);
    assert StartState(g, e.prev).VotesFor(b).commits <= base;
    hide LogSayers, BoundsOk, FireAll;
    StepCounted(cfg, b, base, Progress(g, StartWork(g, e, fired), own, []), e.block.node, e.block.node, own);
    OwnBatchSettles(cfg, g, e, fired);
    forall d | d in e.deps && d in g.statess ensures SaidBy(b, base, g.statess[d].out) {
      LogSaid(b, tr.log, d);
    }
    StepsCounted(cfg, b, base, OwnBatch(cfg, g, e, fired), e.block.node, e.deps);
  }

  lemma AppendCounted(b: Ballot, log: map<BlockID, State>, id: BlockID, s: State)
    requires id !in log && LogCounted(b, log) && Counted(b, LogSayers(b, log), s, s.out)
    ensures LogCounted(b, log[id := s])
  {
    var log' := log[id := s];
    forall p | p in LogSayers(b, log) ensures p in LogSayers(b, log') {
      var x, m :| x in log && m in log[x].out && m.Commit? && m == CommitOf(b, m.sender) && m.sender == p;
      assert x in log' && log'[x] == log[x];
    }
    forall p | p in s.VotesFor(b).commits ensures p in LogSayers(b, log') {
      if CommitOf(b, p) in s.out { assert id in log' && CommitOf(b, p) in log'[id].out; }
    }
  }

  lemma TakeStepCounted(cfg: Config, dag: Dag, b: Ballot, tr: Trace, step: Step)
    requires cfg.nodes != [] && Pruning(dag, tr) && LogCounted(b, tr.log) && MayStep(cfg, dag, tr, step)
    ensures LogCounted(b, TakeStep(cfg, tr, step).log)
  {
    hide LogCounted, LogSayers, CellsOk, BoundsOk, StatesOk, Evaluate, LinksOf;
    if step.Interpretation? {
      var p := Evaluate(cfg, tr.graph, step.entry, step.fired);
      BlockCounted(cfg, dag, b, tr, step.entry, step.fired);
      StepLog(cfg, tr, step.entry, step.fired);
      hide TakeStep;
      if p.graph.status.Running? { AppendCounted(b, tr.log, step.entry.block, p.work.state.(out := p.out)); }
    }
  }

  lemma {:induction false} RunCounted(cfg: Config, dag: Dag, b: Ballot, last: nat, past: set<BlockID>, steps: seq<Step>, tr: Trace)
    requires cfg.nodes != [] && DagValid(cfg, dag) && Run(cfg, dag, last, past, steps, tr)
    ensures LogCounted(b, tr.log)
  {
    if steps != [] {
      var init, step := steps[..|steps| - 1], steps[|steps| - 1];
      hide DagValid, LogCounted, CellsOk, MayStep, TakeStep;
      var t0 :| Run(cfg, dag, last, past, init, t0) && CellsOk(t0.graph) && MayStep(cfg, dag, t0, step) && tr == TakeStep(cfg, t0, step);
      PruningIsSafe(cfg, dag, last, past, init, t0);
      RunCounted(cfg, dag, b, last, past, init, t0);
      TakeStepCounted(cfg, dag, b, t0, step);
    }
  }

  /** A commit quorum in a state is a quorum of nodes who said that they commit. */
  lemma CountedQuorum(cfg: Config, dag: Dag, last: nat, past: set<BlockID>, steps: seq<Step>, tr: Trace, slot: Slot, h: Hash, b: BlockID)
    requires cfg.nodes != [] && DagValid(cfg, dag) && Run(cfg, dag, last, past, steps, tr) && b in tr.log
    requires |tr.log[b].VotesFor(Ballot(h, slot, 0)).commits| >= cfg.Quorum()
    ensures CommitQuorum(cfg, tr.log, slot, h, tr.log[b].VotesFor(Ballot(h, slot, 0)).commits)
  {
    var at := Ballot(h, slot, 0);
    RunCounted(cfg, dag, at, last, past, steps, tr);
    forall p | p in tr.log[b].VotesFor(at).commits ensures Said(tr.log, Commit(h, slot, p, 0)) {
      assert p in LogSayers(at, tr.log);
      var id, m :| id in tr.log && m in tr.log[id].out && m.Commit? && m == CommitOf(at, m.sender) && m.sender == p;
      assert Commit(h, slot, p, 0) in tr.log[id].out;
    }
  }

  // ---------------------------------------------------------------------------
  // Agreement.

  /** All that is said or decided about the slot beyond view 0 is about `h`. */
  ghost predicate Settled(slot: Slot, h: Hash, s: State) {
    && (slot in s.final ==> s.final[slot] == h)
    && (forall m | m in s.out && m.slot == slot && !m.ViewChange? && (m.view >= 1 || m.Commit?) :: m.hash == h)
  }

  lemma CommitsVouch(cfg: Config, dag: Dag, tr: Trace, slot: Slot, h: Hash, committers: set<nat>)
    requires cfg.nodes != [] && Facts(cfg, dag, tr, slot) && CommitQuorum(cfg, tr.log, slot, h, committers)
    ensures Voucher(slot, cfg.Quorum(), ChangeVotes(tr.log, slot), h).Decisive()
  {
    hide Facts, CommitQuorum;
    forall votes: map<nat, Hash> | |votes| >= cfg.Quorum() && AllCast(votes, ChangeVotes(tr.log, slot)) ensures NonEmptyHashes(votes) == {h} {
      CommitsDecide(cfg, dag, tr, slot, h, committers, votes);
    }
  }

  lemma BlockSettled(cfg: Config, dag: Dag, v: Voucher, s: State, b: BlockID)
    requires Premises(cfg, dag) && StateVouched(v, s) && AllVouched(v, s.out)
    requires TallyOf(cfg, dag, v.slot).Certified(v.hash) && b in dag.links
    requires StateOk(TallyOf(cfg, dag, v.slot), s, FirstSeen(dag, v.slot, b)) && OutputOk(TallyOf(cfg, dag, v.slot), b, s.out)
    ensures Settled(v.slot, v.hash, s)
  {
    var t := TallyOf(cfg, dag, v.slot);
    if v.slot in s.final && s.final[v.slot] != v.hash {
      var x := s.final[v.slot];
      assert BallotOk(t, x, s.VotesFor(Ballot(x, t.slot, 0)));
      CertifiedAgree(cfg, dag, v.slot, x, v.hash);
    }
    forall m | m in s.out && m.slot == v.slot && !m.ViewChange? && (m.view >= 1 || m.Commit?) ensures m.hash == v.hash {
      assert MessageVouched(v, m) && MessageOk(t, m);
      if m.view == 0 { CertifiedAgree(cfg, dag, v.slot, m.hash, v.hash); }
    }
  }

  lemma LogSettled(cfg: Config, dag: Dag, v: Voucher, tr: Trace)
    requires Premises(cfg, dag) && LogVouched(v, tr.log) && LogOk(dag, TallyOf(cfg, dag, v.slot), tr.log)
    requires TallyOf(cfg, dag, v.slot).Certified(v.hash)
    ensures forall x | x in tr.log :: Settled(v.slot, v.hash, tr.log[x])
  {
    forall x | x in tr.log ensures Settled(v.slot, v.hash, tr.log[x]) {
      BlockSettled(cfg, dag, v, tr.log[x], x);
    }
  }

  /** In every run of one interpreter, if some state holds a view-0 commit quorum
      for `h` and the slot's timers expire only in view 0, then every commit, every
      new view, every view-1 vote and every decision on the slot is for `h`. */
  lemma AgreementAcrossViews(cfg: Config, dag: Dag, last: nat, past: set<BlockID>, steps: seq<Step>, tr: Trace, slot: Slot, h: Hash, b: BlockID)
    requires Premises(cfg, dag) && Run(cfg, dag, last, past, steps, tr) && 1 <= slot.round && tr.graph.round <= slot.round
    requires OnlyFirstChanges(slot, steps)
    requires b in tr.log && |tr.log[b].VotesFor(Ballot(h, slot, 0)).commits| >= cfg.Quorum()
    ensures forall x | x in tr.log :: Settled(slot, h, tr.log[x])
    ensures tr.graph.status.Running? ==> forall d | d in tr.decided && d.slot == slot :: d.hash == h
  {
    var committers := tr.log[b].VotesFor(Ballot(h, slot, 0)).commits;
    var v := Voucher(slot, cfg.Quorum(), ChangeVotes(tr.log, slot), h);
    assert v.Decisive() && TallyOf(cfg, dag, slot).Certified(h) by {
      CountedQuorum(cfg, dag, last, past, steps, tr, slot, h, b);
      RunFacts(cfg, dag, last, past, steps, tr, slot);
      CommitsVouch(cfg, dag, tr, slot, h, committers);
      var p :| p in committers;
      var _ := CommitBy(cfg, dag, tr, slot, h, p);
    }
    RunVouched(cfg, dag, v, last, past, steps, tr);
    RunOk(cfg, dag, slot, last, past, steps, tr);
    LogSettled(cfg, dag, v, tr);
  }
}

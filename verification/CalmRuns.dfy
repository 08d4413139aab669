/** Blocks in which no timer expires and nothing gets decided: what they say, and that
    whoever is heard to prepare is counted. */
module CalmRuns {
  import opened Messages
  import opened Protocol
  import opened Worklist
  import opened Delivery
  import opened Interpreter
  import opened Sets

  /** A chain of `node` that hears `peers`, and one slot with the only hash proposed
      for it there. */
  datatype Scene = Scene(quorum: nat, slot: Slot, hash: Hash, peers: set<nat>, node: nat) {
    predicate Valid() { quorum > 1 && node in peers }

    function Ballot(): Ballot { Protocol.Ballot.Ballot(hash, slot, 0) }

    function Proposal(): Message { PrePrepare(hash, slot, 0) }

    function PrepareBy(p: nat): Message { Prepare(hash, slot, p, 0) }
  }

  predicate Calm(sc: Scene, m: Message) {
    && m.view == 0 && (m.slot == sc.slot ==> m.hash == sc.hash)
    && match m
       case PrePrepare(_, _, _) => true
       case Prepare(_, _, p, _) => p in sc.peers
       case Commit(_, _, p, _) => p == sc.node && sc.quorum <= |sc.peers|
       case ViewChange(_, _, _, _) => false
       case NewView(_, _, _, _) => false
  }

  ghost predicate AllCalm(sc: Scene, out: seq<Message>) {
    forall m | m in out :: Calm(sc, m)
  }

  predicate CalmVotes(sc: Scene, v: Votes) {
    v.prepares <= sc.peers && v.commits <= {sc.node}
  }

  ghost predicate CalmState(sc: Scene, s: State) {
    (forall x :: s.View(x) == 0) && forall b :: CalmVotes(sc, s.VotesFor(b))
  }

  predicate Proposed(sc: Scene, s: State) {
    Key(sc.slot, 0) in s.prePrepared
  }

  function Prepared(sc: Scene, s: State): set<nat> {
    s.VotesFor(sc.Ballot()).prepares
  }

  // ---------------------------------------------------------------------------
  // One message.

  /** What a calm message leads to. */
  ghost predicate CalmOutcome(sc: Scene, s: State, m: Message, o: Outcome) {
    && CalmState(sc, o.state) && !o.fatal && o.decided.None? && (o.response.Some? ==> Calm(sc, o.response.value))
    && Prepared(sc, s) <= Prepared(sc, o.state) && (m.Prepare? && m.slot == sc.slot ==> m.sender in Prepared(sc, o.state))
    && (Proposed(sc, s) || (m.PrePrepare? && m.slot == sc.slot) ==> Proposed(sc, o.state))
    && (Proposed(sc, o.state) && !Proposed(sc, s) ==> o.response == Some(sc.PrepareBy(sc.node)))
  }

  lemma VotesChange(sc: Scene, s: State, s': State, b: Ballot, v: Votes)
    requires CalmState(sc, s) && s'.views == s.views && s'.bitsets == s.bitsets[b := v] && CalmVotes(sc, v)
    ensures CalmState(sc, s')
  {
    forall x ensures s'.View(x) == 0 { assert s.View(x) == 0; }
    forall c ensures CalmVotes(sc, s'.VotesFor(c)) { assert CalmVotes(sc, s.VotesFor(c)); }
  }

  lemma CalmPrePrepare(sc: Scene, s: State, cells: seq<Cell>, sender: nat, m: Message)
    requires sc.Valid() && CalmState(sc, s) && Calm(sc, m) && m.PrePrepare? && sender in sc.peers
    ensures CalmOutcome(sc, s, m, OnPrePrepare(s, cells, sender, sc.node, m))
  {
    var b := Ballot(m.hash, m.slot, m.view);
    var o := OnPrePrepare(s, cells, sender, sc.node, m);
    assert s.View(m.slot) == 0 && CalmVotes(sc, s.VotesFor(b));
    if o.response.Some? { VotesChange(sc, s, o.state, b, s.AddPrepares(b, {sender, sc.node}).VotesFor(b)); }
    hide CalmState;
  }

  /** The votes for a ballot after a prepare, and after the commit that answers it. */
  lemma AddsAfter(s: State, b: Ballot, sender: nat, receiver: nat)
    ensures var s1 := s.AddPrepares(b, {sender});
            var v, v1, v2 := s.VotesFor(b), s1.VotesFor(b), s1.AddCommit(b, receiver).VotesFor(b);
            && s1 == s.(bitsets := s.bitsets[b := v1]) && v1 == Votes(v.commits, v.prepares + {sender})
            && s1.AddCommit(b, receiver) == s.(bitsets := s.bitsets[b := v2]) && v2 == Votes(v.commits + {receiver}, v.prepares + {sender})
  {
  }

  lemma PrepareForm(quorum: nat, s: State, cells: seq<Cell>, receiver: nat, m: Message)
    requires m.Prepare? && s.View(m.slot) == m.view
    ensures var b, o := Ballot(m.hash, m.slot, m.view), OnPrepare(quorum, s, cells, receiver, m);
            var s1 := s.AddPrepares(b, {m.sender});
            && !o.fatal && o.decided.None?
            && if o.response.None? then o.state == s1
               else |s1.VotesFor(b).prepares| == quorum && o.response.value == Commit(m.hash, m.slot, receiver, m.view) &&
                    o.state == s1.AddCommit(b, receiver).(prepared := o.state.prepared)
  {
    hide Answers, State.AddPrepares, State.AddCommit, State.VotesFor;
  }

  /** A prepare is counted, and when that makes a quorum, answered with a commit. */
  lemma PrepareLeads(quorum: nat, s: State, cells: seq<Cell>, receiver: nat, m: Message)
    requires m.Prepare? && s.View(m.slot) == m.view
    ensures var b, o := Ballot(m.hash, m.slot, m.view), OnPrepare(quorum, s, cells, receiver, m);
            var v, v' := s.VotesFor(b), o.state.VotesFor(b);
            && o.state.views == s.views && o.state.prePrepared == s.prePrepared && !o.fatal && o.decided.None?
            && o.state.bitsets == s.bitsets[b := v'] && v'.prepares == v.prepares + {m.sender} && v'.commits <= v.commits + {receiver}
            && (o.response.Some? ==> |v'.prepares| == quorum && o.response.value == Commit(m.hash, m.slot, receiver, m.view))
  {
    PrepareForm(quorum, s, cells, receiver, m);
    hide OnPrepare, State.AddPrepares, State.AddCommit;
    AddsAfter(s, Ballot(m.hash, m.slot, m.view), m.sender, receiver);
  }

  lemma CalmPrepare(sc: Scene, s: State, cells: seq<Cell>, m: Message)
    requires sc.Valid() && CalmState(sc, s) && Calm(sc, m) && m.Prepare?
    ensures CalmOutcome(sc, s, m, OnPrepare(sc.quorum, s, cells, sc.node, m))
  {
    hide OnPrepare;
    var b := Ballot(m.hash, m.slot, m.view);
    var o := OnPrepare(sc.quorum, s, cells, sc.node, m);
    assert s.View(m.slot) == 0 && CalmVotes(sc, s.VotesFor(b));
    PrepareLeads(sc.quorum, s, cells, sc.node, m);
    SubsetSize(o.state.VotesFor(b).prepares, sc.peers);
    VotesChange(sc, s, o.state, b, o.state.VotesFor(b));
    hide CalmState;
  }

  lemma CalmCommit(sc: Scene, s: State, cells: seq<Cell>, m: Message)
    requires sc.Valid() && CalmState(sc, s) && Calm(sc, m) && m.Commit?
    ensures CalmOutcome(sc, s, m, OnCommit(sc.quorum, s, cells, m))
  {
    var b := Ballot(m.hash, m.slot, m.view);
    assert CalmVotes(sc, s.VotesFor(b));
    var s1 := s.AddCommit(b, m.sender);
    SubsetSize(s1.VotesFor(b).commits, {sc.node});
    VotesChange(sc, s, s1, b, s1.VotesFor(b));
    hide CalmState;
  }

  lemma CalmView(sc: Scene, s: State, slot: Slot)
    requires CalmState(sc, s)
    ensures var s1 := WithView(s, slot);
            CalmState(sc, s1) && Prepared(sc, s1) == Prepared(sc, s) && Proposed(sc, s1) == Proposed(sc, s)
  {
    var s1 := WithView(s, slot);
    forall x ensures s1.View(x) == 0 { assert s.View(x) == 0; }
    forall c ensures CalmVotes(sc, s1.VotesFor(c)) { assert CalmVotes(sc, s.VotesFor(c)); }
  }

  lemma CalmMessage(sc: Scene, s: State, cells: seq<Cell>, sender: nat, m: Message)
    requires sc.Valid() && CalmState(sc, s) && Calm(sc, m) && sender in sc.peers && CellsWellFormed(s, cells)
    ensures var o := ProcessMessage(sc.quorum, s, cells, sender, sc.node, m); CalmOutcome(sc, s, m, o) && o.cells == cells
  {
    CalmView(sc, s, m.slot);
    var s1 := WithView(s, m.slot);
    hide CalmState, WithView, Prepared, Proposed, CellsWellFormed;
    match m
    case PrePrepare(_, _, _) => CalmPrePrepare(sc, s1, cells, sender, m);
    case Prepare(_, _, _, _) => CalmPrepare(sc, s1, cells, m);
    case Commit(_, _, _, _) => CalmCommit(sc, s1, cells, m);
  }

  // ---------------------------------------------------------------------------
  // One batch.

  /** Whoever was heard to prepare is counted, and a proposal was answered. */
  ghost predicate Noted(sc: Scene, base: set<nat>, w: Work, said: seq<Message>) {
    && base <= Prepared(sc, w.state)
    && (forall p {:trigger sc.PrepareBy(p)} :: sc.PrepareBy(p) in w.processed ==> p in Prepared(sc, w.state))
    && (sc.Proposal() in w.processed ==> Proposed(sc, w.state))
    && (Proposed(sc, w.state) ==> sc.PrepareBy(sc.node) in said)
  }

  ghost predicate CalmWork(sc: Scene, w: Work) {
    CalmState(sc, w.state) && !w.fatal && w.decided == []
  }

  lemma InterpretCalm(sc: Scene, base: set<nat>, w: Work, sender: nat, m: Message, before: seq<Message>, out: seq<Message>)
    requires sc.Valid() && w.Valid() && sender in sc.peers && Calm(sc, m)
    requires CalmWork(sc, w) && Noted(sc, base, w, before + out) && AllCalm(sc, out)
    ensures var r := Interpret(sc.quorum, w, sender, sc.node, m);
            && CalmWork(sc, r.work) && r.work.cells == w.cells
            && Noted(sc, base, r.work, before + (out + r.out)) && AllCalm(sc, out + r.out)
  {
    var r := Interpret(sc.quorum, w, sender, sc.node, m);
    assert before + (out + r.out) == before + out + r.out;
    if m !in w.processed { CalmMessage(sc, w.state, w.cells, sender, m); }
    hide CalmState, Prepared, Proposed, ProcessMessage;
  }

  lemma BatchCalm(sc: Scene, base: set<nat>, w: Work, sender: nat, msgs: seq<Message>, before: seq<Message>)
    requires sc.Valid() && w.Valid() && sender in sc.peers && AllCalm(sc, msgs) && CalmWork(sc, w) && Noted(sc, base, w, before)
    ensures var r := ProcessMessages(sc.quorum, w, sender, sc.node, msgs);
            && CalmWork(sc, r.work) && r.work.cells == w.cells && Noted(sc, base, r.work, before + r.out) && AllCalm(sc, r.out)
            && w.processed <= r.work.processed && forall m | m in msgs :: m in r.work.processed
  {
    var inv := (v: Work, out: seq<Message>) =>
      CalmWork(sc, v) && v.cells == w.cells && Noted(sc, base, v, before + out) && AllCalm(sc, out);
    forall v: Work, out: seq<Message>, m: Message {:trigger inv(v, out), Interpret(sc.quorum, v, sender, sc.node, m)}
      | v.Valid() && inv(v, out) && (m in msgs || m in out)
      ensures inv(Interpret(sc.quorum, v, sender, sc.node, m).work, out + Interpret(sc.quorum, v, sender, sc.node, m).out)
    {
      InterpretCalm(sc, base, v, sender, m, before, out);
    }
    assert before + [] == before;
    BatchKeeps(sc.quorum, w, sender, sc.node, msgs, inv);
    BatchProcesses(sc.quorum, w, sender, sc.node, msgs);
  }

  // ---------------------------------------------------------------------------
  // One block.

  /** `p` has interpreted `heard` and left the graph as it was. */
  ghost predicate CalmProgress(sc: Scene, base: set<nat>, g: Graph, p: Progress, before: seq<Message>) {
    && p.graph == g && p.work.cells == g.cells && p.decided == []
    && CalmWork(sc, p.work) && Noted(sc, base, p.work, before + p.out) && AllCalm(sc, p.out)
  }

  lemma StepCalm(cfg: Config, sc: Scene, base: set<nat>, g: Graph, p: Progress, sender: nat, msgs: seq<Message>, before: seq<Message>)
    requires cfg.nodes != [] && sc.quorum == cfg.Quorum() && sc.Valid() && p.work.Valid() && sender in sc.peers && AllCalm(sc, msgs)
    requires g.status.Running? && CalmProgress(sc, base, g, p, before)
    ensures var p' := Batch(cfg, p, sender, sc.node, msgs);
            && CalmProgress(sc, base, g, p', before) && p.out <= p'.out
            && p.work.processed <= p'.work.processed && forall m | m in msgs :: m in p'.work.processed
  {
    hide CalmState, AllCalm, Noted;
    var w := p.work.(decided := []);
    assert w == p.work;
    BatchCalm(sc, base, w, sender, msgs, before + p.out);
    var r := ProcessMessages(cfg.Quorum(), w, sender, sc.node, msgs);
    assert before + p.out + r.out == before + (p.out + r.out);
    assert AllCalm(sc, p.out + r.out) by { BothCalm(sc, p.out, r.out); }
    assert Settle(|cfg.nodes|, g, r.work) == g;
  }

  lemma BothCalm(sc: Scene, a: seq<Message>, b: seq<Message>)
    requires AllCalm(sc, a) && AllCalm(sc, b)
    ensures AllCalm(sc, a + b)
  {
  }

  /** The dependencies' states are there, and calm. */
  ghost predicate CalmDeps(sc: Scene, g: Graph, deps: seq<BlockID>) {
    forall d | d in deps :: d.node in sc.peers && d in g.statess && AllCalm(sc, g.statess[d].out)
  }

  lemma {:induction false} StepsCalm(cfg: Config, sc: Scene, base: set<nat>, g: Graph, p: Progress, deps: seq<BlockID>, before: seq<Message>)
    requires cfg.nodes != [] && sc.quorum == cfg.Quorum() && sc.Valid() && p.work.Valid() && CalmDeps(sc, g, deps)
    requires g.status.Running? && CalmProgress(sc, base, g, p, before)
    ensures var p' := Batches(cfg, p, sc.node, deps);
            && CalmProgress(sc, base, g, p', before) && p.out <= p'.out
            && p.work.processed <= p'.work.processed && forall d, m | d in deps && m in Output(g, d) :: m in p'.work.processed
  {
    if deps != [] {
      var init, d := deps[..|deps| - 1], deps[|deps| - 1];
      assert deps == init + [d];
      hide CalmState, AllCalm, Noted;
      StepsCalm(cfg, sc, base, g, p, init, before);
      StepCalm(cfg, sc, base, g, Batches(cfg, p, sc.node, init), d.node, Output(g, d), before);
      assert forall x | x in deps :: x in init || x == d;
      hide CalmProgress, Batch;
    }
  }

  /** A calm block: it leaves the graph as it was, counts whoever it hears prepare,
      and answers the proposal if it hears of it. */
  lemma BlockCalm(cfg: Config, sc: Scene, base: set<nat>, g: Graph, e: Entry, before: seq<Message>)
    requires cfg.nodes != [] && sc.quorum == cfg.Quorum() && sc.Valid() && sc.node == e.block.node && CellsOk(g) && g.status.Running?
    requires CalmDeps(sc, g, e.deps) && (e.block.AsSlot() == sc.slot ==> e.block.hash == sc.hash)
    requires var s := StartState(g, e.prev);
             CalmState(sc, s) && base <= Prepared(sc, s) && (Proposed(sc, s) ==> sc.PrepareBy(sc.node) in before)
    ensures var p := Evaluate(cfg, g, e, []);
            && CalmProgress(sc, base, g, p, before) && PrePrepare(e.block.hash, e.block.AsSlot(), 0) in p.out
            && PrePrepare(e.block.hash, e.block.AsSlot(), 0) in p.work.processed
            && forall d, m | d in e.deps && m in Output(g, d) :: m in p.work.processed
  {
    var first := PrePrepare(e.block.hash, e.block.AsSlot(), 0);
    var own := OwnMessages(e, FireAll(StartState(g, e.prev), e.block.node, []));
    assert own == [first] && Calm(sc, first);
    var p0 := Progress(g, StartWork(g, e, []), own, []);
    assert CalmProgress(sc, base, g, p0, before);
    hide CalmState, AllCalm, Noted, CalmProgress, CalmDeps, Calm, StartWork, StartState, FireAll;
    StepCalm(cfg, sc, base, g, p0, sc.node, own, before);
    StepsCalm(cfg, sc, base, g, OwnBatch(cfg, g, e, []), e.deps, before);
    assert first in own;
  }
}

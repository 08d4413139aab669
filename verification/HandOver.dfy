/** From view 0 to view 1: once 2f + 1 nodes have committed to a hash in view 0,
    every new view 1 that is built from view-1 votes carries that hash. */
module HandOver {
  import opened Messages
  import opened Protocol
  import opened Worklist
  import opened Delivery
  import opened Interpreter
  import opened History
  import opened Agreement
  import opened Chains
  import opened Sets

  /** The hash that a chain has prepared in view 0, or none. */
  function PreparedHash(s: State, slot: Slot): Hash {
    if Key(slot, 0) in s.prepared then s.prepared[Key(slot, 0)] else []
  }

  predicate IsCommit(m: Message, slot: Slot) {
    m.Commit? && m.slot == slot && m.view == 0
  }

  predicate IsChange(m: Message, slot: Slot) {
    m.ViewChange? && m.slot == slot && m.view == 1
  }

  // ---------------------------------------------------------------------------
  // One block.

  /** Commits are answers given while the chain is still in view 0, and the chain
      has then prepared a hash. */
  ghost predicate CommitsOk(slot: Slot, node: nat, view: nat, s: State, out: seq<Message>) {
    && view <= s.View(slot)
    && (forall m | m in out && IsCommit(m, slot) :: m.sender == node && view == 0 && Key(slot, 0) in s.prepared)
    && (forall m | m in out :: !m.ViewChange?)
  }

  lemma InterpretCommits(quorum: nat, w: Work, sender: nat, receiver: nat, m: Message, slot: Slot, view: nat, out: seq<Message>)
    requires w.Valid() && CommitsOk(slot, receiver, view, w.state, out)
    ensures var r := Interpret(quorum, w, sender, receiver, m); CommitsOk(slot, receiver, view, r.work.state, out + r.out)
  {
    if !(w.fatal || m in w.processed) {
      MessageExtends(quorum, w.state, w.cells, sender, receiver, m, Place(slot, [], 0));
    }
  }

  lemma BatchCommits(quorum: nat, w: Work, sender: nat, receiver: nat, msgs: seq<Message>, slot: Slot, view: nat)
    requires w.Valid() && view <= w.state.View(slot)
    ensures var r := ProcessMessages(quorum, w, sender, receiver, msgs); CommitsOk(slot, receiver, view, r.work.state, r.out)
  {
    var inv := (v: Work, out: seq<Message>) => CommitsOk(slot, receiver, view, v.state, out);
    forall v: Work, out: seq<Message>, m: Message {:trigger inv(v, out), Interpret(quorum, v, sender, receiver, m)}
      | v.Valid() && inv(v, out) && (m in msgs || m in out)
      ensures inv(Interpret(quorum, v, sender, receiver, m).work, out + Interpret(quorum, v, sender, receiver, m).out)
    {
      InterpretCommits(quorum, v, sender, receiver, m, slot, view, out);
    }
    BatchKeeps(quorum, w, sender, receiver, msgs, inv);
  }

  /** The output of a block is what its expired timers said, then answers. */
  ghost predicate AnswersOk(slot: Slot, node: nat, view: nat, own: seq<Message>, p: Progress) {
    |own| <= |p.out| && p.out[..|own|] == own && CommitsOk(slot, node, view, p.work.state, p.out[|own|..])
  }

  lemma CommitsJoin(slot: Slot, node: nat, view: nat, s: State, s': State, out: seq<Message>, more: seq<Message>)
    requires CommitsOk(slot, node, view, s, out) && CommitsOk(slot, node, view, s', more) && Extends(s, s', Place(slot, [], 0))
    ensures CommitsOk(slot, node, view, s', out + more)
  {
    hide State.VotesFor;
  }

  lemma StepCommits(cfg: Config, p: Progress, sender: nat, receiver: nat, msgs: seq<Message>, slot: Slot, view: nat, own: seq<Message>)
    requires cfg.nodes != [] && p.work.Valid() && AnswersOk(slot, receiver, view, own, p)
    ensures AnswersOk(slot, receiver, view, own, Batch(cfg, p, sender, receiver, msgs))
  {
    if p.graph.status.Running? {
      var w := p.work.(decided := []);
      BatchCommits(cfg.Quorum(), w, sender, receiver, msgs, slot, view);
      BatchExtends(cfg.Quorum(), w, sender, receiver, msgs, Place(slot, [], 0));
      var r := ProcessMessages(cfg.Quorum(), w, sender, receiver, msgs);
      CommitsJoin(slot, receiver, view, w.state, r.work.state, p.out[|own|..], r.out);
      assert (p.out + r.out)[|own|..] == p.out[|own|..] + r.out;
      assert (p.out + r.out)[..|own|] == p.out[..|own|];
      assert Batch(cfg, p, sender, receiver, msgs).out == p.out + r.out;
      assert Batch(cfg, p, sender, receiver, msgs).work.state == r.work.state;
      hide Batch, CommitsOk, Extends, ProcessMessages;
    }
  }

  lemma {:induction false} StepsCommits(cfg: Config, p: Progress, node: nat, deps: seq<BlockID>, slot: Slot, view: nat, own: seq<Message>)
    requires cfg.nodes != [] && p.work.Valid() && AnswersOk(slot, node, view, own, p)
    ensures AnswersOk(slot, node, view, own, Batches(cfg, p, node, deps))
  {
    if deps != [] {
      StepsCommits(cfg, p, node, deps[..|deps| - 1], slot, view, own);
      var p1 := Batches(cfg, p, node, deps[..|deps| - 1]);
      StepCommits(cfg, p1, deps[|deps| - 1].node, node, Output(p1.graph, deps[|deps| - 1]), slot, view, own);
    }
  }

  /** Expired timers vote for what the chain has prepared in view 0, and leave it. */
  lemma {:induction false} FireVotes(s: State, node: nat, ts: seq<Timeout>, slot: Slot)
    ensures var f := FireAll(s, node, ts);
            && f.state.prepared == s.prepared && s.View(slot) <= f.state.View(slot)
            && (forall m | m in f.out :: m.ViewChange? && m.sender == node)
            && (forall m | m in f.out && m.slot == slot :: f.state.View(slot) >= 1)
            && (forall m | m in f.out && IsChange(m, slot) :: m.hash == PreparedHash(s, slot))
  {
    if ts != [] { FireVotes(s, node, ts[..|ts| - 1], slot); }
  }

  /** What block `b` says about leaving view 0, given the state of its parent. */
  ghost predicate Consistent(slot: Slot, b: BlockID, parent: State, s: State) {
    && (forall m | m in s.out && IsCommit(m, slot) ::
          m.sender == b.node && parent.View(slot) == 0 && Key(slot, 0) in s.prepared && forall m' | m' in s.out :: !IsChange(m', slot))
    && (forall m | m in s.out && IsChange(m, slot) ::
          m.sender == b.node && s.View(slot) >= 1 && m.hash == PreparedHash(parent, slot))
  }

  lemma BlockConsistent(cfg: Config, g: Graph, e: Entry, fired: seq<Timeout>, slot: Slot)
    requires cfg.nodes != [] && CellsOk(g)
    ensures var p := Evaluate(cfg, g, e, fired);
            Consistent(slot, e.block, StartState(g, e.prev), p.work.state.(out := p.out))
  {
    hide Batch, Batches, FireAll, StartState;
    var s0, node := StartState(g, e.prev), e.block.node;
    FireVotes(s0, node, fired, slot);
    var f := FireAll(s0, node, fired);
    var own := OwnMessages(e, f);
    var view := f.state.View(slot);
    var p0 := Progress(g, StartWork(g, e, fired), own, []);
    StepCommits(cfg, p0, node, node, own, slot, view, own);
    StepsCommits(cfg, OwnBatch(cfg, g, e, fired), node, e.deps, slot, view, own);
    var p := Evaluate(cfg, g, e, fired);
    forall m | m in p.out ensures m in own || m in p.out[|own|..] {
      assert p.out == p.out[..|own|] + p.out[|own|..];
    }
    forall m | m in own && m.ViewChange? ensures m in f.out { }
  }

  // ---------------------------------------------------------------------------
  // Runs.

  function Parent(dag: Dag, log: map<BlockID, State>, b: BlockID): State
    requires b in dag.links
  {
    if dag.links[b].prev in log then log[dag.links[b].prev] else FRESH
  }

  ghost predicate LogConsistent(dag: Dag, log: map<BlockID, State>, slot: Slot) {
    forall b | b in log :: b in dag.links && Consistent(slot, b, Parent(dag, log, b), log[b])
  }

  /** A block starts where its parent stopped, as far as the slot is concerned. */
  lemma StartsAtParent(cfg: Config, dag: Dag, tr: Trace, e: Entry, slot: Slot)
    requires DagValid(cfg, dag) && Pruning(dag, tr) && ChainsOk(cfg, dag, tr) && EntryOf(dag, e) && tr.graph.round <= slot.round
    requires forall l | l in LinksOf(dag, e.block) :: l in tr.log
    ensures var s0, parent := StartState(tr.graph, e.prev), Parent(dag, tr.log, e.block);
            s0.View(slot) == parent.View(slot) && PreparedHash(s0, slot) == PreparedHash(parent, slot)
  {
    assert BlockOk(cfg, dag, e.block);
    if e.block.round > 1 {
      assert e.prev in LinksOf(dag, e.block);
      if e.prev !in tr.graph.statess {
        assert Informed(cfg, dag, e.prev, tr.log[e.prev]);
        assert Blank(tr.log[e.prev], Place(slot, [], 0));
      }
    }
  }

  lemma NewBlockConsistent(cfg: Config, dag: Dag, tr: Trace, e: Entry, fired: seq<Timeout>, slot: Slot)
    requires cfg.nodes != [] && DagValid(cfg, dag) && Pruning(dag, tr) && ChainsOk(cfg, dag, tr) && MayInterpret(cfg, dag, tr, e, fired)
    requires tr.graph.round <= slot.round
    ensures var p := Evaluate(cfg, tr.graph, e, fired);
            Consistent(slot, e.block, Parent(dag, tr.log, e.block), p.work.state.(out := p.out))
  {
    BlockConsistent(cfg, tr.graph, e, fired, slot);
    StartsAtParent(cfg, dag, tr, e, slot);
  }

  lemma ParentKept(cfg: Config, dag: Dag, tr: Trace, b: BlockID, n: BlockID, s: State)
    requires DagValid(cfg, dag) && ChainsOk(cfg, dag, tr) && (b in tr.log || b == n) && b in dag.links && n !in tr.log && n in dag.links
    ensures Parent(dag, tr.log[n := s], b) == Parent(dag, tr.log, b)
  {
    assert BlockOk(cfg, dag, b) && BlockOk(cfg, dag, n);
    if b in tr.log {
      assert Inherits(dag, tr.log, b, tr.graph.round);
    }
  }

  lemma StepConsistent(cfg: Config, dag: Dag, tr: Trace, step: Step, slot: Slot)
    requires cfg.nodes != [] && DagValid(cfg, dag) && Pruning(dag, tr) && ChainsOk(cfg, dag, tr) && LogConsistent(dag, tr.log, slot)
    requires MayStep(cfg, dag, tr, step) && tr.graph.round <= slot.round
    ensures LogConsistent(dag, TakeStep(cfg, tr, step).log, slot)
  {
    hide Consistent, Evaluate, Process, DagValid, ChainsOk, CellsOk, BoundsOk, StatesOk, LinksOf;
    if step.Interpretation? {
      var e, fired := step.entry, step.fired;
      var p := Evaluate(cfg, tr.graph, e, fired);
      var s := p.work.state.(out := p.out);
      NewBlockConsistent(cfg, dag, tr, e, fired, slot);
      StepLog(cfg, tr, e, fired);
      hide TakeStep;
      forall b | b in tr.log[e.block := s]
        ensures b in dag.links && Consistent(slot, b, Parent(dag, tr.log[e.block := s], b), tr.log[e.block := s][b])
      {
        ParentKept(cfg, dag, tr, b, e.block, s);
      }
    }
  }

  lemma {:induction false} RunConsistent(cfg: Config, dag: Dag, last: nat, past: set<BlockID>, steps: seq<Step>, tr: Trace, slot: Slot)
    requires cfg.nodes != [] && DagValid(cfg, dag) && Run(cfg, dag, last, past, steps, tr) && tr.graph.round <= slot.round
    ensures LogConsistent(dag, tr.log, slot)
  {
    if steps != [] {
      var init, step := steps[..|steps| - 1], steps[|steps| - 1];
      var t0 :| Run(cfg, dag, last, past, init, t0) && CellsOk(t0.graph) && MayStep(cfg, dag, t0, step) && tr == TakeStep(cfg, t0, step);
      PruningIsSafe(cfg, dag, last, past, init, t0);
      ChainsGrow(cfg, dag, last, past, init, t0);
      if step.Interpretation? { ProcessKeeps(cfg, t0.graph, step.entry, step.fired); }
      RunConsistent(cfg, dag, last, past, init, t0, slot);
      StepConsistent(cfg, dag, t0, step, slot);
    }
  }

  /** Some block of `m.sender` said `m`. */
  ghost predicate Said(log: map<BlockID, State>, m: Message) {
    exists b :: b in log && m in log[b].out
  }

  /** The blocks of a node that never forks lie on one chain. */
  lemma {:induction false} HonestChain(cfg: Config, dag: Dag, a: BlockID, b: BlockID)
    requires DagValid(cfg, dag) && a in dag.links && b in dag.links && a.node == b.node && !Forks(dag, a.node) && a.round <= b.round
    ensures OnChain(dag, a, b)
    decreases b.round
  {
    assert BlockOk(cfg, dag, a) && BlockOk(cfg, dag, b);
    if a.round < b.round {
      HonestChain(cfg, dag, a, dag.links[b].prev);
    }
  }

  /** What was prepared or committed to in view 0 had a prepare quorum. */
  ghost predicate Certificates(t: Tally, s: State) {
    && (Key(t.slot, 0) in s.prepared ==> t.Certified(s.prepared[Key(t.slot, 0)]))
    && (forall m | m in s.out && IsCommit(m, t.slot) :: t.Certified(m.hash))
  }

  /** What the proof of the hand-over needs to know of a run. */
  ghost predicate Facts(cfg: Config, dag: Dag, tr: Trace, slot: Slot) {
    && Premises(cfg, dag)
    && 1 <= slot.round && tr.graph.round <= slot.round
    && ChainsOk(cfg, dag, tr) && LogConsistent(dag, tr.log, slot)
    && (forall b | b in tr.log :: Certificates(TallyOf(cfg, dag, slot), tr.log[b]))
  }

  /** n = 3f + 1 nodes, of which at most f ever fork. */
  ghost predicate Premises(cfg: Config, dag: Dag) {
    cfg.Valid() && |cfg.nodes| % 3 == 1 && DagValid(cfg, dag) && |Forkers(cfg, dag)| <= cfg.Faults()
  }

  lemma RunFacts(cfg: Config, dag: Dag, last: nat, past: set<BlockID>, steps: seq<Step>, tr: Trace, slot: Slot)
    requires Premises(cfg, dag) && Run(cfg, dag, last, past, steps, tr) && 1 <= slot.round && tr.graph.round <= slot.round
    ensures Facts(cfg, dag, tr, slot)
  {
    ChainsGrow(cfg, dag, last, past, steps, tr);
    RunOk(cfg, dag, slot, last, past, steps, tr);
    RunConsistent(cfg, dag, last, past, steps, tr, slot);
    LogCertificates(dag, TallyOf(cfg, dag, slot), tr.log);
  }

  lemma LogCertificates(dag: Dag, t: Tally, log: map<BlockID, State>)
    requires LogOk(dag, t, log)
    ensures forall b | b in log :: Certificates(t, log[b])
  {
    forall b | b in log ensures Certificates(t, log[b]) {
      assert OutputOk(t, b, log[b].out);
      forall m | m in log[b].out && IsCommit(m, t.slot) ensures t.Certified(m.hash) {
        assert MessageOk(t, m);
      }
    }
  }

  /** A node that never forks votes to leave view 0 with the hash it committed to. */
  lemma HonestVote(cfg: Config, dag: Dag, tr: Trace, slot: Slot, b: BlockID, commit: Message, b': BlockID, change: Message)
    requires Facts(cfg, dag, tr, slot) && b in tr.log && b' in tr.log && commit.Commit? && change.ViewChange?
    requires commit in tr.log[b].out && IsCommit(commit, slot) && change in tr.log[b'].out && IsChange(change, slot)
    requires commit.sender == change.sender && !Forks(dag, commit.sender)
    ensures change.hash == commit.hash
  {
    assert Consistent(slot, b, Parent(dag, tr.log, b), tr.log[b]);
    assert Consistent(slot, b', Parent(dag, tr.log, b'), tr.log[b']);
    assert BlockOk(cfg, dag, b) && BlockOk(cfg, dag, b');
    assert Inherits(dag, tr.log, b, tr.graph.round) && Inherits(dag, tr.log, b', tr.graph.round);
    var x := Place(slot, [], 0);
    if b.round < b'.round {
      var prev := dag.links[b'].prev;
      HonestChain(cfg, dag, b, prev);
      ChainMonotone(cfg, dag, tr, b, prev, x);
      assert Certificates(TallyOf(cfg, dag, slot), tr.log[b]);
      CertifiedAgree(cfg, dag, slot, tr.log[b].prepared[Key(slot, 0)], commit.hash);
    } else {
      assert b'.round == b.round ==> b' == b;
      var prev := dag.links[b].prev;
      HonestChain(cfg, dag, b', prev);
      ChainMonotone(cfg, dag, tr, b', prev, x);
      assert false;
    }
  }

  /** Any vote to leave view 0 that carries a hash carries the committed one. */
  lemma AnyVote(cfg: Config, dag: Dag, tr: Trace, slot: Slot, h: Hash, b: BlockID, change: Message)
    requires Facts(cfg, dag, tr, slot) && TallyOf(cfg, dag, slot).Certified(h)
    requires b in tr.log && change in tr.log[b].out && IsChange(change, slot) && change.hash != []
    ensures change.hash == h
  {
    assert Consistent(slot, b, Parent(dag, tr.log, b), tr.log[b]);
    assert Certificates(TallyOf(cfg, dag, slot), tr.log[dag.links[b].prev]);
    CertifiedAgree(cfg, dag, slot, change.hash, h);
  }

  lemma CertifiedNotEmpty(cfg: Config, dag: Dag, slot: Slot, h: Hash)
    requires cfg.nodes != [] && DagValid(cfg, dag) && TallyOf(cfg, dag, slot).Certified(h)
    ensures h != []
  {
    var t := TallyOf(cfg, dag, slot);
    assert t.Voters(h) != {};
    var p :| p in t.Voters(h);
    assert Vote(p, h) in t.votes;
    if b :| b in dag.links && FirstSeen(dag, slot, b) == Some(h) {
      SeenIsBlock(cfg, dag, slot, b);
      assert BlockOk(cfg, dag, BlockID(h, slot.node, slot.round));
    } else {
      var b :| b in dag.links && b.hash == h;
      assert BlockOk(cfg, dag, b);
    }
  }

  // ---------------------------------------------------------------------------
  // Quorums of view-1 votes.

  /** 2f + 1 nodes have said that they commit to `h` in view 0. */
  ghost predicate CommitQuorum(cfg: Config, log: map<BlockID, State>, slot: Slot, h: Hash, committers: set<nat>)
    requires cfg.nodes != []
  {
    |committers| >= cfg.Quorum() && forall p | p in committers :: Said(log, Commit(h, slot, p, 0))
  }

  /** The votes to leave view 0 for view 1 that were cast. */
  function ChangeVotes(log: map<BlockID, State>, slot: Slot): set<Vote> {
    set b, m | b in log && m in log[b].out && IsChange(m, slot) :: Vote(m.sender, m.hash)
  }

  /** Every vote in a collection is one that was cast. */
  predicate AllCast(votes: map<nat, Hash>, cast: set<Vote>) {
    forall p | p in votes :: Vote(p, votes[p]) in cast
  }

  lemma HonestInBoth(cfg: Config, dag: Dag, a: set<nat>, b: set<nat>) returns (p: nat)
    requires Premises(cfg, dag)
    requires |a| >= cfg.Quorum() && |b| >= cfg.Quorum() && a <= Elements(cfg.nodes) && b <= Elements(cfg.nodes)
    ensures p in a && p in b && !Forks(dag, p)
  {
    ElementCount(cfg.nodes);
    assert |Elements(cfg.nodes)| == |cfg.nodes|;
    QuorumsMeet(Elements(cfg.nodes), a, b, cfg.Faults());
    if a * b <= Forkers(cfg, dag) {
      SubsetSize(a * b, Forkers(cfg, dag));
    }
    p :| p in a * b && p !in Forkers(cfg, dag);
    assert p in Elements(cfg.nodes);
  }

  lemma CastBy(cfg: Config, dag: Dag, tr: Trace, slot: Slot, v: Vote) returns (b: BlockID, m: Message)
    requires Facts(cfg, dag, tr, slot) && v in ChangeVotes(tr.log, slot)
    ensures b in tr.log && m in tr.log[b].out && IsChange(m, slot) && m.sender == v.node && m.hash == v.hash
    ensures v.node in cfg.nodes
  {
    b, m :| b in tr.log && m in tr.log[b].out && IsChange(m, slot) && Vote(m.sender, m.hash) == v;
    assert Consistent(slot, b, Parent(dag, tr.log, b), tr.log[b]);
    assert BlockOk(cfg, dag, b);
  }

  lemma CommitBy(cfg: Config, dag: Dag, tr: Trace, slot: Slot, h: Hash, p: nat) returns (b: BlockID)
    requires Facts(cfg, dag, tr, slot) && Said(tr.log, Commit(h, slot, p, 0))
    ensures b in tr.log && Commit(h, slot, p, 0) in tr.log[b].out && p in cfg.nodes && TallyOf(cfg, dag, slot).Certified(h)
  {
    b :| b in tr.log && Commit(h, slot, p, 0) in tr.log[b].out;
    assert Consistent(slot, b, Parent(dag, tr.log, b), tr.log[b]);
    assert Certificates(TallyOf(cfg, dag, slot), tr.log[b]);
    assert BlockOk(cfg, dag, b);
  }

  lemma VotersKnown(cfg: Config, dag: Dag, tr: Trace, slot: Slot, h: Hash, committers: set<nat>, votes: map<nat, Hash>)
    requires Facts(cfg, dag, tr, slot) && CommitQuorum(cfg, tr.log, slot, h, committers)
    requires AllCast(votes, ChangeVotes(tr.log, slot))
    ensures committers <= Elements(cfg.nodes) && votes.Keys <= Elements(cfg.nodes)
  {
    forall p | p in committers ensures p in Elements(cfg.nodes) { var _ := CommitBy(cfg, dag, tr, slot, h, p); }
    forall p | p in votes ensures p in Elements(cfg.nodes) { var _, _ := CastBy(cfg, dag, tr, slot, Vote(p, votes[p])); }
  }

  lemma HonestSaysIt(cfg: Config, dag: Dag, tr: Trace, slot: Slot, h: Hash, committers: set<nat>, votes: map<nat, Hash>) returns (p: nat)
    requires Facts(cfg, dag, tr, slot) && CommitQuorum(cfg, tr.log, slot, h, committers)
    requires |votes| >= cfg.Quorum() && AllCast(votes, ChangeVotes(tr.log, slot))
    ensures p in votes && votes[p] == h && TallyOf(cfg, dag, slot).Certified(h)
  {
    VotersKnown(cfg, dag, tr, slot, h, committers, votes);
    assert |votes.Keys| == |votes|;
    p := HonestInBoth(cfg, dag, committers, votes.Keys);
    var b := CommitBy(cfg, dag, tr, slot, h, p);
    var b', m := CastBy(cfg, dag, tr, slot, Vote(p, votes[p]));
    HonestVote(cfg, dag, tr, slot, b, Commit(h, slot, p, 0), b', m);
  }

  /** Once 2f + 1 nodes have committed to `h` in view 0, every quorum of view-1
      votes says `h`: no other hash, and not the empty one. */
  lemma CommitsDecide(cfg: Config, dag: Dag, tr: Trace, slot: Slot, h: Hash, committers: set<nat>, votes: map<nat, Hash>)
    requires cfg.nodes != [] && Facts(cfg, dag, tr, slot) && CommitQuorum(cfg, tr.log, slot, h, committers)
    requires |votes| >= cfg.Quorum() && AllCast(votes, ChangeVotes(tr.log, slot))
    ensures NonEmptyHashes(votes) == {h}
  {
    var p := HonestSaysIt(cfg, dag, tr, slot, h, committers, votes);
    CertifiedNotEmpty(cfg, dag, slot, h);
    forall q | q in votes && votes[q] != [] ensures votes[q] == h {
      var bq, mq := CastBy(cfg, dag, tr, slot, Vote(q, votes[q]));
      AnyVote(cfg, dag, tr, slot, h, bq, mq);
    }
    OneHash(votes, p, h);
  }

  lemma OneHash(votes: map<nat, Hash>, p: nat, h: Hash)
    requires p in votes && votes[p] == h && h != [] && forall q | q in votes && votes[q] != [] :: votes[q] == h
    ensures NonEmptyHashes(votes) == {h}
  {
    assert votes[p] in NonEmptyHashes(votes);
  }

  // ---------------------------------------------------------------------------
  // The block being interpreted has cast its votes but is not in the log yet.

  /** The run with the votes of the block that is about to be interpreted. */
  function WithVotes(tr: Trace, e: Entry, fired: seq<Timeout>): Trace {
    var f := FireAll(StartState(tr.graph, e.prev), e.block.node, fired);
    tr.(log := tr.log[e.block := f.state.(out := OwnMessages(e, f))])
  }

  lemma FiredAt(s: State, s0: State, node: nat, fired: seq<Timeout>, p: Slot -> bool, out: seq<Message>, x: Place)
    requires forall t | t in fired :: p(t.slot)
    ensures var s' := FireAll(s0, node, fired).state.(out := out);
            && (Extends(s, s0, x) ==> Extends(s, s', x))
            && (!p(x.slot) && Blank(s0, x) ==> Blank(s', x))
  {
    hide FireAll;
    FireExtends(s0, node, fired, p, x);
  }

  /** What a block's own votes leave at one place. */
  lemma VotesAt(cfg: Config, dag: Dag, tr: Trace, e: Entry, fired: seq<Timeout>, x: Place)
    requires DagValid(cfg, dag) && Pruning(dag, tr) && ChainsOk(cfg, dag, tr) && MayInterpret(cfg, dag, tr, e, fired)
    ensures e.block in dag.top && e.block in dag.links
    ensures var s := WithVotes(tr, e, fired).log[e.block];
            && (x.slot.round > dag.top[e.block] ==> Blank(s, x))
            && (e.prev.Valid() ==> e.prev in tr.log && (x.slot.round >= tr.graph.round ==> Extends(tr.log[e.prev], s, x)))
  {
    hide DagValid, Pruning, ChainsOk, StartState, FireAll, Blank, Extends, LinksOf;
    StartExtends(cfg, dag, tr, e, x);
    var s0 := StartState(tr.graph, e.prev);
    FiredAt(if e.prev in tr.log then tr.log[e.prev] else s0, s0, e.block.node, fired, slot => Known(cfg, dag.top[e.block], slot),
            OwnMessages(e, FireAll(s0, e.block.node, fired)), x);
  }

  lemma VotesInform(cfg: Config, dag: Dag, tr: Trace, e: Entry, fired: seq<Timeout>)
    requires DagValid(cfg, dag) && Pruning(dag, tr) && ChainsOk(cfg, dag, tr) && MayInterpret(cfg, dag, tr, e, fired)
    ensures Informed(cfg, dag, e.block, WithVotes(tr, e, fired).log[e.block])
    ensures Inherits(dag, WithVotes(tr, e, fired).log, e.block, tr.graph.round)
  {
    hide DagValid, Pruning, ChainsOk, FireAll, StartState, Blank, Extends, LinksOf;
    var s := WithVotes(tr, e, fired).log[e.block];
    OwnKnown(cfg, dag, tr, e, fired);
    VotesAt(cfg, dag, tr, e, fired, Place(e.block.AsSlot(), [], 0));
    forall x: Place | x.slot.round > dag.top[e.block] ensures Blank(s, x) { VotesAt(cfg, dag, tr, e, fired, x); }
    if e.prev.Valid() {
      forall x: Place | x.slot.round >= tr.graph.round ensures Extends(tr.log[e.prev], s, x) { VotesAt(cfg, dag, tr, e, fired, x); }
    }
  }

  lemma VotesChains(cfg: Config, dag: Dag, tr: Trace, e: Entry, fired: seq<Timeout>)
    requires DagValid(cfg, dag) && Pruning(dag, tr) && ChainsOk(cfg, dag, tr) && MayInterpret(cfg, dag, tr, e, fired)
    ensures ChainsOk(cfg, dag, WithVotes(tr, e, fired))
  {
    hide Pruning, DagValid, Extends, Informed, FireAll, StartState, LinksOf;
    VotesInform(cfg, dag, tr, e, fired);
    var tr' := WithVotes(tr, e, fired);
    forall b | b in tr'.log ensures b in dag.links && Inherits(dag, tr'.log, b, tr'.graph.round) {
      if b != e.block {
        assert Inherits(dag, tr.log, b, tr.graph.round);
      }
    }
  }

  lemma OwnVotesConsistent(cfg: Config, dag: Dag, tr: Trace, e: Entry, fired: seq<Timeout>, slot: Slot)
    requires Facts(cfg, dag, tr, slot) && Pruning(dag, tr) && MayInterpret(cfg, dag, tr, e, fired)
    ensures Consistent(slot, e.block, Parent(dag, tr.log, e.block), WithVotes(tr, e, fired).log[e.block])
  {
    var s0 := StartState(tr.graph, e.prev);
    FireVotes(s0, e.block.node, fired, slot);
    StartsAtParent(cfg, dag, tr, e, slot);
    var f := FireAll(s0, e.block.node, fired);
    assert e.block in dag.links;
    hide Facts, Pruning, FireAll, StartState, MayInterpret;
    forall m | m in OwnMessages(e, f) && (IsChange(m, slot) || IsCommit(m, slot)) ensures m in f.out { }
  }

  lemma OwnVotesCertified(cfg: Config, dag: Dag, tr: Trace, e: Entry, fired: seq<Timeout>, slot: Slot)
    requires Facts(cfg, dag, tr, slot) && Pruning(dag, tr) && MayInterpret(cfg, dag, tr, e, fired)
    ensures Certificates(TallyOf(cfg, dag, slot), WithVotes(tr, e, fired).log[e.block])
  {
    hide DagValid, ChainsOk, LogConsistent, TallyOf, BoundsOk, FireAll;
    FireVotes(StartState(tr.graph, e.prev), e.block.node, fired, slot);
    if e.prev in tr.graph.statess { assert Certificates(TallyOf(cfg, dag, slot), tr.log[e.prev]); }
  }

  lemma VotesConsistent(cfg: Config, dag: Dag, tr: Trace, e: Entry, fired: seq<Timeout>, slot: Slot)
    requires Facts(cfg, dag, tr, slot) && Pruning(dag, tr) && MayInterpret(cfg, dag, tr, e, fired)
    ensures LogConsistent(dag, WithVotes(tr, e, fired).log, slot)
  {
    OwnVotesConsistent(cfg, dag, tr, e, fired, slot);
    var log' := WithVotes(tr, e, fired).log;
    forall b | b in log' ensures b in dag.links && Consistent(slot, b, Parent(dag, log', b), log'[b]) {
      ParentKept(cfg, dag, tr, b, e.block, log'[e.block]);
    }
  }

  lemma VotesFacts(cfg: Config, dag: Dag, tr: Trace, e: Entry, fired: seq<Timeout>, slot: Slot)
    requires Facts(cfg, dag, tr, slot) && Pruning(dag, tr) && MayInterpret(cfg, dag, tr, e, fired)
    ensures Facts(cfg, dag, WithVotes(tr, e, fired), slot)
  {
    VotesChains(cfg, dag, tr, e, fired);
    VotesConsistent(cfg, dag, tr, e, fired, slot);
    OwnVotesCertified(cfg, dag, tr, e, fired, slot);
  }

  lemma QuorumStays(cfg: Config, tr: Trace, e: Entry, fired: seq<Timeout>, slot: Slot, h: Hash, committers: set<nat>)
    requires cfg.nodes != [] && e.block !in tr.log && CommitQuorum(cfg, tr.log, slot, h, committers)
    ensures CommitQuorum(cfg, WithVotes(tr, e, fired).log, slot, h, committers)
  {
    var log := WithVotes(tr, e, fired).log;
    forall p | p in committers ensures Said(log, Commit(h, slot, p, 0)) {
      var b :| b in tr.log && Commit(h, slot, p, 0) in tr.log[b].out;
      assert b in log && Commit(h, slot, p, 0) in log[b].out;
    }
  }

  lemma VotesDecide(cfg: Config, dag: Dag, tr: Trace, e: Entry, fired: seq<Timeout>, slot: Slot, h: Hash, committers: set<nat>, votes: map<nat, Hash>)
    requires cfg.nodes != [] && e.block !in tr.log
    requires Facts(cfg, dag, tr, slot) && Pruning(dag, tr) && MayInterpret(cfg, dag, tr, e, fired)
    requires CommitQuorum(cfg, tr.log, slot, h, committers)
    requires |votes| >= cfg.Quorum() && AllCast(votes, ChangeVotes(WithVotes(tr, e, fired).log, slot))
    ensures NonEmptyHashes(votes) == {h}
  {
    hide *;
    QuorumStays(cfg, tr, e, fired, slot, h, committers);
    VotesFacts(cfg, dag, tr, e, fired, slot);
    CommitsDecide(cfg, dag, WithVotes(tr, e, fired), slot, h, committers, votes);
  }

  lemma DecidedVotes(quorum: nat, s: State, cells: seq<Cell>, receiver: nat, m: Message, h: Hash)
    requires CellsWellFormed(s, cells) && m.ViewChange? && m.view == 1 && s.View(m.slot) <= 1
    requires |Gathered(s, cells, m)| == quorum && NonEmptyHashes(Gathered(s, cells, m)) == {h}
    ensures OnViewChange(quorum, s, cells, receiver, m).response == Some(NewView(h, m.slot, receiver, 1))
    ensures !OnViewChange(quorum, s, cells, receiver, m).fatal
  {
  }

  /** While any block is interpreted after any run: a quorum of view-1 votes makes a
      new view with the committed hash, and never stops the process. */
  lemma NewViewCarriesCommit(cfg: Config, dag: Dag, last: nat, past: set<BlockID>, steps: seq<Step>, tr: Trace, e: Entry, fired: seq<Timeout>,
                             slot: Slot, h: Hash, committers: set<nat>, s: State, cells: seq<Cell>, receiver: nat, m: Message)
    requires Premises(cfg, dag) && Run(cfg, dag, last, past, steps, tr) && 1 <= slot.round && tr.graph.round <= slot.round
    requires MayInterpret(cfg, dag, tr, e, fired) && CommitQuorum(cfg, tr.log, slot, h, committers)
    requires CellsWellFormed(s, cells) && m.ViewChange? && m.slot == slot && m.view == 1 && s.View(slot) <= 1
    requires |Gathered(s, cells, m)| == cfg.Quorum()
    requires AllCast(Gathered(s, cells, m), ChangeVotes(WithVotes(tr, e, fired).log, slot))
    ensures OnViewChange(cfg.Quorum(), s, cells, receiver, m).response == Some(NewView(h, slot, receiver, 1))
    ensures !OnViewChange(cfg.Quorum(), s, cells, receiver, m).fatal
  {
    assert cfg.nodes != [] && e.block !in tr.log;
    hide *;
    PruningIsSafe(cfg, dag, last, past, steps, tr);
    RunFacts(cfg, dag, last, past, steps, tr, slot);
    VotesDecide(cfg, dag, tr, e, fired, slot, h, committers, Gathered(s, cells, m));
    DecidedVotes(cfg.Quorum(), s, cells, receiver, m, h);
  }
}

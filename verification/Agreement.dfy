/** View-0 agreement: however graphs interpret the same DAG, no two of them ever
    hold view-0 quorums for different hashes of a slot that is still undelivered. */
module Agreement {
  import opened Messages
  import opened Protocol
  import opened Worklist
  import opened Delivery
  import opened Interpreter
  import opened History
  import opened Sets

  datatype Vote = Vote(node: nat, hash: Hash)

  /** The view-0 votes for one slot, and how many make a quorum. */
  datatype Tally = Tally(slot: Slot, quorum: nat, votes: set<Vote>) {
    function Voters(h: Hash): set<nat> {
      set v | v in votes && v.hash == h :: v.node
    }

    predicate Certified(h: Hash) {
      |Voters(h)| >= quorum
    }

    predicate Opening(m: Message) { m.PrePrepare? && m.slot == slot && m.view == 0 }
  }

  // ---------------------------------------------------------------------------
  // What states and messages may hold about the slot in view 0.

  ghost predicate BallotOk(t: Tally, h: Hash, v: Votes) {
    v.prepares <= t.Voters(h) && (v.commits != {} ==> t.Certified(h))
  }

  /** `seen` is the first hash for the slot that the chain of `s` has met. */
  ghost predicate StateOk(t: Tally, s: State, seen: Option<Hash>) {
    var key := Key(t.slot, 0);
    && (forall h :: BallotOk(t, h, s.VotesFor(Ballot(h, t.slot, 0))))
    && (key in s.prepared ==> t.Certified(s.prepared[key]))
    && (key in s.prePrepared ==> seen == Some(s.prePrepared[key]))
    && (key !in s.prePrepared && s.View(t.slot) == 0 ==> seen.None?)
  }

  ghost predicate MessageOk(t: Tally, m: Message) {
    m.slot == t.slot ==>
      match m
      case PrePrepare(h, _, v) => v == 0 ==> Vote(t.slot.node, h) in t.votes
      case Prepare(h, _, p, v) => v == 0 ==> Vote(p, h) in t.votes
      case Commit(h, _, _, v) => v == 0 ==> t.Certified(h)
      case ViewChange(_, _, _, v) => v >= 1
      case NewView(_, _, _, v) => v >= 1
  }

  /** A response never opens the slot: that is left to the owner's own block. */
  ghost predicate ResponseOk(t: Tally, m: Option<Message>) {
    m.Some? ==> MessageOk(t, m.value) && !t.Opening(m.value)
  }

  // ---------------------------------------------------------------------------
  // One message.

  /** What a pre-prepare of the slot adds to what the chain has met. */
  function Extend(seen: Option<Hash>, t: Tally, m: Message): Option<Hash> {
    if seen.None? && t.Opening(m) then Some(m.hash) else seen
  }

  lemma BallotsUnchanged(t: Tally, s: State, s': State)
    requires forall h :: BallotOk(t, h, s.VotesFor(Ballot(h, t.slot, 0)))
    requires s'.bitsets == s.bitsets
    ensures forall h :: BallotOk(t, h, s'.VotesFor(Ballot(h, t.slot, 0)))
  {
    forall h ensures BallotOk(t, h, s'.VotesFor(Ballot(h, t.slot, 0))) {
      assert BallotOk(t, h, s.VotesFor(Ballot(h, t.slot, 0)));
    }
  }

  lemma BallotChanged(t: Tally, s: State, b: Ballot, v: Votes)
    requires forall h :: BallotOk(t, h, s.VotesFor(Ballot(h, t.slot, 0)))
    requires b.slot == t.slot && b.view == 0 ==> BallotOk(t, b.hash, v)
    ensures forall h :: BallotOk(t, h, s.(bitsets := s.bitsets[b := v]).VotesFor(Ballot(h, t.slot, 0)))
  {
    forall h ensures BallotOk(t, h, s.(bitsets := s.bitsets[b := v]).VotesFor(Ballot(h, t.slot, 0))) {
      assert BallotOk(t, h, s.VotesFor(Ballot(h, t.slot, 0)));
    }
  }

  lemma PrePrepareOk(t: Tally, s: State, cells: seq<Cell>, sender: nat, receiver: nat, m: Message, seen: Option<Hash>)
    requires StateOk(t, s, seen) && MessageOk(t, m) && m.PrePrepare?
    requires t.Opening(m) ==> sender == t.slot.node
    requires Extend(seen, t, m).Some? ==> Vote(receiver, Extend(seen, t, m).value) in t.votes
    ensures StateOk(t, OnPrePrepare(s, cells, sender, receiver, m).state, Extend(seen, t, m))
    ensures ResponseOk(t, OnPrePrepare(s, cells, sender, receiver, m).response)
  {
    var o := OnPrePrepare(s, cells, sender, receiver, m);
    var ballot := Ballot(m.hash, m.slot, m.view);
    if o.response.Some? {
      if t.Opening(m) {
        assert BallotOk(t, m.hash, s.VotesFor(ballot));
        assert sender in t.Voters(m.hash) && receiver in t.Voters(m.hash) by {
          assert Vote(sender, m.hash) in t.votes && Vote(receiver, m.hash) in t.votes;
        }
      }
      BallotChanged(t, s, ballot, o.state.VotesFor(ballot));
      BallotsUnchanged(t, s.AddPrepares(ballot, {sender, receiver}), o.state);
      hide Tally.Voters, BallotOk;
    }
  }

  lemma AddPrepareOk(t: Tally, s: State, m: Message, seen: Option<Hash>)
    requires StateOk(t, s, seen) && MessageOk(t, m) && m.Prepare?
    ensures var ballot := Ballot(m.hash, m.slot, m.view);
            var s1 := s.AddPrepares(ballot, {m.sender});
            && StateOk(t, s1, seen)
            && (m.slot == t.slot && m.view == 0 && |s1.VotesFor(ballot).prepares| == t.quorum ==> t.Certified(m.hash))
  {
    var ballot := Ballot(m.hash, m.slot, m.view);
    var s1 := s.AddPrepares(ballot, {m.sender});
    if m.slot == t.slot && m.view == 0 {
      assert BallotOk(t, m.hash, s.VotesFor(ballot));
      assert m.sender in t.Voters(m.hash) by { assert Vote(m.sender, m.hash) in t.votes; }
      SubsetSize(s1.VotesFor(ballot).prepares, t.Voters(m.hash));
    }
    BallotChanged(t, s, ballot, s1.VotesFor(ballot));
  }

  lemma AddCommitOk(t: Tally, s: State, b: Ballot, id: nat, seen: Option<Hash>)
    requires StateOk(t, s, seen) && (b.slot == t.slot && b.view == 0 ==> t.Certified(b.hash))
    ensures StateOk(t, s.AddCommit(b, id), seen)
  {
    assert b.slot == t.slot && b.view == 0 ==> BallotOk(t, b.hash, s.VotesFor(b));
    BallotChanged(t, s, b, s.AddCommit(b, id).VotesFor(b));
  }

  lemma SetPreparedOk(t: Tally, s: State, key: Key, h: Hash, seen: Option<Hash>)
    requires StateOk(t, s, seen) && (key == Key(t.slot, 0) ==> t.Certified(h))
    ensures StateOk(t, s.(prepared := s.prepared[key := h]), seen)
  {
    BallotsUnchanged(t, s, s.(prepared := s.prepared[key := h]));
  }

  lemma PrepareOk(t: Tally, s: State, cells: seq<Cell>, receiver: nat, m: Message, seen: Option<Hash>)
    requires StateOk(t, s, seen) && MessageOk(t, m) && m.Prepare?
    ensures StateOk(t, OnPrepare(t.quorum, s, cells, receiver, m).state, seen)
    ensures ResponseOk(t, OnPrepare(t.quorum, s, cells, receiver, m).response)
  {
    var ballot := Ballot(m.hash, m.slot, m.view);
    var s1 := s.AddPrepares(ballot, {m.sender});
    AddPrepareOk(t, s, m, seen);
    if OnPrepare(t.quorum, s, cells, receiver, m).response.Some? {
      AddCommitOk(t, s1, ballot, receiver, seen);
      SetPreparedOk(t, s1.AddCommit(ballot, receiver), Key(m.slot, m.view), m.hash, seen);
    }
  }

  lemma CommitOk(t: Tally, s: State, cells: seq<Cell>, m: Message, seen: Option<Hash>)
    requires StateOk(t, s, seen) && MessageOk(t, m) && m.Commit?
    ensures StateOk(t, OnCommit(t.quorum, s, cells, m).state, seen)
  {
    var ballot := Ballot(m.hash, m.slot, m.view);
    var s1 := s.AddCommit(ballot, m.sender);
    AddCommitOk(t, s, ballot, m.sender, seen);
    BallotsUnchanged(t, s1, s1.(final := s1.final[m.slot := m.hash]));
  }

  /** View changes raise the view and add no vote. */
  lemma ViewChangeOk(t: Tally, s: State, cells: seq<Cell>, receiver: nat, m: Message, seen: Option<Hash>)
    requires StateOk(t, s, seen) && MessageOk(t, m) && CellsWellFormed(s, cells) && m.ViewChange?
    ensures StateOk(t, OnViewChange(t.quorum, s, cells, receiver, m).state, seen)
    ensures ResponseOk(t, OnViewChange(t.quorum, s, cells, receiver, m).response)
  {
    var o := OnViewChange(t.quorum, s, cells, receiver, m);
    BallotsUnchanged(t, s, o.state);
    assert o.state.View(t.slot) >= s.View(t.slot);
  }

  lemma NewViewOk(t: Tally, s: State, cells: seq<Cell>, m: Message, seen: Option<Hash>)
    requires StateOk(t, s, seen) && MessageOk(t, m) && m.NewView?
    ensures StateOk(t, OnNewView(s, cells, m).state, seen)
    ensures ResponseOk(t, OnNewView(s, cells, m).response)
  {
    var o := OnNewView(s, cells, m);
    BallotsUnchanged(t, s, o.state);
    assert o.state.View(t.slot) >= s.View(t.slot);
  }

  lemma MessageStep(t: Tally, s: State, cells: seq<Cell>, sender: nat, receiver: nat, m: Message, seen: Option<Hash>)
    requires StateOk(t, s, seen) && MessageOk(t, m) && CellsWellFormed(s, cells)
    requires t.Opening(m) ==> sender == t.slot.node
    requires Extend(seen, t, m).Some? ==> Vote(receiver, Extend(seen, t, m).value) in t.votes
    ensures var o := ProcessMessage(t.quorum, s, cells, sender, receiver, m);
            StateOk(t, o.state, Extend(seen, t, m)) && ResponseOk(t, o.response)
  {
    var s1 := WithView(s, m.slot);
    BallotsUnchanged(t, s, s1);
    match m
    case PrePrepare(_, _, _) => PrePrepareOk(t, s1, cells, sender, receiver, m, seen);
    case Prepare(_, _, _, _) => PrepareOk(t, s1, cells, receiver, m, seen);
    case Commit(_, _, _, _) => CommitOk(t, s1, cells, m, seen);
    case ViewChange(_, _, _, _) => ViewChangeOk(t, s1, cells, receiver, m, seen);
    case NewView(_, _, _, _) => NewViewOk(t, s1, cells, m, seen);
  }

  // ---------------------------------------------------------------------------
  // One batch: the output of a block, which opens the slot when it is the slot's.

  ghost predicate WorkOk(t: Tally, w: Work, seen: Option<Hash>) {
    StateOk(t, w.state, seen) && forall m | m in w.processed && t.Opening(m) :: seen.Some?
  }

  function Opened(seen: Option<Hash>, opening: Option<Hash>): Option<Hash> {
    if seen.Some? then seen else opening
  }

  /** What the chain has met in the middle of a batch. */
  function SeenIn(t: Tally, w: Work, seen: Option<Hash>, opening: Option<Hash>): Option<Hash> {
    if opening.Some? && PrePrepare(opening.value, t.slot, 0) in w.processed then Opened(seen, opening) else seen
  }

  ghost predicate Opens(t: Tally, opening: Option<Hash>, m: Message) {
    MessageOk(t, m) && (t.Opening(m) ==> opening == Some(m.hash))
  }

  lemma InterpretOk(t: Tally, w: Work, sender: nat, receiver: nat, m: Message, seen: Option<Hash>, opening: Option<Hash>)
    requires w.Valid() && WorkOk(t, w, SeenIn(t, w, seen, opening)) && Opens(t, opening, m)
    requires opening.Some? ==> sender == t.slot.node
    requires Opened(seen, opening).Some? ==> Vote(receiver, Opened(seen, opening).value) in t.votes
    ensures var r := Interpret(t.quorum, w, sender, receiver, m);
            && WorkOk(t, r.work, SeenIn(t, r.work, seen, opening))
            && (forall x | x in r.out :: Opens(t, opening, x) && !t.Opening(x))
  {
    if !(w.fatal || m in w.processed) {
      MessageStep(t, w.state, w.cells, sender, receiver, m, SeenIn(t, w, seen, opening));
      var r := Interpret(t.quorum, w, sender, receiver, m);
      if t.Opening(m) {
        assert m == PrePrepare(opening.value, t.slot, 0);
        assert SeenIn(t, r.work, seen, opening) == Opened(seen, opening);
      } else {
        assert SeenIn(t, r.work, seen, opening) == SeenIn(t, w, seen, opening);
      }
    }
  }

  lemma BatchOk(t: Tally, w: Work, sender: nat, receiver: nat, msgs: seq<Message>, seen: Option<Hash>, opening: Option<Hash>)
    requires w.Valid() && WorkOk(t, w, seen) && forall m | m in msgs :: Opens(t, opening, m)
    requires opening.Some? ==> sender == t.slot.node && PrePrepare(opening.value, t.slot, 0) in msgs
    requires Opened(seen, opening).Some? ==> Vote(receiver, Opened(seen, opening).value) in t.votes
    ensures var r := ProcessMessages(t.quorum, w, sender, receiver, msgs);
            && (!r.work.fatal ==> WorkOk(t, r.work, Opened(seen, opening)))
            && (forall x | x in r.out :: MessageOk(t, x) && !t.Opening(x))
  {
    var inv := (x: Work, out: seq<Message>) =>
      WorkOk(t, x, SeenIn(t, x, seen, opening)) && forall y | y in out :: Opens(t, opening, y) && !t.Opening(y);
    forall x: Work, out: seq<Message>, m: Message {:trigger inv(x, out), Interpret(t.quorum, x, sender, receiver, m)}
      | x.Valid() && inv(x, out) && (m in msgs || m in out)
      ensures inv(Interpret(t.quorum, x, sender, receiver, m).work, out + Interpret(t.quorum, x, sender, receiver, m).out)
    {
      InterpretOk(t, x, sender, receiver, m, seen, opening);
    }
    BatchKeeps(t.quorum, w, sender, receiver, msgs, inv);
    BatchProcesses(t.quorum, w, sender, receiver, msgs);
  }

  // ---------------------------------------------------------------------------
  // The votes that a DAG stands for.

  /** The first hash for the slot among `ids`, given what was met before. */
  function Seen(before: Option<Hash>, slot: Slot, ids: seq<BlockID>): Option<Hash> {
    if ids == [] then before
    else
      var last := ids[|ids| - 1];
      Opened(Seen(before, slot, ids[..|ids| - 1]), if last.AsSlot() == slot then Some(last.hash) else None)
  }

  /** The first hash for the slot on the chain that ends with `b`; this depends on
      the DAG alone, not on who interprets it. */
  function FirstSeen(dag: Dag, slot: Slot, b: BlockID): Option<Hash>
    requires b in dag.links
    decreases b.round, 1
  {
    Seen(SeenBefore(dag, slot, b), slot, [b] + dag.links[b].refs)
  }

  function SeenBefore(dag: Dag, slot: Slot, b: BlockID): Option<Hash>
    requires b in dag.links
    decreases b.round, 0
  {
    var prev := dag.links[b].prev;
    if prev in dag.links && prev.round < b.round then FirstSeen(dag, slot, prev) else None
  }

  /** A node votes for the first hash that its chain meets; the owner of the slot
      votes for the block it signed. */
  function TallyOf(cfg: Config, dag: Dag, slot: Slot): Tally
    requires cfg.nodes != []
  {
    Tally(slot, cfg.Quorum(),
          (set b | b in dag.links && FirstSeen(dag, slot, b).Some? :: Vote(b.node, FirstSeen(dag, slot, b).value)) +
          (set b | b in dag.links && b.AsSlot() == slot :: Vote(b.node, b.hash)))
  }

  lemma {:induction false} SeenKeeps(h: Hash, slot: Slot, ids: seq<BlockID>)
    ensures Seen(Some(h), slot, ids) == Some(h)
  {
    if ids != [] { SeenKeeps(h, slot, ids[..|ids| - 1]); }
  }

  /** Meeting the predecessor again, as `process` does, changes nothing. */
  lemma {:induction false} SeenAgain(before: Option<Hash>, slot: Slot, b: BlockID, prev: BlockID, refs: seq<BlockID>)
    requires prev.AsSlot() == slot ==> before.Some?
    ensures Seen(before, slot, [b] + ([prev] + refs)) == Seen(before, slot, [b] + refs)
  {
    if refs == [] {
      assert [b] + ([prev] + refs) == [b, prev] && [b] + refs == [b];
      assert [b, prev][..1] == [b];
      if before.Some? { SeenKeeps(before.value, slot, [b]); }
    } else {
      var init := refs[..|refs| - 1];
      SeenAgain(before, slot, b, prev, init);
      assert ([b] + ([prev] + refs))[..|refs| + 1] == [b] + ([prev] + init);
      assert ([b] + refs)[..|refs|] == [b] + init;
    }
  }

  /** An old history has met nothing of a slot still to be delivered. */
  lemma {:induction false} OldSeesNothing(cfg: Config, dag: Dag, slot: Slot, b: BlockID)
    requires DagValid(cfg, dag) && b in dag.links && Below(dag, b, slot.round)
    ensures FirstSeen(dag, slot, b).None?
    decreases b.round
  {
    assert BlockOk(cfg, dag, b);
    var prev := dag.links[b].prev;
    if prev in dag.links && prev.round < b.round {
      assert BlockOk(cfg, dag, prev);
      assert prev in LinksOf(dag, b);
      OldSeesNothing(cfg, dag, slot, prev);
    }
    OldRefs(cfg, dag, slot, b, dag.links[b].refs);
  }

  lemma {:induction false} OldRefs(cfg: Config, dag: Dag, slot: Slot, b: BlockID, refs: seq<BlockID>)
    requires DagValid(cfg, dag) && b in dag.links && Below(dag, b, slot.round)
    requires forall l | l in refs :: l in dag.links[b].refs
    ensures Seen(None, slot, [b] + refs).None?
  {
    assert BlockOk(cfg, dag, b);
    if refs == [] {
      assert ([b] + refs)[..0] == [];
    } else {
      var last := refs[|refs| - 1];
      OldRefs(cfg, dag, slot, b, refs[..|refs| - 1]);
      assert ([b] + refs)[..|refs|] == [b] + refs[..|refs| - 1];
      assert last in LinksOf(dag, b);
      assert BlockOk(cfg, dag, last);
    }
  }

  /** What was met is a block of the slot. */
  lemma {:induction false} SeenIsBlock(cfg: Config, dag: Dag, slot: Slot, b: BlockID)
    requires DagValid(cfg, dag) && b in dag.links && FirstSeen(dag, slot, b).Some?
    ensures BlockID(FirstSeen(dag, slot, b).value, slot.node, slot.round) in dag.links
    decreases b.round
  {
    assert BlockOk(cfg, dag, b);
    var before := SeenBefore(dag, slot, b);
    if before.Some? {
      SeenIsBlock(cfg, dag, slot, dag.links[b].prev);
    }
    assert forall l | l in dag.links[b].refs :: l in LinksOf(dag, b);
    SeenAmong(dag, slot, before, [b] + dag.links[b].refs);
  }

  lemma {:induction false} SeenAmong(dag: Dag, slot: Slot, before: Option<Hash>, ids: seq<BlockID>)
    requires forall l | l in ids :: l in dag.links
    requires before.Some? ==> BlockID(before.value, slot.node, slot.round) in dag.links
    ensures Seen(before, slot, ids).Some? ==> BlockID(Seen(before, slot, ids).value, slot.node, slot.round) in dag.links
  {
    if ids != [] { SeenAmong(dag, slot, before, ids[..|ids| - 1]); }
  }

  // ---------------------------------------------------------------------------
  // One block.

  /** The output of block `d`: it opens the slot exactly when it is the slot's. */
  ghost predicate OutputOk(t: Tally, d: BlockID, out: seq<Message>) {
    && (forall m | m in out :: Opens(t, OpeningOf(t, d), m))
    && (d.AsSlot() == t.slot ==> PrePrepare(d.hash, t.slot, 0) in out)
  }

  function OpeningOf(t: Tally, d: BlockID): Option<Hash> {
    if d.AsSlot() == t.slot then Some(d.hash) else None
  }

  lemma CloneOk(t: Tally, s: State, seen: Option<Hash>, minround: nat)
    requires StateOk(t, s, seen) && minround <= t.slot.round
    ensures StateOk(t, s.Clone(minround), seen)
  {
    forall h ensures BallotOk(t, h, s.Clone(minround).VotesFor(Ballot(h, t.slot, 0))) {
      assert BallotOk(t, h, s.VotesFor(Ballot(h, t.slot, 0)));
    }
  }

  lemma {:induction false} FireOk(t: Tally, s: State, node: nat, ts: seq<Timeout>, seen: Option<Hash>)
    requires StateOk(t, s, seen)
    ensures var f := FireAll(s, node, ts);
            StateOk(t, f.state, seen) && forall m | m in f.out :: MessageOk(t, m) && m.ViewChange?
  {
    if ts != [] {
      FireOk(t, s, node, ts[..|ts| - 1], seen);
      var f := FireAll(s, node, ts[..|ts| - 1]);
      BallotsUnchanged(t, f.state, FireOne(f, node, ts[|ts| - 1]).state);
    }
  }

  ghost predicate ProgressOk(t: Tally, b: BlockID, p: Progress, seen: Option<Hash>) {
    && (p.graph.status.Running? ==> WorkOk(t, p.work, seen))
    && (forall m | m in p.out :: Opens(t, OpeningOf(t, b), m))
    && (b.AsSlot() == t.slot ==> PrePrepare(b.hash, t.slot, 0) in p.out)
  }

  /** One batch of `process`, given what its sender's block is. */
  lemma BatchStep(t: Tally, cfg: Config, b: BlockID, p: Progress, sender: BlockID, msgs: seq<Message>, seen: Option<Hash>)
    requires cfg.nodes != [] && t.quorum == cfg.Quorum() && p.work.Valid()
    requires ProgressOk(t, b, p, seen) && forall m | m in msgs :: Opens(t, OpeningOf(t, sender), m)
    requires sender.AsSlot() == t.slot ==> PrePrepare(sender.hash, t.slot, 0) in msgs
    requires var seen' := Opened(seen, OpeningOf(t, sender)); seen'.Some? ==> Vote(b.node, seen'.value) in t.votes
    ensures ProgressOk(t, b, Batch(cfg, p, sender.node, b.node, msgs), Opened(seen, OpeningOf(t, sender)))
  {
    if p.graph.status.Running? {
      BatchOk(t, p.work.(decided := []), sender.node, b.node, msgs, seen, OpeningOf(t, sender));
    }
  }

  /** What a run's past states say about the slot. */
  ghost predicate LogOk(dag: Dag, t: Tally, log: map<BlockID, State>) {
    forall b | b in log :: b in dag.links && StateOk(t, log[b], FirstSeen(dag, t.slot, b)) && OutputOk(t, b, log[b].out)
  }

  /** A dependency's output as `process` finds it: one that was pruned is too old. */
  lemma DependencyOutput(cfg: Config, dag: Dag, t: Tally, g: Graph, log: map<BlockID, State>, d: BlockID)
    requires DagValid(cfg, dag) && StatesOk(dag, g, log) && LogOk(dag, t, log) && 1 <= t.slot.round
    requires d in log || d == NO_BLOCK
    requires g.round <= t.slot.round
    ensures OutputOk(t, d, Output(g, d))
  {
    if d in log {
      assert BlockOk(cfg, dag, d);
    }
  }

  /** What the chain of `b` has met after the first `n` dependencies. */
  function SeenUpTo(dag: Dag, slot: Slot, b: BlockID, deps: seq<BlockID>): Option<Hash>
    requires b in dag.links
  {
    Seen(SeenBefore(dag, slot, b), slot, [b] + deps)
  }

  lemma SeenSelf(dag: Dag, slot: Slot, b: BlockID)
    requires b in dag.links
    ensures SeenUpTo(dag, slot, b, []) == Opened(SeenBefore(dag, slot, b), if b.AsSlot() == slot then Some(b.hash) else None)
  {
    assert [b] + [] == [b] && [b][..0] == [];
    assert Seen(SeenBefore(dag, slot, b), slot, []) == SeenBefore(dag, slot, b);
  }

  lemma SeenUpToLast(dag: Dag, slot: Slot, b: BlockID, deps: seq<BlockID>)
    requires b in dag.links && deps != []
    ensures var last := deps[|deps| - 1];
            SeenUpTo(dag, slot, b, deps) ==
            Opened(SeenUpTo(dag, slot, b, deps[..|deps| - 1]), if last.AsSlot() == slot then Some(last.hash) else None)
  {
    assert ([b] + deps)[..|deps|] == [b] + deps[..|deps| - 1];
  }

  lemma {:induction false} BatchesOk(cfg: Config, dag: Dag, t: Tally, log: map<BlockID, State>, admitted: set<BlockID>,
                                     b: BlockID, p: Progress, deps: seq<BlockID>)
    requires cfg.nodes != [] && DagValid(cfg, dag) && t.quorum == cfg.Quorum() && 1 <= t.slot.round && b in dag.links
    requires p.work.Valid() && p.work.cells == p.graph.cells && Safe(dag, p.graph, admitted, log) && LogOk(dag, t, log)
    requires forall d | d in deps :: d in log || d == NO_BLOCK
    requires ProgressOk(t, b, p, SeenUpTo(dag, t.slot, b, []))
    requires Batches(cfg, p, b.node, deps).graph.round <= t.slot.round
    requires forall i | 0 <= i <= |deps| :: VotesFirst(dag, t, b, deps[..i])
    ensures ProgressOk(t, b, Batches(cfg, p, b.node, deps), SeenUpTo(dag, t.slot, b, deps))
  {
    if deps != [] {
      var init, d := deps[..|deps| - 1], deps[|deps| - 1];
      var p1 := Batches(cfg, p, b.node, init);
      BatchesSettle(cfg, p, b.node, init);
      BatchesSafe(cfg, dag, p, b.node, init, admitted, log);
      BatchSettles(cfg, p1, d.node, b.node, Output(p1.graph, d));
      forall i | 0 <= i <= |init| ensures VotesFirst(dag, t, b, init[..i]) {
        assert init[..i] == deps[..i];
        assert VotesFirst(dag, t, b, deps[..i]);
      }
      assert deps[..|deps|] == deps;
      assert VotesFirst(dag, t, b, deps[..|deps|]);
      hide DagValid, LogOk, ProgressOk;
      BatchesOk(cfg, dag, t, log, admitted, b, p, init);
      DependencyOutput(cfg, dag, t, p1.graph, log, d);
      SeenUpToLast(dag, t.slot, b, deps);
      BatchStep(t, cfg, b, p1, d, Output(p1.graph, d), SeenUpTo(dag, t.slot, b, init));
    }
  }

  /** What `b` has met after `deps` is a vote of its node. */
  ghost predicate VotesFirst(dag: Dag, t: Tally, b: BlockID, deps: seq<BlockID>)
    requires b in dag.links
  {
    var seen := SeenUpTo(dag, t.slot, b, deps);
    seen.Some? ==> Vote(b.node, seen.value) in t.votes
  }

  lemma {:induction false} SeenOnce(dag: Dag, slot: Slot, b: BlockID, deps: seq<BlockID>, i: nat)
    requires b in dag.links && i <= |deps| && SeenUpTo(dag, slot, b, deps[..i]).Some?
    ensures SeenUpTo(dag, slot, b, deps) == SeenUpTo(dag, slot, b, deps[..i])
    decreases |deps|
  {
    if i == |deps| {
      assert deps[..i] == deps;
    } else {
      SeenUpToLast(dag, slot, b, deps);
      assert deps[..|deps| - 1][..i] == deps[..i];
      SeenOnce(dag, slot, b, deps[..|deps| - 1], i);
    }
  }

  /** The entry's dependencies show the chain what the DAG says it meets. */
  lemma EntrySeen(cfg: Config, dag: Dag, slot: Slot, e: Entry)
    requires DagValid(cfg, dag) && EntryOf(dag, e) && slot.round >= 1
    ensures SeenUpTo(dag, slot, e.block, e.deps) == FirstSeen(dag, slot, e.block)
  {
    var b := e.block;
    assert BlockOk(cfg, dag, b);
    if e.deps == [e.prev] + dag.links[b].refs {
      if e.prev.AsSlot() == slot {
        assert BlockOk(cfg, dag, e.prev);
        PrevSlotSeen(dag, slot, e.prev);
      }
      SeenAgain(SeenBefore(dag, slot, b), slot, b, e.prev, dag.links[b].refs);
    }
  }

  lemma PrevSlotSeen(dag: Dag, slot: Slot, b: BlockID)
    requires b in dag.links && b.AsSlot() == slot
    ensures FirstSeen(dag, slot, b).Some?
  {
    var refs := dag.links[b].refs;
    assert refs[..0] == [];
    assert [b] + refs[..0] == [b] && [b][..0] == [];
    SeenOnce(dag, slot, b, refs, 0);
  }

  lemma EntryVotes(cfg: Config, dag: Dag, slot: Slot, e: Entry)
    requires cfg.nodes != [] && DagValid(cfg, dag) && EntryOf(dag, e) && slot.round >= 1
    ensures forall i | 0 <= i <= |e.deps| :: VotesFirst(dag, TallyOf(cfg, dag, slot), e.block, e.deps[..i])
  {
    EntrySeen(cfg, dag, slot, e);
    forall i | 0 <= i <= |e.deps| ensures VotesFirst(dag, TallyOf(cfg, dag, slot), e.block, e.deps[..i]) {
      if SeenUpTo(dag, slot, e.block, e.deps[..i]).Some? {
        SeenOnce(dag, slot, e.block, e.deps, i);
      }
    }
  }

  lemma StartOk(cfg: Config, dag: Dag, t: Tally, g: Graph, log: map<BlockID, State>, e: Entry)
    requires DagValid(cfg, dag) && EntryOf(dag, e) && StatesOk(dag, g, log) && LogOk(dag, t, log)
    requires g.round <= t.slot.round && forall l | l in LinksOf(dag, e.block) :: l in log
    ensures StateOk(t, StartState(g, e.prev), SeenBefore(dag, t.slot, e.block))
  {
    var b := e.block;
    assert BlockOk(cfg, dag, b);
    if b.round > 1 {
      assert e.prev in LinksOf(dag, b);
      if e.prev in g.statess {
        CloneOk(t, g.statess[e.prev], FirstSeen(dag, t.slot, e.prev), g.round);
      } else {
        OldSeesNothing(cfg, dag, t.slot, e.prev);
      }
    }
  }

  /** The messages a block starts from. */
  lemma OwnOk(cfg: Config, dag: Dag, t: Tally, g: Graph, log: map<BlockID, State>, e: Entry, fired: seq<Timeout>)
    requires cfg.nodes != [] && DagValid(cfg, dag) && EntryOf(dag, e) && StatesOk(dag, g, log) && LogOk(dag, t, log) && CellsOk(g)
    requires t == TallyOf(cfg, dag, t.slot)
    requires g.round <= t.slot.round && forall l | l in LinksOf(dag, e.block) :: l in log
    ensures var own := OwnMessages(e, FireAll(StartState(g, e.prev), e.block.node, fired));
            && ProgressOk(t, e.block, Progress(g, StartWork(g, e, fired), own, []), SeenBefore(dag, t.slot, e.block))
            && OutputOk(t, e.block, own)
  {
    StartOk(cfg, dag, t, g, log, e);
    FireOk(t, StartState(g, e.prev), e.block.node, fired, SeenBefore(dag, t.slot, e.block));
    var f := FireAll(StartState(g, e.prev), e.block.node, fired);
    var own := OwnMessages(e, f);
    forall m | m in own ensures Opens(t, OpeningOf(t, e.block), m) {
      if m == own[0] {
        assert e.block.AsSlot() == t.slot ==> Vote(t.slot.node, e.block.hash) in t.votes;
      } else {
        assert m in f.out;
      }
    }
    assert own[0] in own;
  }

  /** The first batch of `process`: the block's own messages. */
  lemma OwnBatchOk(cfg: Config, dag: Dag, t: Tally, g: Graph, log: map<BlockID, State>, e: Entry, fired: seq<Timeout>)
    requires cfg.nodes != [] && DagValid(cfg, dag) && EntryOf(dag, e) && StatesOk(dag, g, log) && LogOk(dag, t, log) && CellsOk(g)
    requires t == TallyOf(cfg, dag, t.slot) && 1 <= t.slot.round
    requires g.round <= t.slot.round && forall l | l in LinksOf(dag, e.block) :: l in log
    ensures ProgressOk(t, e.block, OwnBatch(cfg, g, e, fired), SeenUpTo(dag, t.slot, e.block, []))
  {
    var b := e.block;
    OwnOk(cfg, dag, t, g, log, e, fired);
    EntryVotes(cfg, dag, t.slot, e);
    SeenSelf(dag, t.slot, b);
    assert e.deps[..0] == [];
    assert VotesFirst(dag, t, b, e.deps[..0]);
    var own := OwnMessages(e, FireAll(StartState(g, e.prev), b.node, fired));
    BatchStep(t, cfg, b, Progress(g, StartWork(g, e, fired), own, []), b, own, SeenBefore(dag, t.slot, b));
  }

  lemma EntryDepsLogged(cfg: Config, dag: Dag, e: Entry, log: map<BlockID, State>)
    requires DagValid(cfg, dag) && EntryOf(dag, e) && forall l | l in LinksOf(dag, e.block) :: l in log
    ensures forall d | d in e.deps :: d in log || d == NO_BLOCK
  {
    assert BlockOk(cfg, dag, e.block);
    forall d | d in e.deps ensures d in log || d == NO_BLOCK {
      if d != NO_BLOCK { assert d in LinksOf(dag, e.block); }
    }
  }

  lemma InterpretationOk(cfg: Config, dag: Dag, t: Tally, tr: Trace, e: Entry, fired: seq<Timeout>)
    requires cfg.nodes != [] && DagValid(cfg, dag) && Pruning(dag, tr) && LogOk(dag, t, tr.log)
    requires t == TallyOf(cfg, dag, t.slot) && 1 <= t.slot.round
    requires MayInterpret(cfg, dag, tr, e, fired)
    requires Evaluate(cfg, tr.graph, e, fired).graph.round <= t.slot.round
    ensures ProgressOk(t, e.block, Evaluate(cfg, tr.graph, e, fired), FirstSeen(dag, t.slot, e.block))
  {
    var g, b := tr.graph, e.block;
    var p1 := OwnBatch(cfg, g, e, fired);
    OwnBatchSettles(cfg, g, e, fired);
    BatchesSettle(cfg, p1, b.node, e.deps);
    OwnBatchOk(cfg, dag, t, g, tr.log, e, fired);
    OwnBatchSafe(cfg, dag, g, e, fired, tr.admitted, tr.log);
    EntryDepsLogged(cfg, dag, e, tr.log);
    EntryVotes(cfg, dag, t.slot, e);
    BatchesOk(cfg, dag, t, tr.log, tr.admitted, b, p1, e.deps);
    EntrySeen(cfg, dag, t.slot, e);
  }

  lemma StartLogOk(cfg: Config, dag: Dag, slot: Slot, last: nat, past: set<BlockID>)
    requires cfg.nodes != [] && DagValid(cfg, dag) && MayStart(dag, last, past) && last + 1 <= slot.round
    ensures LogOk(dag, TallyOf(cfg, dag, slot), Start(last, past).log)
  {
    var t := TallyOf(cfg, dag, slot);
    forall b | b in past ensures b in dag.links && StateOk(t, FRESH, FirstSeen(dag, slot, b)) && OutputOk(t, b, FRESH.out) {
      assert BlockOk(cfg, dag, b);
      OldSeesNothing(cfg, dag, slot, b);
    }
  }

  lemma NewStateOk(cfg: Config, dag: Dag, t: Tally, tr: Trace, e: Entry, fired: seq<Timeout>)
    requires cfg.nodes != [] && DagValid(cfg, dag) && Pruning(dag, tr) && LogOk(dag, t, tr.log)
    requires t == TallyOf(cfg, dag, t.slot) && 1 <= t.slot.round && MayInterpret(cfg, dag, tr, e, fired)
    requires var p := Evaluate(cfg, tr.graph, e, fired); p.graph.status.Running? && p.graph.round <= t.slot.round
    ensures var p := Evaluate(cfg, tr.graph, e, fired);
            StateOk(t, p.work.state.(out := p.out), FirstSeen(dag, t.slot, e.block)) && OutputOk(t, e.block, p.out)
  {
    hide DagValid, LogOk, TallyOf, Evaluate, FirstSeen, MayInterpret;
    InterpretationOk(cfg, dag, t, tr, e, fired);
    var p := Evaluate(cfg, tr.graph, e, fired);
    BallotsUnchanged(t, p.work.state, p.work.state.(out := p.out));
  }

  lemma StepLogOk(cfg: Config, dag: Dag, t: Tally, tr: Trace, step: Step)
    requires cfg.nodes != [] && DagValid(cfg, dag) && Pruning(dag, tr) && LogOk(dag, t, tr.log)
    requires t == TallyOf(cfg, dag, t.slot) && 1 <= t.slot.round && MayStep(cfg, dag, tr, step)
    requires TakeStep(cfg, tr, step).graph.round <= t.slot.round
    ensures LogOk(dag, t, TakeStep(cfg, tr, step).log)
  {
    hide DagValid, TallyOf, StateOk, OutputOk, FirstSeen, Evaluate, Process, CellsOk, BoundsOk, StatesOk, LinksOf;
    match step
    case Admission(data) =>
    case Interpretation(e, fired) =>
      StepLog(cfg, tr, e, fired);
      hide TakeStep;
      if Evaluate(cfg, tr.graph, e, fired).graph.status.Running? { NewStateOk(cfg, dag, t, tr, e, fired); }
  }

  /** In every run, all that was ever computed about a slot is backed by votes of
      the DAG, as long as the slot is undelivered. */
  lemma {:induction false} RunOk(cfg: Config, dag: Dag, slot: Slot, last: nat, past: set<BlockID>, steps: seq<Step>, tr: Trace)
    requires cfg.nodes != [] && DagValid(cfg, dag) && Run(cfg, dag, last, past, steps, tr)
    requires 1 <= slot.round && tr.graph.round <= slot.round
    ensures LogOk(dag, TallyOf(cfg, dag, slot), tr.log)
  {
    if steps == [] {
      StartLogOk(cfg, dag, slot, last, past);
    } else {
      var init, step := steps[..|steps| - 1], steps[|steps| - 1];
      var t0 :| Run(cfg, dag, last, past, init, t0) && CellsOk(t0.graph) && MayStep(cfg, dag, t0, step) && tr == TakeStep(cfg, t0, step);
      PruningIsSafe(cfg, dag, last, past, init, t0);
      if step.Interpretation? { ProcessKeeps(cfg, t0.graph, step.entry, step.fired); }
      RunOk(cfg, dag, slot, last, past, init, t0);
      StepLogOk(cfg, dag, TallyOf(cfg, dag, slot), t0, step);
    }
  }

  // ---------------------------------------------------------------------------
  // Quorums.

  /** `p` signed two blocks for one round. */
  ghost predicate Forks(dag: Dag, p: nat) {
    exists b, b' :: b in dag.links && b' in dag.links && b != b' && b.node == b'.node == p && b.round == b'.round
  }

  ghost function Forkers(cfg: Config, dag: Dag): set<nat> {
    set p | p in cfg.nodes && Forks(dag, p)
  }

  /** A chain keeps what it met first. */
  lemma {:induction false} ChainKeepsFirst(cfg: Config, dag: Dag, slot: Slot, b: BlockID, b': BlockID)
    requires DagValid(cfg, dag) && b in dag.links && b' in dag.links && b.node == b'.node && !Forks(dag, b.node)
    requires b.round <= b'.round && FirstSeen(dag, slot, b).Some?
    ensures FirstSeen(dag, slot, b') == FirstSeen(dag, slot, b)
    decreases b'.round
  {
    assert BlockOk(cfg, dag, b) && BlockOk(cfg, dag, b');
    if b.round < b'.round {
      var prev := dag.links[b'].prev;
      ChainKeepsFirst(cfg, dag, slot, b, prev);
      SeenKeeps(FirstSeen(dag, slot, b).value, slot, [b'] + dag.links[b'].refs);
    }
  }

  lemma OneVote(cfg: Config, dag: Dag, slot: Slot, p: nat, h1: Hash, h2: Hash)
    requires cfg.nodes != [] && DagValid(cfg, dag) && !Forks(dag, p)
    requires Vote(p, h1) in TallyOf(cfg, dag, slot).votes && Vote(p, h2) in TallyOf(cfg, dag, slot).votes
    ensures h1 == h2
  {
    if slot.node == p {
      OwnVote(cfg, dag, slot, h1);
      OwnVote(cfg, dag, slot, h2);
    } else {
      var b1 :| b1 in dag.links && b1.node == p && FirstSeen(dag, slot, b1) == Some(h1);
      var b2 :| b2 in dag.links && b2.node == p && FirstSeen(dag, slot, b2) == Some(h2);
      if b1.round <= b2.round {
        ChainKeepsFirst(cfg, dag, slot, b1, b2);
      } else {
        ChainKeepsFirst(cfg, dag, slot, b2, b1);
      }
    }
  }

  lemma OwnVote(cfg: Config, dag: Dag, slot: Slot, h: Hash)
    requires cfg.nodes != [] && DagValid(cfg, dag) && Vote(slot.node, h) in TallyOf(cfg, dag, slot).votes
    ensures BlockID(h, slot.node, slot.round) in dag.links
  {
    if b :| b in dag.links && b.node == slot.node && FirstSeen(dag, slot, b) == Some(h) {
      SeenIsBlock(cfg, dag, slot, b);
    }
  }

  /** With n = 3f + 1, two quorums share more nodes than can be faulty. */
  lemma QuorumsMeet(all: set<nat>, a: set<nat>, b: set<nat>, f: nat)
    requires a <= all && b <= all && |all| == 3 * f + 1 && |a| >= 2 * f + 1 && |b| >= 2 * f + 1
    ensures |a * b| >= f + 1
  {
    assert |a + b| == |a| + |b| - |a * b|;
    SubsetSize(a + b, all);
  }

  /** So they share one that is not among few. */
  lemma QuorumsShare(all: set<nat>, a: set<nat>, b: set<nat>, few: set<nat>, f: nat) returns (p: nat)
    requires a <= all && b <= all && |all| == 3 * f + 1 && |a| >= 2 * f + 1 && |b| >= 2 * f + 1 && |few| <= f
    ensures p in a && p in b && p !in few
  {
    QuorumsMeet(all, a, b, f);
    if a * b <= few { SubsetSize(a * b, few); }
    p :| p in a * b && p !in few;
  }

  lemma CertifiedAgree(cfg: Config, dag: Dag, slot: Slot, h1: Hash, h2: Hash)
    requires cfg.Valid() && |cfg.nodes| % 3 == 1 && DagValid(cfg, dag) && |Forkers(cfg, dag)| <= cfg.Faults()
    requires TallyOf(cfg, dag, slot).Certified(h1) && TallyOf(cfg, dag, slot).Certified(h2)
    ensures h1 == h2
  {
    var t := TallyOf(cfg, dag, slot);
    assert t.quorum == 2 * cfg.Faults() + 1;
    hide TallyOf, DagValid, Forks;
    ElementCount(cfg.nodes);
    VotersAreMembers(cfg, dag, slot, h1);
    VotersAreMembers(cfg, dag, slot, h2);
    var p := QuorumsShare(Elements(cfg.nodes), t.Voters(h1), t.Voters(h2), Forkers(cfg, dag), cfg.Faults());
    assert Vote(p, h1) in t.votes && Vote(p, h2) in t.votes && p in Elements(cfg.nodes);
    OneVote(cfg, dag, slot, p, h1, h2);
  }

  lemma VotersAreMembers(cfg: Config, dag: Dag, slot: Slot, h: Hash)
    requires cfg.nodes != [] && DagValid(cfg, dag)
    ensures TallyOf(cfg, dag, slot).Voters(h) <= Elements(cfg.nodes)
  {
    forall p | p in TallyOf(cfg, dag, slot).Voters(h) ensures p in Elements(cfg.nodes) {
      assert Vote(p, h) in TallyOf(cfg, dag, slot).votes;
      var b :| b in dag.links && b.node == p;
      assert BlockOk(cfg, dag, b);
    }
  }

  /** The state holds a prepare quorum for `h` in view 0, or someone's commit. */
  ghost predicate Backs(cfg: Config, s: State, slot: Slot, h: Hash)
    requires cfg.nodes != []
  {
    var v := s.VotesFor(Ballot(h, slot, 0));
    |v.prepares| >= cfg.Quorum() || v.commits != {}
  }

  /** Two graphs, each after any run over the DAG, never back different hashes. */
  lemma ViewZeroAgreement(cfg: Config, dag: Dag, slot: Slot,
                          last1: nat, past1: set<BlockID>, steps1: seq<Step>, t1: Trace, b1: BlockID, h1: Hash,
                          last2: nat, past2: set<BlockID>, steps2: seq<Step>, t2: Trace, b2: BlockID, h2: Hash)
    requires cfg.Valid() && |cfg.nodes| % 3 == 1 && DagValid(cfg, dag) && |Forkers(cfg, dag)| <= cfg.Faults()
    requires 1 <= slot.round && t1.graph.round <= slot.round && t2.graph.round <= slot.round
    requires Run(cfg, dag, last1, past1, steps1, t1) && b1 in t1.log && Backs(cfg, t1.log[b1], slot, h1)
    requires Run(cfg, dag, last2, past2, steps2, t2) && b2 in t2.log && Backs(cfg, t2.log[b2], slot, h2)
    ensures h1 == h2
  {
    RunOk(cfg, dag, slot, last1, past1, steps1, t1);
    RunOk(cfg, dag, slot, last2, past2, steps2, t2);
    BackedIsCertified(cfg, dag, slot, t1.log, b1, h1);
    BackedIsCertified(cfg, dag, slot, t2.log, b2, h2);
    CertifiedAgree(cfg, dag, slot, h1, h2);
  }

  lemma BackedIsCertified(cfg: Config, dag: Dag, slot: Slot, log: map<BlockID, State>, b: BlockID, h: Hash)
    requires cfg.nodes != [] && LogOk(dag, TallyOf(cfg, dag, slot), log) && b in log && Backs(cfg, log[b], slot, h)
    ensures TallyOf(cfg, dag, slot).Certified(h)
  {
    var t := TallyOf(cfg, dag, slot);
    var v := log[b].VotesFor(Ballot(h, slot, 0));
    assert BallotOk(t, h, v);
    SubsetSize(v.prepares, t.Voters(h));
  }
}

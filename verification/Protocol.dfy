/** One step of the simulated protocol: how the state that a node's chain has
    reached changes when a message is interpreted, and what it answers. */
module Protocol {
  import opened Messages
  import opened Sets

  datatype Config = Config(nodes: seq<nat>) {
    ghost predicate Valid() {
      nodes != [] && Distinct(nodes)
    }

    function Faults(): nat
      requires nodes != []
    {
      (|nodes| - 1) / 3
    }

    function Quorum(): nat
      requires nodes != []
    {
      2 * Faults() + 1
    }
  }

  /** What votes are counted for: the source keys them by a pre-prepare message. */
  datatype Ballot = Ballot(hash: Hash, slot: Slot, view: nat)

  datatype Key = Key(slot: Slot, view: nat)

  datatype Votes = Votes(commits: set<nat>, prepares: set<nat>)

  /** A map of view-change votes. The source keeps a Go map behind a reference
      that every clone of a state shares, so cells live outside the states. */
  datatype Cell = Cell(key: Key, votes: map<nat, Hash>)

  datatype State = State(
    bitsets: map<Ballot, Votes>,
    views: map<Slot, nat>,
    prePrepared: map<Key, Hash>,
    prepared: map<Key, Hash>,
    hnv: set<Key>,
    viewChanged: map<Key, nat>,
    final: map<Slot, Hash>,
    out: seq<Message>)
  {
    function View(slot: Slot): nat {
      if slot in views then views[slot] else 0
    }

    function VotesFor(b: Ballot): Votes {
      if b in bitsets then bitsets[b] else Votes({}, {})
    }

    function AddPrepares(b: Ballot, ids: set<nat>): State {
      var v := VotesFor(b);
      this.(bitsets := bitsets[b := v.(prepares := v.prepares + ids)])
    }

    function AddCommit(b: Ballot, id: nat): State {
      var v := VotesFor(b);
      this.(bitsets := bitsets[b := v.(commits := v.commits + {id})])
    }

    /** `clone`: the copy keeps what concerns rounds from `minround` on. */
    function Clone(minround: nat): State {
      State(
        map b | b in bitsets && b.slot.round >= minround :: bitsets[b],
        map s | s in views && s.round >= minround :: views[s],
        map k | k in prePrepared && k.slot.round >= minround :: prePrepared[k],
        map k | k in prepared && k.slot.round >= minround :: prepared[k],
        set k | k in hnv && k.slot.round >= minround,
        map k | k in viewChanged && k.slot.round >= minround :: viewChanged[k],
        map s | s in final && s.round >= minround :: final[s],
        [])
    }
  }

  const FRESH := State(map[], map[], map[], map[], {}, map[], map[], [])

  /** The result of interpreting one message. */
  datatype Outcome = Outcome(state: State, cells: seq<Cell>, response: Option<Message>, decided: Option<Hash>, fatal: bool)

  predicate CellsWellFormed(s: State, cells: seq<Cell>) {
    forall k | k in s.viewChanged :: s.viewChanged[k] < |cells| && cells[s.viewChanged[k]].key == k
  }

  /** Cells are only added, and keep the key they were made for. */
  predicate Grows(cells: seq<Cell>, cells': seq<Cell>) {
    |cells| <= |cells'| && forall i | 0 <= i < |cells| :: cells'[i].key == cells[i].key
  }

  function NonEmptyHashes(votes: map<nat, Hash>): set<Hash> {
    set n | n in votes && votes[n] != [] :: votes[n]
  }

  /** `getView`, which records the default for a slot it has not met. */
  function WithView(s: State, slot: Slot): State {
    if slot in s.views then s else s.(views := s.views[slot := 0])
  }

  /** A response is about the same slot and ranks strictly below its message. */
  predicate Answers(o: Outcome, m: Message) {
    o.response.Some? ==> o.response.value.Rank() < m.Rank() && o.response.value.slot == m.slot
  }

  function ProcessMessage(quorum: nat, s0: State, cells: seq<Cell>, sender: nat, receiver: nat, m: Message): (o: Outcome)
    requires CellsWellFormed(s0, cells)
    ensures CellsWellFormed(o.state, o.cells) && Grows(cells, o.cells)
    ensures Answers(o, m)
  {
    var s := WithView(s0, m.slot);
    match m
    case PrePrepare(_, _, _) => OnPrePrepare(s, cells, sender, receiver, m)
    case Prepare(_, _, _, _) => OnPrepare(quorum, s, cells, receiver, m)
    case Commit(_, _, _, _) => OnCommit(quorum, s, cells, m)
    case ViewChange(_, _, _, _) => OnViewChange(quorum, s, cells, receiver, m)
    case NewView(_, _, _, _) => OnNewView(s, cells, m)
  }

  function Ignore(s: State, cells: seq<Cell>): Outcome {
    Outcome(s, cells, None, None, false)
  }

  function OnPrePrepare(s: State, cells: seq<Cell>, sender: nat, receiver: nat, m: Message): (o: Outcome)
    requires m.PrePrepare?
    ensures Answers(o, m)
    ensures o.state.viewChanged == s.viewChanged && o.cells == cells
  {
    var key := Key(m.slot, m.view);
    if s.View(m.slot) != m.view || key in s.prePrepared then Ignore(s, cells)
    else
      var s1 := s.AddPrepares(Ballot(m.hash, m.slot, m.view), {sender, receiver});
      Outcome(s1.(prePrepared := s1.prePrepared[key := m.hash]), cells,
              Some(Prepare(m.hash, m.slot, receiver, m.view)), None, false)
  }

  function OnPrepare(quorum: nat, s: State, cells: seq<Cell>, receiver: nat, m: Message): (o: Outcome)
    requires m.Prepare?
    ensures Answers(o, m)
    ensures o.state.viewChanged == s.viewChanged && o.cells == cells
  {
    var ballot := Ballot(m.hash, m.slot, m.view);
    var key := Key(m.slot, m.view);
    if s.View(m.slot) > m.view then Ignore(s, cells)
    else
      var s1 := s.AddPrepares(ballot, {m.sender});
      if s.View(m.slot) < m.view || |s1.VotesFor(ballot).prepares| != quorum || receiver in s1.VotesFor(ballot).commits then
        Ignore(s1, cells)
      else
        var s2 := s1.AddCommit(ballot, receiver);
        var s3 := if key in s2.prepared then s2 else s2.(prepared := s2.prepared[key := m.hash]);
        Outcome(s3, cells, Some(Commit(m.hash, m.slot, receiver, m.view)), None, false)
  }

  function OnCommit(quorum: nat, s: State, cells: seq<Cell>, m: Message): (o: Outcome)
    requires m.Commit?
    ensures Answers(o, m)
    ensures o.state.viewChanged == s.viewChanged && o.cells == cells
  {
    var ballot := Ballot(m.hash, m.slot, m.view);
    if s.View(m.slot) < m.view then Ignore(s, cells)
    else
      var s1 := s.AddCommit(ballot, m.sender);
      if |s1.VotesFor(ballot).commits| != quorum || m.slot in s1.final then Ignore(s1, cells)
      else Outcome(s1.(final := s1.final[m.slot := m.hash]), cells, None, Some(m.hash), false)
  }

  /** The votes of the receiver's current view, with the vote of `m`. */
  function Gathered(s: State, cells: seq<Cell>, m: Message): map<nat, Hash>
    requires m.ViewChange? && CellsWellFormed(s, cells)
  {
    var key := Key(m.slot, s.View(m.slot));
    (if key in s.viewChanged then cells[s.viewChanged[key]].votes else map[])[m.sender := m.hash]
  }

  function OnViewChange(quorum: nat, s: State, cells: seq<Cell>, receiver: nat, m: Message): (o: Outcome)
    requires m.ViewChange? && CellsWellFormed(s, cells)
    ensures Answers(o, m)
    ensures CellsWellFormed(o.state, o.cells) && Grows(cells, o.cells)
    ensures o.state == s.(viewChanged := o.state.viewChanged, views := o.state.views)
    ensures forall x :: o.state.View(x) >= s.View(x)
    ensures o.response.Some? ==> o.response.value.NewView? && o.response.value.view == m.view
  {
    var v := s.View(m.slot);
    var key := Key(m.slot, v);
    if v > m.view then Ignore(s, cells)
    else
      var ref := if key in s.viewChanged then s.viewChanged[key] else |cells|;
      var votes := Gathered(s, cells, m);
      var cells1 := if key in s.viewChanged then cells[ref := Cell(key, votes)] else cells + [Cell(key, votes)];
      var s1 := s.(viewChanged := s.viewChanged[key := ref]);
      if |votes| != quorum then Ignore(s1, cells1)
      else
        var s2 := s1.(views := s1.views[m.slot := m.view]);
        var hashes := NonEmptyHashes(votes);
        if |hashes| > 1 then Outcome(s2, cells1, None, None, true)
        else Outcome(s2, cells1, Some(NewView(TheHash(hashes), m.slot, receiver, m.view)), None, false)
  }

  /** The hash a new view carries: the only non-empty vote, or none. */
  function TheHash(hashes: set<Hash>): (h: Hash)
    requires |hashes| <= 1
    ensures if hashes == {} then h == [] else hashes == {h}
  {
    if hashes == {} then []
    else
      var h :| h in hashes;
      SingletonSet(hashes, h);
      h
  }

  lemma SingletonSet(hashes: set<Hash>, h: Hash)
    requires |hashes| <= 1 && h in hashes
    ensures hashes == {h}
  {
    assert |hashes - {h}| == 0;
  }

  function OnNewView(s: State, cells: seq<Cell>, m: Message): (o: Outcome)
    requires m.NewView?
    ensures Answers(o, m)
    ensures o.state == s.(views := o.state.views, hnv := o.state.hnv) && o.cells == cells
    ensures forall x :: o.state.View(x) >= s.View(x)
  {
    var key := Key(m.slot, m.view);
    if s.View(m.slot) > m.view || key in s.hnv then Ignore(s, cells)
    else
      Outcome(s.(views := s.views[m.slot := m.view], hnv := s.hnv + {key}), cells,
              Some(PrePrepare(m.hash, m.slot, m.view)), None, false)
  }
}

/** The mutable state of one chain while a block is interpreted: `state` and
    `processMessage`, updated in place and proved to do what `Protocol` says. */
module ChainStates {
  import opened Messages
  import opened Protocol

  /** The hashes other than the empty one that `seen` voted for. */
  function HashesOf(votes: map<nat, Hash>, seen: set<nat>): set<Hash> {
    set n | n in seen && n in votes && votes[n] != [] :: votes[n]
  }

  /** Looks for the one non-empty hash, in whatever order the map gives its votes. */
  method CommonHash(votes: map<nat, Hash>) returns (hash: Hash, several: bool)
    ensures several <==> |NonEmptyHashes(votes)| > 1
    ensures !several ==> hash == TheHash(NonEmptyHashes(votes))
  {
    hide HashesOf, NonEmptyHashes;
    hash, several := [], false;
    var rest := votes.Keys;
    NoneYet(votes);
    assert votes.Keys - rest == {};
    while rest != {}
      invariant rest <= votes.Keys
      invariant if hash == [] then HashesOf(votes, votes.Keys - rest) == {} else HashesOf(votes, votes.Keys - rest) == {hash}
      decreases |rest|
    {
      var n :| n in rest;
      var hval := votes[n];
      ghost var seen := votes.Keys - rest;
      assert votes.Keys - (rest - {n}) == seen + {n};
      OneMoreVote(votes, seen, n);
      if hval != [] {
        if hash != [] && hval != hash {
          SomeSeen(votes, seen + {n});
          TwoHashes(votes, hash, hval);
          several := true;
          return;
        }
        hash := hval;
      }
      rest := rest - {n};
    }
    assert votes.Keys - {} == votes.Keys;
    SomeSeen(votes, votes.Keys);
  }

  lemma NoneYet(votes: map<nat, Hash>)
    ensures HashesOf(votes, {}) == {}
  {
  }

  lemma TwoHashes(votes: map<nat, Hash>, h1: Hash, h2: Hash)
    requires h1 != h2 && h1 in NonEmptyHashes(votes) && h2 in NonEmptyHashes(votes)
    ensures |NonEmptyHashes(votes)| > 1
  {
    var s := NonEmptyHashes(votes);
    assert h2 in s - {h1};
    assert |s| == |s - {h1}| + 1;
  }

  lemma SomeSeen(votes: map<nat, Hash>, seen: set<nat>)
    ensures HashesOf(votes, seen) <= NonEmptyHashes(votes)
    ensures seen == votes.Keys ==> HashesOf(votes, seen) == NonEmptyHashes(votes)
  {
  }

  lemma OneMoreVote(votes: map<nat, Hash>, seen: set<nat>, n: nat)
    requires n in votes
    ensures HashesOf(votes, seen + {n}) == HashesOf(votes, seen) + if votes[n] != [] then {votes[n]} else {}
  {
  }

  lemma AddTwice(s: State, b: Ballot, x: nat, y: nat)
    ensures s.AddPrepares(b, {x}).AddPrepares(b, {y}) == s.AddPrepares(b, {x, y})
  {
    var v := s.VotesFor(b).prepares;
    assert v + {x} + {y} == v + {x, y};
    assert s.bitsets[b := s.VotesFor(b).(prepares := v + {x})][b := s.VotesFor(b).(prepares := v + {x, y})] == s.bitsets[b := s.VotesFor(b).(prepares := v + {x, y})];
  }

  class ChainState {
    var bitsets: map<Ballot, Votes>
    var views: map<Slot, nat>
    var prePrepared: map<Key, Hash>
    var prepared: map<Key, Hash>
    var hnv: set<Key>
    var viewChanged: map<Key, nat>
    var final: map<Slot, Hash>
    var out: seq<Message>

    function Value(): State
      reads this
    {
      State(bitsets, views, prePrepared, prepared, hnv, viewChanged, final, out)
    }

    constructor (s: State)
      ensures Value() == s
    {
      bitsets, views, prePrepared, prepared := s.bitsets, s.views, s.prePrepared, s.prepared;
      hnv, viewChanged, final, out := s.hnv, s.viewChanged, s.final, s.out;
    }

    method GetView(slot: Slot) returns (v: nat)
      modifies this`views
      ensures Value() == WithView(old(Value()), slot) && v == old(Value()).View(slot)
    {
      if slot in views { return views[slot]; }
      views := views[slot := 0];
      v := 0;
    }

    method GetBitset(b: Ballot) returns (votes: Votes)
      modifies this`bitsets
      ensures votes == old(Value()).VotesFor(b) && Value() == old(Value()).(bitsets := old(bitsets)[b := votes])
    {
      if b !in bitsets { bitsets := bitsets[b := Votes({}, {})]; }
      votes := bitsets[b];
      assert bitsets == old(bitsets)[b := votes];
    }

    method SetPrepare(b: Ballot, id: nat)
      modifies this`bitsets
      ensures Value() == old(Value()).AddPrepares(b, {id})
    {
      var votes := GetBitset(b);
      bitsets := bitsets[b := votes.(prepares := votes.prepares + {id})];
    }

    method SetCommit(b: Ballot, id: nat)
      modifies this`bitsets
      ensures Value() == old(Value()).AddCommit(b, id)
    {
      var votes := GetBitset(b);
      bitsets := bitsets[b := votes.(commits := votes.commits + {id})];
    }

    method PrePrepare(v: nat, sender: nat, receiver: nat, m: Message, ghost cells: seq<Cell>) returns (response: Option<Message>)
      requires m.PrePrepare? && v == Value().View(m.slot)
      modifies this
      ensures OnPrePrepare(old(Value()), cells, sender, receiver, m) == Outcome(Value(), cells, response, None, false)
    {
      if v != m.view { return None; }
      var key := Key(m.slot, m.view);
      if key in prePrepared { return None; }
      var b := Ballot(m.hash, m.slot, m.view);
      SetPrepare(b, sender);
      SetPrepare(b, receiver);
      prePrepared := prePrepared[key := m.hash];
      response := Some(Message.Prepare(m.hash, m.slot, receiver, m.view));
      AddTwice(old(Value()), b, sender, receiver);
    }

    method Prepare(quorum: nat, v: nat, receiver: nat, m: Message, ghost cells: seq<Cell>) returns (response: Option<Message>)
      requires m.Prepare? && v == Value().View(m.slot)
      modifies this
      ensures OnPrepare(quorum, old(Value()), cells, receiver, m) == Outcome(Value(), cells, response, None, false)
    {
      if v > m.view { return None; }
      var b := Ballot(m.hash, m.slot, m.view);
      SetPrepare(b, m.sender);
      if v < m.view { return None; }
      if |bitsets[b].prepares| != quorum { return None; }
      if receiver in bitsets[b].commits { return None; }
      SetCommit(b, receiver);
      var key := Key(m.slot, m.view);
      if key !in prepared { prepared := prepared[key := m.hash]; }
      response := Some(Message.Commit(m.hash, m.slot, receiver, m.view));
    }

    method Commit(quorum: nat, v: nat, m: Message, ghost cells: seq<Cell>) returns (decided: Option<Hash>)
      requires m.Commit? && v == Value().View(m.slot)
      modifies this
      ensures OnCommit(quorum, old(Value()), cells, m) == Outcome(Value(), cells, None, decided, false)
    {
      if v < m.view { return None; }
      var b := Ballot(m.hash, m.slot, m.view);
      SetCommit(b, m.sender);
      if |bitsets[b].commits| != quorum { return None; }
      if m.slot in final { return None; }
      final := final[m.slot := m.hash];
      decided := Some(m.hash);
    }

    /** `cells` is the table of vote maps that the source shares between states. */
    method ViewChange(quorum: nat, v: nat, receiver: nat, m: Message, cells: seq<Cell>)
      returns (cells': seq<Cell>, response: Option<Message>, fatal: bool)
      requires m.ViewChange? && v == Value().View(m.slot) && CellsWellFormed(Value(), cells)
      modifies this
      ensures OnViewChange(quorum, old(Value()), cells, receiver, m) == Outcome(Value(), cells', response, None, fatal)
    {
      cells', response, fatal := cells, None, false;
      if v > m.view { return; }
      var key := Key(m.slot, v);
      if key !in viewChanged {
        cells' := cells' + [Cell(key, map[])];
        viewChanged := viewChanged[key := |cells|];
      }
      var ref := viewChanged[key];
      var vcs := cells'[ref].votes[m.sender := m.hash];
      cells' := cells'[ref := Cell(key, vcs)];
      assert vcs == Gathered(old(Value()), cells, m);
      assert viewChanged == old(viewChanged)[key := ref];
      if |vcs| != quorum { return; }
      views := views[m.slot := m.view];
      var hash, several := CommonHash(vcs);
      if several {
        fatal := true;
      } else {
        response := Some(Message.NewView(hash, m.slot, receiver, m.view));
      }
    }

    method NewView(v: nat, m: Message, ghost cells: seq<Cell>) returns (response: Option<Message>)
      requires m.NewView? && v == Value().View(m.slot)
      modifies this
      ensures OnNewView(old(Value()), cells, m) == Outcome(Value(), cells, response, None, false)
    {
      if v > m.view { return None; }
      var key := Key(m.slot, m.view);
      if key in hnv { return None; }
      views := views[m.slot := m.view];
      hnv := hnv + {key};
      response := Some(Message.PrePrepare(m.hash, m.slot, m.view));
    }
  }
}

/** The graph as the source runs it: one object updated in place, which delivers a
    round in the middle of interpreting a message. Its methods are proved to compute
    what `Delivery`, `Worklist` and `Interpreter` define. */
module LiveGraph {
  import opened Messages
  import opened Protocol
  import opened Worklist
  import opened Delivery
  import opened Interpreter
  import opened HashOrder
  import opened ChainStates
  import opened Sets

  /** What the callback is given. */
  datatype Report = Report(blocks: seq<BlockID>, consumed: int, round: nat)

  function Abstract(rs: seq<Report>): seq<Interpreted> {
    seq(|rs|, i requires 0 <= i < |rs| => Interpreted((set b | b in rs[i].blocks), rs[i].consumed, rs[i].round))
  }

  /** A report names each block once, by hash. */
  ghost predicate Neat(r: Report) {
    ByHash(r.blocks) && multiset(r.blocks) == multiset(Elements(r.blocks))
  }

  ghost predicate AllNeat(rs: seq<Report>) {
    forall r | r in rs :: Neat(r)
  }

  /** Reports of the same blocks are the same, if different blocks have different hashes. */
  lemma SameOrder(r1: Report, r2: Report)
    requires Neat(r1) && Neat(r2) && Elements(r1.blocks) == Elements(r2.blocks)
    requires forall b, b' | b in r1.blocks && b' in r1.blocks && b != b' :: b.hash != b'.hash
    ensures r1.blocks == r2.blocks
  {
    hide ByHash;
    forall i, j | 0 <= i < j < |r1.blocks| ensures r1.blocks[i].hash != r1.blocks[j].hash {
      NoRepeats(r1.blocks, i, j);
    }
    OneOrder(r1.blocks, r2.blocks);
  }

  lemma NoRepeats(bs: seq<BlockID>, i: nat, j: nat)
    requires multiset(bs) == multiset(Elements(bs)) && i < j < |bs|
    ensures bs[i] != bs[j]
  {
    assert bs == bs[..j] + [bs[j]] + bs[j + 1..];
    assert multiset(bs)[bs[j]] == multiset(bs[..j])[bs[j]] + 1 + multiset(bs[j + 1..])[bs[j]];
    assert bs[j] !in bs[..j];
    assert bs[..j][i] == bs[i];
  }

  lemma NeatAppend(rs: seq<Report>, r: Report, blocks: set<BlockID>)
    requires AllNeat(rs) && ByHash(r.blocks) && multiset(r.blocks) == multiset(blocks)
    ensures AllNeat(rs + [r])
  {
    hide ByHash;
    assert Elements(r.blocks) == blocks by {
      assert forall b :: b in r.blocks <==> b in multiset(r.blocks);
    }
  }

  lemma AbstractAppend(rs: seq<Report>, r: Report, blocks: set<BlockID>)
    requires multiset(r.blocks) == multiset(blocks)
    ensures Abstract(rs + [r]) == Abstract(rs) + [Interpreted(blocks, r.consumed, r.round)]
  {
    assert (set b | b in r.blocks) == blocks by {
      assert forall b :: b in r.blocks <==> b in multiset(r.blocks);
    }
  }

  /** What one own block's removal deletes. */
  function Removed(info: BlockInfo): set<BlockID> {
    {info.data.block} + (set d | d in info.data.deps :: d.block)
  }

  lemma {:induction false} PrunedAppend(blocks: seq<BlockInfo>, info: BlockInfo)
    ensures Pruned(blocks + [info]) == Pruned(blocks) + Removed(info)
  {
    if blocks == [] {
      assert (blocks + [info])[1..] == [];
    } else {
      assert (blocks + [info])[1..] == blocks[1..] + [info];
      PrunedAppend(blocks[1..], info);
    }
  }

  // ---------------------------------------------------------------------------
  // Delivering at once, in the middle of a batch, comes to the same as delivering
  // the batch's decisions at its end.

  lemma CellsCommuteRound(g: Graph, cells: seq<Cell>)
    ensures DeliverOne(g.(cells := cells)) == DeliverOne(g).(cells := cells)
  {
    hide Pruned, PruneCount, RoundBlocks;
    assert g.(cells := cells).Resolved(g.round) == g.Resolved(g.round);
  }

  lemma FewerResolved(g: Graph)
    requires g.round in g.resolved
    ensures |DeliverOne(g).resolved| < |g.resolved|
  {
    hide Pruned, PruneCount, RoundBlocks;
    assert DeliverOne(g).resolved.Keys == g.resolved.Keys - {g.round};
    assert |DeliverOne(g).resolved.Keys| < |g.resolved.Keys|;
  }

  lemma {:induction false} CellsCommuteRounds(nodeCount: nat, g: Graph, cells: seq<Cell>)
    ensures DeliverRounds(nodeCount, g.(cells := cells)) == DeliverRounds(nodeCount, g).(cells := cells)
    decreases |g.resolved|
  {
    if g.status.Running? && g.round in g.resolved && |g.resolved[g.round]| == nodeCount {
      CellsCommuteRound(g, cells);
      FewerResolved(g);
      hide DeliverOne;
      CellsCommuteRounds(nodeCount, DeliverOne(g), cells);
    }
  }

  lemma CellsCommuteOne(nodeCount: nat, g: Graph, d: Decision, cells: seq<Cell>)
    ensures Deliver(nodeCount, g.(cells := cells), d) == Deliver(nodeCount, g, d).(cells := cells)
  {
    assert Record(g.(cells := cells), d) == Record(g, d).(cells := cells);
    assert g.(cells := cells).Resolved(d.slot.round) == g.Resolved(d.slot.round);
    hide Record, DeliverRounds;
    CellsCommuteRounds(nodeCount, Record(g, d), cells);
  }

  lemma {:induction false} CellsCommute(nodeCount: nat, g: Graph, ds: seq<Decision>, cells: seq<Cell>)
    ensures DeliverAll(nodeCount, g.(cells := cells), ds) == DeliverAll(nodeCount, g, ds).(cells := cells)
  {
    hide Deliver;
    if ds != [] {
      CellsCommute(nodeCount, g, ds[..|ds| - 1], cells);
      CellsCommuteOne(nodeCount, DeliverAll(nodeCount, g, ds[..|ds| - 1]), ds[|ds| - 1], cells);
    }
  }

  lemma DeliverMore(nodeCount: nat, g: Graph, ds: seq<Decision>, d: Decision)
    ensures DeliverAll(nodeCount, g, ds + [d]) == Deliver(nodeCount, DeliverAll(nodeCount, g, ds), d)
  {
    assert (ds + [d])[..|ds|] == ds;
  }

  /** After an exit nothing is delivered. */
  lemma {:induction false} DeadStays(nodeCount: nat, g: Graph, ds: seq<Decision>, ds': seq<Decision>)
    requires ds <= ds' && !DeliverAll(nodeCount, g, ds).status.Running?
    ensures DeliverAll(nodeCount, g, ds') == DeliverAll(nodeCount, g, ds)
    decreases |ds'|
  {
    if ds != ds' {
      DeadStays(nodeCount, g, ds, ds'[..|ds'| - 1]);
    }
  }

  /** What interpreting a message does to the graph at once. */
  function Heard(nodeCount: nat, g: Graph, slot: Slot, o: Outcome): Graph {
    var g1 := g.(cells := o.cells);
    if o.fatal then g1.(status := ManyHashes)
    else if o.decided.Some? then Deliver(nodeCount, g1, Decision(slot, o.decided.value))
    else g1
  }

  lemma DecideOrFail(quorum: nat, s: State, cells: seq<Cell>, sender: nat, receiver: nat, m: Message)
    requires CellsWellFormed(s, cells)
    ensures var o := ProcessMessage(quorum, s, cells, sender, receiver, m); !(o.fatal && o.decided.Some?)
  {
  }

  lemma HeardSettles(nodeCount: nat, quorum: nat, g: Graph, w: Work, sender: nat, receiver: nat, m: Message)
    requires w.Valid() && !w.fatal && Settle(nodeCount, g, w).status.Running? && m !in w.processed
    ensures Heard(nodeCount, Settle(nodeCount, g, w), m.slot, ProcessMessage(quorum, w.state, w.cells, sender, receiver, m)) ==
            Settle(nodeCount, g, Interpret(quorum, w, sender, receiver, m).work)
  {
    var o := ProcessMessage(quorum, w.state, w.cells, sender, receiver, m);
    DecideOrFail(quorum, w.state, w.cells, sender, receiver, m);
    CellsCommute(nodeCount, g.(cells := w.cells), w.decided, o.cells);
    assert g.(cells := w.cells).(cells := o.cells) == g.(cells := o.cells);
    if o.decided.Some? { DeliverMore(nodeCount, g.(cells := o.cells), w.decided, Decision(m.slot, o.decided.value)); }
    hide DeliverAll, Deliver, ProcessMessage;
  }

  /** The same exit with the same reports, or the same running graph. */
  predicate Agree(g: Graph, h: Graph) {
    g.status == h.status && g.delivered == h.delivered && (g.status.Running? ==> g == h)
  }

  lemma ExitIsFinal(nodeCount: nat, g: Graph, w: Work, w': Work)
    requires !Settle(nodeCount, g, w).status.Running? && w.decided <= w'.decided && (w.fatal ==> w' == w)
    ensures Agree(Settle(nodeCount, g, w), Settle(nodeCount, g, w'))
  {
    if !w.fatal {
      CellsCommute(nodeCount, g, w.decided, w.cells);
      CellsCommute(nodeCount, g, w.decided, w'.cells);
      DeadStays(nodeCount, g.(cells := w'.cells), w.decided, w'.decided);
    }
  }

  lemma {:induction false} SweepGoesOn(quorum: nat, w: Work, sender: nat, receiver: nat, msgs: seq<Message>)
    requires w.Valid()
    ensures var r := Sweep(quorum, w, sender, receiver, msgs); w.decided <= r.work.decided && (w.fatal ==> r == Reply(w, []))
    decreases |msgs|
  {
    if msgs != [] { SweepGoesOn(quorum, Interpret(quorum, w, sender, receiver, msgs[0]).work, sender, receiver, msgs[1..]); }
  }

  lemma {:induction false} DrainGoesOn(quorum: nat, w: Work, sender: nat, receiver: nat, queue: seq<Message>)
    requires w.Valid()
    ensures var r := Drain(quorum, w, sender, receiver, queue); w.decided <= r.work.decided && (w.fatal ==> r == Reply(w, []))
    decreases Weight(queue)
  {
    if queue != [] {
      var first := Interpret(quorum, w, sender, receiver, queue[0]);
      WeightAppend(queue[1..], first.out);
      DrainGoesOn(quorum, first.work, sender, receiver, queue[1..] + first.out);
    }
  }

  lemma FireMore(s: State, node: nat, fired: seq<Timeout>, j: nat)
    requires j < |fired|
    ensures FireAll(s, node, fired[..j + 1]) == FireOne(FireAll(s, node, fired[..j]), node, fired[j])
  {
    assert fired[..j + 1][..j] == fired[..j];
  }

  /** Batches after an exit change nothing. */
  lemma {:induction false} BatchesStop(cfg: Config, p: Progress, node: nat, deps: seq<BlockID>, j: nat)
    requires cfg.nodes != [] && p.work.Valid() && j <= |deps| && !Batches(cfg, p, node, deps[..j]).graph.status.Running?
    ensures Batches(cfg, p, node, deps) == Batches(cfg, p, node, deps[..j])
    decreases |deps|
  {
    if j < |deps| {
      assert deps[..|deps| - 1][..j] == deps[..j];
      BatchesStop(cfg, p, node, deps[..|deps| - 1], j);
    } else {
      assert deps[..j] == deps;
    }
  }

  class LiveGraph {
    const nodeCount: nat
    const quorum: nat
    var blocks: seq<BlockInfo>
    var max: map<BlockID, nat>
    var resolved: map<nat, map<nat, Hash>>
    var round: nat
    var statess: map<BlockID, State>
    var cells: seq<Cell>
    var reports: seq<Report>
    var status: Status

    function Value(): Graph
      reads this
    {
      Graph(blocks, max, resolved, round, statess, cells, Abstract(reports), status)
    }

    constructor (nodes: seq<nat>, lastInterpreted: nat)
      requires nodes != []
      ensures AllNeat(reports)
      ensures Value() == Initial(lastInterpreted) && nodeCount == |nodes| && quorum == Config(nodes).Quorum()
    {
      nodeCount, quorum := |nodes|, 2 * ((|nodes| - 1) / 3) + 1;
      blocks, max, resolved, round := [], map[], map[], lastInterpreted + 1;
      statess, cells, reports, status := map[], [], [], Running;
    }

    method Remove(info: BlockInfo)
      modifies this`max, this`statess
      ensures max == old(max) - Removed(info) && statess == old(statess) - Removed(info)
    {
      max := max - {info.data.block};
      statess := statess - {info.data.block};
      ghost var gone := {info.data.block};
      var i := 0;
      while i < |info.data.deps|
        invariant i <= |info.data.deps|
        invariant gone == {info.data.block} + (set d | d in info.data.deps[..i] :: d.block)
        invariant max == old(max) - gone && statess == old(statess) - gone
      {
        var b := info.data.deps[i].block;
        max := max - {b};
        statess := statess - {b};
        gone := gone + {b};
        i := i + 1;
      }
      assert info.data.deps[..i] == info.data.deps;
    }

    /** The loop of `deliverRound` that stops at the first block not yet due. */
    method Prune(r: nat) returns (consumed: int)
      requires blocks != []
      modifies this`blocks, this`max, this`statess
      ensures var n := PruneCount(old(blocks), r); var gone := Pruned(old(blocks)[..n]);
              && consumed == old(blocks)[0].data.block.round - 1 + n
              && blocks == old(blocks)[n..] && max == old(max) - gone && statess == old(statess) - gone
    {
      consumed := blocks[0].data.block.round - 1;
      var idx := 0;
      assert Pruned(blocks[..idx]) == {};
      hide Pruned, PruneCount, Removed;
      while idx < |blocks| && blocks[idx].max <= r
        invariant idx <= |blocks| && blocks == old(blocks) && consumed == blocks[0].data.block.round - 1 + idx
        invariant forall i | 0 <= i < idx :: blocks[i].max <= r
        invariant max == old(max) - Pruned(blocks[..idx]) && statess == old(statess) - Pruned(blocks[..idx])
      {
        assert blocks[..idx + 1] == blocks[..idx] + [blocks[idx]];
        PrunedAppend(blocks[..idx], blocks[idx]);
        Remove(blocks[idx]);
        consumed := consumed + 1;
        idx := idx + 1;
      }
      assert idx == PruneCount(blocks, r);
      blocks := blocks[idx..];
    }

    /** Delivers the current round. */
    method DeliverThis()
      requires status.Running? && round in resolved
      requires AllNeat(reports)
      modifies this
      ensures AllNeat(reports)
      ensures Value() == DeliverOne(old(Value()))
    {
      hide Pruned, PruneCount;
      var bs := SortedBlocks(resolved[round], round);
      ghost var hashes := resolved[round];
      resolved := resolved - {round};
      if blocks == [] {
        status := IndexPanic;
        return;
      }
      var consumed := Prune(round);
      AbstractAppend(reports, Report(bs, consumed, round), RoundBlocks(hashes, round));
      NeatAppend(reports, Report(bs, consumed, round), RoundBlocks(hashes, round));
      hide Abstract, RoundBlocks, AllNeat;
      reports := reports + [Report(bs, consumed, round)];
      round := round + 1;
    }

    /** Delivers the current round, and then each next one that is complete. */
    method DeliverRound()
      requires status.Running? && round in resolved && |resolved[round]| == nodeCount
      requires AllNeat(reports)
      modifies this
      ensures AllNeat(reports)
      ensures Value() == DeliverRounds(nodeCount, old(Value()))
      decreases |resolved|
    {
      FewerResolved(Value());
      hide DeliverOne, Abstract;
      DeliverThis();
      if status.Running? && round in resolved && |resolved[round]| == nodeCount {
        DeliverRound();
      }
    }

    method DeliverDecision(slot: Slot, hash: Hash)
      requires status.Running?
      requires AllNeat(reports)
      modifies this
      ensures AllNeat(reports)
      ensures Value() == Deliver(nodeCount, old(Value()), Decision(slot, hash))
    {
      if slot.round < round { return; }
      var hashes: map<nat, Hash> := map[slot.node := hash];
      if slot.round in resolved {
        hashes := resolved[slot.round];
        if slot.node in hashes {
          if hashes[slot.node] != hash {
            status := HashMismatch;
            return;
          }
        } else {
          hashes := hashes[slot.node := hash];
        }
      }
      assert hashes == old(Value()).Resolved(slot.round)[slot.node := hash];
      resolved := resolved[slot.round := hashes];
      assert resolved == Record(old(Value()), Decision(slot, hash)).resolved;
      if slot.round != round { return; }
      if |resolved[round]| == nodeCount {
        DeliverRound();
      }
    }

    /** `processMessage`: a decision is delivered before the method returns. */
    method Hear(s: ChainState, sender: nat, receiver: nat, m: Message) returns (response: Option<Message>)
      requires status.Running? && CellsWellFormed(s.Value(), cells)
      requires AllNeat(reports)
      modifies this, s
      ensures AllNeat(reports)
      ensures var o := ProcessMessage(quorum, old(s.Value()), old(cells), sender, receiver, m);
              && s.Value() == o.state && response == o.response
              && Value() == Heard(nodeCount, old(Value()), m.slot, o)
    {
      response := None;
      var v := s.GetView(m.slot);
      match m {
        case PrePrepare(_, _, _) => response := s.PrePrepare(v, sender, receiver, m, cells);
        case Prepare(_, _, _, _) => response := s.Prepare(quorum, v, receiver, m, cells);
        case Commit(_, _, _, _) =>
          var decided := s.Commit(quorum, v, m, cells);
          if decided.Some? { DeliverDecision(m.slot, decided.value); }
        case ViewChange(_, _, _, _) =>
          var fatal;
          cells, response, fatal := s.ViewChange(quorum, v, receiver, m, cells);
          if fatal { status := ManyHashes; }
        case NewView(_, _, _, _) => response := s.NewView(v, m, cells);
      }
    }

    /** The object and the chain state stand where `w` does, `g` being the graph
        when the batch began. */
    ghost predicate At(s: ChainState, processed: set<Message>, g: Graph, w: Work)
      reads this, s
    {
      s.Value() == w.state && processed == w.processed && w.Valid() && Value() == Settle(nodeCount, g, w)
    }

    /** One message of either loop of `processMessages`. */
    method Take(s: ChainState, processed: set<Message>, sender: nat, receiver: nat, m: Message, ghost g: Graph, ghost w: Work)
      returns (processed': set<Message>, answer: seq<Message>)
      requires status.Running? && At(s, processed, g, w) && !w.fatal
      requires AllNeat(reports)
      modifies this, s
      ensures AllNeat(reports)
      ensures var r := Interpret(quorum, w, sender, receiver, m); At(s, processed', g, r.work) && answer == r.out
      ensures status.Running? ==> !Interpret(quorum, w, sender, receiver, m).work.fatal
    {
      DeliverAllKeeps(nodeCount, g.(cells := w.cells), w.decided);
      if m in processed { return processed, []; }
      HeardSettles(nodeCount, quorum, g, w, sender, receiver, m);
      hide Settle, Heard, ProcessMessage;
      var response := Hear(s, sender, receiver, m);
      processed' := processed + {m};
      answer := Listed(response);
    }

    /** The first loop: the batch, until it ends or the process exits. */
    method SweepBatch(s: ChainState, processed: set<Message>, sender: nat, receiver: nat, msgs: seq<Message>, ghost g: Graph, ghost w: Work)
      returns (processed': set<Message>, out: seq<Message>)
      requires status.Running? && At(s, processed, g, w) && !w.fatal
      requires AllNeat(reports)
      modifies this, s
      ensures AllNeat(reports)
      ensures var r := Sweep(quorum, w, sender, receiver, msgs);
              && Agree(Value(), Settle(nodeCount, g, r.work))
              && (status.Running? ==> At(s, processed', g, r.work) && !r.work.fatal && out == r.out)
    {
      processed', out := processed, [];
      ghost var v := w;
      var i := 0;
      assert msgs[0..] == msgs && [] + Sweep(quorum, w, sender, receiver, msgs).out == Sweep(quorum, w, sender, receiver, msgs).out;
      while i < |msgs|
        invariant i <= |msgs| && status.Running? && AllNeat(reports) && At(s, processed', g, v) && !v.fatal
        invariant var rest := Sweep(quorum, v, sender, receiver, msgs[i..]);
                  Sweep(quorum, w, sender, receiver, msgs) == Reply(rest.work, out + rest.out)
      {
        assert msgs[i..][0] == msgs[i] && msgs[i..][1..] == msgs[i + 1..];
        ghost var r := Interpret(quorum, v, sender, receiver, msgs[i]);
        ghost var rest := Sweep(quorum, r.work, sender, receiver, msgs[i + 1..]);
        assert Sweep(quorum, v, sender, receiver, msgs[i..]) == Reply(rest.work, r.out + rest.out);
        Associative(out, r.out, rest.out);
        hide Interpret, Sweep, Settle;
        var answer;
        processed', answer := Take(s, processed', sender, receiver, msgs[i], g, v);
        if !status.Running? {
          SweepGoesOn(quorum, r.work, sender, receiver, msgs[i + 1..]);
          ExitIsFinal(nodeCount, g, r.work, rest.work);
          return;
        }
        out := out + answer;
        v := r.work;
        i := i + 1;
      }
      assert msgs[|msgs|..] == [] && out + [] == out;
    }

    /** The second loop: the responses, which grow while they are interpreted. */
    method DrainBatch(s: ChainState, processed: set<Message>, sender: nat, receiver: nat, answers: seq<Message>, ghost g: Graph, ghost w: Work)
      returns (processed': set<Message>, out: seq<Message>)
      requires status.Running? && At(s, processed, g, w) && !w.fatal
      requires AllNeat(reports)
      modifies this, s
      ensures AllNeat(reports)
      ensures var r := Drain(quorum, w, sender, receiver, answers);
              && Agree(Value(), Settle(nodeCount, g, r.work))
              && (status.Running? ==> At(s, processed', g, r.work) && out == answers + r.out)
    {
      processed', out := processed, answers;
      ghost var v := w;
      var i := 0;
      assert out[0..] == answers;
      while i < |out|
        invariant i <= |out| && status.Running? && AllNeat(reports) && At(s, processed', g, v) && !v.fatal
        invariant var rest := Drain(quorum, v, sender, receiver, out[i..]);
                  && Drain(quorum, w, sender, receiver, answers).work == rest.work
                  && answers + Drain(quorum, w, sender, receiver, answers).out == out + rest.out
        decreases Weight(out[i..])
      {
        ghost var r := Interpret(quorum, v, sender, receiver, out[i]);
        ghost var queue := out[i..][1..] + r.out;
        ghost var rest := Drain(quorum, r.work, sender, receiver, queue);
        WeightAppend(out[i..][1..], r.out);
        assert Weight(queue) < Weight(out[i..]);
        assert Drain(quorum, v, sender, receiver, out[i..]) == Reply(rest.work, r.out + rest.out);
        Associative(out, r.out, rest.out);
        assert (out + r.out)[i + 1..] == queue;
        hide Interpret, Drain, Settle, Weight;
        var answer;
        processed', answer := Take(s, processed', sender, receiver, out[i], g, v);
        if !status.Running? {
          DrainGoesOn(quorum, r.work, sender, receiver, queue);
          ExitIsFinal(nodeCount, g, r.work, rest.work);
          return;
        }
        out := out + answer;
        v := r.work;
        i := i + 1;
      }
      assert out[|out|..] == [] && out + [] == out;
    }

    method ProcessBatch(s: ChainState, processed: set<Message>, sender: nat, receiver: nat, msgs: seq<Message>)
      returns (processed': set<Message>, out: seq<Message>)
      requires status.Running? && CellsWellFormed(s.Value(), cells)
      requires AllNeat(reports)
      modifies this, s
      ensures AllNeat(reports)
      ensures var r := ProcessMessages(quorum, Work(old(s.Value()), old(cells), processed, [], false), sender, receiver, msgs);
              && Agree(Value(), Settle(nodeCount, old(Value()), r.work))
              && (status.Running? ==> At(s, processed', old(Value()), r.work) && out == r.out)
    {
      ghost var g, w := Value(), Work(s.Value(), cells, processed, [], false);
      ghost var swept := Sweep(quorum, w, sender, receiver, msgs);
      ghost var drained := Drain(quorum, swept.work, sender, receiver, swept.out);
      assert ProcessMessages(quorum, w, sender, receiver, msgs) == Reply(drained.work, swept.out + drained.out);
      assert g.(cells := w.cells) == g;
      assert Settle(nodeCount, g, w) == g;
      hide Sweep, Drain, Settle, ProcessMessages;
      processed', out := SweepBatch(s, processed, sender, receiver, msgs, g, w);
      if !status.Running? {
        DrainGoesOn(quorum, swept.work, sender, receiver, swept.out);
        ExitIsFinal(nodeCount, g, swept.work, drained.work);
        return;
      }
      processed', out := DrainBatch(s, processed', sender, receiver, out, g, swept.work);
    }

    /** One expired timer. */
    method FireTimer(s: ChainState, node: nat, t: Timeout, ghost before: seq<Message>) returns (msgs: seq<Message>)
      modifies s
      ensures FireOne(Fired(old(s.Value()), before), node, t) == Fired(s.Value(), before + msgs)
    {
      var v := if t.slot in s.views then s.views[t.slot] else 0;
      if v > t.view {
        assert before + [] == before;
        return [];
      }
      var key := Key(t.slot, t.view);
      var hval := if key in s.prepared then s.prepared[key] else [];
      s.views := s.views[t.slot := v + 1];
      msgs := [ViewChange(hval, t.slot, node, t.view + 1)];
    }

    /** The expired timers of a chain, one after the other. */
    method Fire(s: ChainState, node: nat, fired: seq<Timeout>, own: seq<Message>) returns (out: seq<Message>)
      modifies s
      ensures var f := FireAll(old(s.Value()), node, fired); s.Value() == f.state && out == own + f.out
    {
      var said := [];
      var j := 0;
      assert fired[..0] == [];
      while j < |fired|
        invariant j <= |fired| && FireAll(old(s.Value()), node, fired[..j]) == Fired(s.Value(), said)
      {
        FireMore(old(s.Value()), node, fired, j);
        hide FireAll, FireOne;
        var msgs := FireTimer(s, node, fired[j], said);
        said := said + msgs;
        j := j + 1;
      }
      assert fired[..|fired|] == fired;
      out := own + said;
    }

    /** The object and the chain state stand where `p` does. */
    ghost predicate Before(s: ChainState, processed: set<Message>, out: seq<Message>, p: Progress)
      reads this, s
    {
      && p.work.Valid() && s.Value() == p.work.state && processed == p.work.processed && cells == p.work.cells
      && Value() == p.graph && out == p.out && !p.work.fatal
    }

    /** One batch and its responses. */
    method Advance(s: ChainState, processed: set<Message>, out: seq<Message>, sender: nat, receiver: nat, msgs: seq<Message>,
                   ghost cfg: Config, ghost p: Progress)
      returns (processed': set<Message>, out': seq<Message>)
      requires cfg.nodes != [] && nodeCount == |cfg.nodes| && quorum == cfg.Quorum()
      requires status.Running? && Before(s, processed, out, p)
      requires AllNeat(reports)
      modifies this, s
      ensures AllNeat(reports)
      ensures var p' := Batch(cfg, p, sender, receiver, msgs);
              Agree(Value(), p'.graph) && (status.Running? ==> Before(s, processed', out', p'))
    {
      ghost var g := Value();
      ghost var r := ProcessMessages(quorum, p.work.(decided := []), sender, receiver, msgs);
      assert p.work.(decided := []) == Work(s.Value(), cells, processed, [], false);
      DeliverAllKeeps(nodeCount, g.(cells := r.work.cells), r.work.decided);
      hide ProcessMessages;
      var answers;
      processed', answers := ProcessBatch(s, processed, sender, receiver, msgs);
      out' := out + answers;
    }

    /** The outputs of the dependencies, until the process exits. */
    method AdvanceAll(s: ChainState, processed: set<Message>, out: seq<Message>, node: nat, deps: seq<BlockID>, ghost cfg: Config, ghost p: Progress)
      returns (processed': set<Message>, out': seq<Message>)
      requires cfg.nodes != [] && nodeCount == |cfg.nodes| && quorum == cfg.Quorum()
      requires status.Running? && Before(s, processed, out, p)
      requires AllNeat(reports)
      modifies this, s
      ensures AllNeat(reports)
      ensures var p' := Batches(cfg, p, node, deps);
              Agree(Value(), p'.graph) && (status.Running? ==> Before(s, processed', out', p'))
    {
      hide Batch;
      processed', out' := processed, out;
      var j := 0;
      while j < |deps| && status.Running?
        invariant j <= |deps| && AllNeat(reports)
        invariant Agree(Value(), Batches(cfg, p, node, deps[..j]).graph)
        invariant status.Running? ==> Before(s, processed', out', Batches(cfg, p, node, deps[..j]))
      {
        assert deps[..j + 1][..j] == deps[..j];
        var msgs := if deps[j] in statess then statess[deps[j]].out else [];
        processed', out' := Advance(s, processed', out', deps[j].node, node, msgs, cfg, Batches(cfg, p, node, deps[..j]));
        j := j + 1;
      }
      if status.Running? {
        assert deps[..j] == deps;
      } else {
        BatchesStop(cfg, p, node, deps, j);
      }
    }

    /** The block's own messages. */
    method Begin(e: Entry, fired: seq<Timeout>, ghost cfg: Config) returns (s: ChainState, processed: set<Message>, out: seq<Message>)
      requires cfg.nodes != [] && nodeCount == |cfg.nodes| && quorum == cfg.Quorum()
      requires status.Running? && CellsOk(Value())
      requires AllNeat(reports)
      modifies this
      ensures AllNeat(reports)
      ensures fresh(s)
      ensures var p := OwnBatch(cfg, old(Value()), e, fired);
              Agree(Value(), p.graph) && (status.Running? ==> Before(s, processed, out, p))
    {
      hide Batch;
      ghost var w := StartWork(Value(), e, fired);
      s := new ChainState(if e.prev.Valid() && e.prev in statess then statess[e.prev].Clone(round) else FRESH);
      out := Fire(s, e.block.node, fired, [PrePrepare(e.block.hash, e.block.AsSlot(), 0)]);
      processed, out := Advance(s, {}, out, e.block.node, e.block.node, out, cfg, Progress(Value(), w, out, []));
    }

    /** `process`: interprets a block and stores the state it reaches. */
    method ProcessBlock(e: Entry, fired: seq<Timeout>, ghost cfg: Config)
      requires cfg.nodes != [] && nodeCount == |cfg.nodes| && quorum == cfg.Quorum()
      requires status.Running? && CellsOk(Value())
      requires AllNeat(reports)
      modifies this
      ensures AllNeat(reports)
      ensures Agree(Value(), Process(cfg, old(Value()), e, fired))
    {
      hide OwnBatch;
      ghost var p := OwnBatch(cfg, Value(), e, fired);
      var s, processed, out := Begin(e, fired, cfg);
      if !status.Running? {
        BatchesStop(cfg, p, e.block.node, e.deps, 0);
        return;
      }
      processed, out := AdvanceAll(s, processed, out, e.block.node, e.deps, cfg, p);
      if !status.Running? { return; }
      s.out := out;
      statess := statess[e.block := s.Value()];
    }

    /** The latest round known of a block's history, from what is known of its links. */
    method BoundOf(links: seq<BlockID>, own: nat) returns (k: nat)
      ensures k == Bound(max, round, links, own)
    {
      k := own;
      var missing := false;
      var i := 0;
      while i < |links|
        invariant i <= |links| && k == LinkMax(max, links[..i], own) && missing == AnyMissing(max, links[..i])
      {
        assert links[..i + 1][..i] == links[..i];
        assert AnyMissing(max, links[..i + 1]) <==> AnyMissing(max, links[..i]) || links[i] !in max by {
          assert links[i] in links[..i + 1];
        }
        if links[i] !in max {
          missing := true;
        } else if max[links[i]] > k {
          k := max[links[i]];
        }
        i := i + 1;
      }
      assert links[..|links|] == links;
      if missing && round > k { k := round; }
    }

    /** What `run` does with an own block before any is interpreted. */
    method AdmitBlock(data: BlockGraph)
      modifies this`max, this`blocks
      ensures Value() == Admit(old(Value()), data)
    {
      var top := data.block.round;
      var i := 0;
      assert data.deps[..0] == [];
      while i < |data.deps|
        invariant i <= |data.deps| && blocks == old(blocks)
        invariant Bounds(max, top) == AdmitDeps(Bounds(old(max), data.block.round), round, data.deps[..i])
      {
        assert data.deps[..i + 1][..i] == data.deps[..i];
        var dep := data.deps[i];
        var k := BoundOf(if dep.block.round != 1 then [dep.prev] + dep.deps else dep.deps, dep.block.round);
        max := max[dep.block := k];
        if k > top { top := k; }
        i := i + 1;
      }
      assert data.deps[..|data.deps|] == data.deps;
      var k := BoundOf(if data.block.round != 1 then [data.prev] else [], top);
      max := max[data.block := k];
      blocks := blocks + [BlockInfo(data, k)];
    }
  }
}

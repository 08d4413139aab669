/** `processMessages`: interpret a batch of messages and then, in order of
    arrival, every response that this provokes. */
module Worklist {
  import opened Messages
  import opened Protocol

  datatype Decision = Decision(slot: Slot, hash: Hash)

  /** What a call of `process` threads through its batches. */
  datatype Work = Work(state: State, cells: seq<Cell>, processed: set<Message>, decided: seq<Decision>, fatal: bool) {
    predicate Valid() { CellsWellFormed(state, cells) }
  }

  datatype Reply = Reply(work: Work, out: seq<Message>)

  function Listed(m: Option<Message>): seq<Message> {
    if m.Some? then [m.value] else []
  }

  /** Interprets `m` unless this block already did, or the process has exited. */
  function Interpret(quorum: nat, w: Work, sender: nat, receiver: nat, m: Message): (r: Reply)
    requires w.Valid()
    ensures r.work.Valid() && Grows(w.cells, r.work.cells)
    ensures r.out == [] || exists resp: Message :: r.out == [resp] && resp.Rank() < m.Rank() && resp.slot == m.slot
  {
    if w.fatal || m in w.processed then Reply(w, [])
    else
      var o := ProcessMessage(quorum, w.state, w.cells, sender, receiver, m);
      var decided := if o.decided.Some? then w.decided + [Decision(m.slot, o.decided.value)] else w.decided;
      Reply(Work(o.state, o.cells, w.processed + {m}, decided, o.fatal), Listed(o.response))
  }

  /** The first loop: the batch itself. */
  function Sweep(quorum: nat, w: Work, sender: nat, receiver: nat, msgs: seq<Message>): (r: Reply)
    requires w.Valid()
    ensures r.work.Valid() && Grows(w.cells, r.work.cells)
    decreases |msgs|
  {
    if msgs == [] then Reply(w, [])
    else
      var first := Interpret(quorum, w, sender, receiver, msgs[0]);
      var rest := Sweep(quorum, first.work, sender, receiver, msgs[1..]);
      Reply(rest.work, first.out + rest.out)
  }

  function Weight(msgs: seq<Message>): nat {
    if msgs == [] then 0 else msgs[0].Rank() + 1 + Weight(msgs[1..])
  }

  lemma {:induction false} WeightAppend(a: seq<Message>, b: seq<Message>)
    ensures Weight(a + b) == Weight(a) + Weight(b)
  {
    if a == [] {
      assert a + b == b;
    } else {
      WeightAppend(a[1..], b);
      assert (a + b)[1..] == a[1..] + b;
    }
  }

  /** The second loop: `queue` is the part of the output not yet interpreted. */
  function Drain(quorum: nat, w: Work, sender: nat, receiver: nat, queue: seq<Message>): (r: Reply)
    requires w.Valid()
    ensures r.work.Valid() && Grows(w.cells, r.work.cells)
    decreases Weight(queue)
  {
    if queue == [] then Reply(w, [])
    else
      var first := Interpret(quorum, w, sender, receiver, queue[0]);
      WeightAppend(queue[1..], first.out);
      var rest := Drain(quorum, first.work, sender, receiver, queue[1..] + first.out);
      Reply(rest.work, first.out + rest.out)
  }

  function ProcessMessages(quorum: nat, w: Work, sender: nat, receiver: nat, msgs: seq<Message>): (r: Reply)
    requires w.Valid()
    ensures r.work.Valid() && Grows(w.cells, r.work.cells)
  {
    var swept := Sweep(quorum, w, sender, receiver, msgs);
    var drained := Drain(quorum, swept.work, sender, receiver, swept.out);
    Reply(drained.work, swept.out + drained.out)
  }

  // ---------------------------------------------------------------------------
  // Every batch provokes at most four responses per message.

  function Ranks(msgs: seq<Message>): nat {
    if msgs == [] then 0 else msgs[0].Rank() + Ranks(msgs[1..])
  }

  lemma {:induction false} RanksAppend(a: seq<Message>, b: seq<Message>)
    ensures Ranks(a + b) == Ranks(a) + Ranks(b)
  {
    if a == [] {
      assert a + b == b;
    } else {
      RanksAppend(a[1..], b);
      assert (a + b)[1..] == a[1..] + b;
    }
  }

  lemma {:induction false} RanksBound(msgs: seq<Message>)
    ensures Ranks(msgs) <= 4 * |msgs|
  {
    if msgs != [] { RanksBound(msgs[1..]); }
  }

  lemma {:induction false} SweepBound(quorum: nat, w: Work, sender: nat, receiver: nat, msgs: seq<Message>)
    requires w.Valid()
    ensures var r := Sweep(quorum, w, sender, receiver, msgs); |r.out| + Ranks(r.out) <= Ranks(msgs)
    decreases |msgs|
  {
    if msgs != [] {
      var first := Interpret(quorum, w, sender, receiver, msgs[0]);
      SweepBound(quorum, first.work, sender, receiver, msgs[1..]);
      RanksAppend(first.out, Sweep(quorum, first.work, sender, receiver, msgs[1..]).out);
    }
  }

  lemma {:induction false} DrainBound(quorum: nat, w: Work, sender: nat, receiver: nat, queue: seq<Message>)
    requires w.Valid()
    ensures |Drain(quorum, w, sender, receiver, queue).out| <= Ranks(queue)
    decreases Weight(queue)
  {
    if queue != [] {
      var first := Interpret(quorum, w, sender, receiver, queue[0]);
      WeightAppend(queue[1..], first.out);
      DrainBound(quorum, first.work, sender, receiver, queue[1..] + first.out);
      RanksAppend(queue[1..], first.out);
    }
  }

  lemma ResponsesBound(quorum: nat, w: Work, sender: nat, receiver: nat, msgs: seq<Message>)
    requires w.Valid()
    ensures |ProcessMessages(quorum, w, sender, receiver, msgs).out| <= 4 * |msgs|
  {
    SweepBound(quorum, w, sender, receiver, msgs);
    DrainBound(quorum, Sweep(quorum, w, sender, receiver, msgs).work, sender, receiver, Sweep(quorum, w, sender, receiver, msgs).out);
    RanksBound(msgs);
  }

  // ---------------------------------------------------------------------------
  // What interpreting one message keeps, a batch keeps.

  /** Given `inv` of the work and the output so far, interpreting one of the inputs
      or one of the answers given so far keeps `inv`. */
  ghost predicate Keeps(quorum: nat, sender: nat, receiver: nat, inputs: seq<Message>, inv: (Work, seq<Message>) -> bool) {
    forall w: Work, out: seq<Message>, m: Message {:trigger inv(w, out), Interpret(quorum, w, sender, receiver, m)}
      | w.Valid() && inv(w, out) && (m in inputs || m in out) ::
      var r := Interpret(quorum, w, sender, receiver, m);
      inv(r.work, out + r.out)
  }

  lemma Associative(a: seq<Message>, b: seq<Message>, c: seq<Message>)
    ensures a + (b + c) == a + b + c
  {
  }

  lemma {:induction false} SweepKeeps(quorum: nat, w: Work, sender: nat, receiver: nat, inputs: seq<Message>, msgs: seq<Message>,
                                      inv: (Work, seq<Message>) -> bool, out: seq<Message>)
    requires w.Valid() && inv(w, out) && forall m | m in msgs :: m in inputs
    requires Keeps(quorum, sender, receiver, inputs, inv)
    ensures var r := Sweep(quorum, w, sender, receiver, msgs); inv(r.work, out + r.out)
    decreases |msgs|
  {
    if msgs == [] {
      assert out + [] == out;
    } else {
      assert msgs[0] in inputs;
      var first := Interpret(quorum, w, sender, receiver, msgs[0]);
      var rest := Sweep(quorum, first.work, sender, receiver, msgs[1..]);
      SweepKeeps(quorum, first.work, sender, receiver, inputs, msgs[1..], inv, out + first.out);
      Associative(out, first.out, rest.out);
    }
  }

  lemma QueueInOut(queue: seq<Message>, answers: seq<Message>, out: seq<Message>)
    requires queue != [] && forall m | m in queue :: m in out
    ensures forall m | m in queue[1..] + answers :: m in out + answers
  {
  }

  lemma {:induction false} DrainKeeps(quorum: nat, w: Work, sender: nat, receiver: nat, inputs: seq<Message>, queue: seq<Message>,
                                      inv: (Work, seq<Message>) -> bool, out: seq<Message>)
    requires w.Valid() && inv(w, out) && forall m | m in queue :: m in out
    requires Keeps(quorum, sender, receiver, inputs, inv)
    ensures var r := Drain(quorum, w, sender, receiver, queue); inv(r.work, out + r.out)
    decreases Weight(queue)
  {
    if queue == [] {
      assert out + [] == out;
    } else {
      assert queue[0] in out;
      var first := Interpret(quorum, w, sender, receiver, queue[0]);
      WeightAppend(queue[1..], first.out);
      var rest := Drain(quorum, first.work, sender, receiver, queue[1..] + first.out);
      QueueInOut(queue, first.out, out);
      DrainKeeps(quorum, first.work, sender, receiver, inputs, queue[1..] + first.out, inv, out + first.out);
      assert Drain(quorum, w, sender, receiver, queue) == Reply(rest.work, first.out + rest.out);
      Associative(out, first.out, rest.out);
    }
  }

  lemma BatchKeeps(quorum: nat, w: Work, sender: nat, receiver: nat, msgs: seq<Message>, inv: (Work, seq<Message>) -> bool)
    requires w.Valid() && inv(w, [])
    requires Keeps(quorum, sender, receiver, msgs, inv)
    ensures var r := ProcessMessages(quorum, w, sender, receiver, msgs); inv(r.work, r.out)
  {
    SweepKeeps(quorum, w, sender, receiver, msgs, msgs, inv, []);
    var swept := Sweep(quorum, w, sender, receiver, msgs);
    assert [] + swept.out == swept.out;
    DrainKeeps(quorum, swept.work, sender, receiver, msgs, swept.out, inv, swept.out);
  }

  /** Unless the process exits, every message of a batch gets interpreted. */
  lemma {:induction false} SweepProcesses(quorum: nat, w: Work, sender: nat, receiver: nat, msgs: seq<Message>)
    requires w.Valid()
    ensures var r := Sweep(quorum, w, sender, receiver, msgs);
            && w.processed <= r.work.processed && (w.fatal ==> r.work.fatal)
            && (!r.work.fatal ==> forall m | m in msgs :: m in r.work.processed)
    decreases |msgs|
  {
    if msgs != [] {
      SweepProcesses(quorum, Interpret(quorum, w, sender, receiver, msgs[0]).work, sender, receiver, msgs[1..]);
    }
  }

  lemma {:induction false} DrainProcesses(quorum: nat, w: Work, sender: nat, receiver: nat, queue: seq<Message>)
    requires w.Valid()
    ensures var r := Drain(quorum, w, sender, receiver, queue);
            w.processed <= r.work.processed && (w.fatal ==> r.work.fatal)
    decreases Weight(queue)
  {
    if queue != [] {
      var first := Interpret(quorum, w, sender, receiver, queue[0]);
      WeightAppend(queue[1..], first.out);
      DrainProcesses(quorum, first.work, sender, receiver, queue[1..] + first.out);
    }
  }

  lemma BatchProcesses(quorum: nat, w: Work, sender: nat, receiver: nat, msgs: seq<Message>)
    requires w.Valid()
    ensures var r := ProcessMessages(quorum, w, sender, receiver, msgs);
            w.processed <= r.work.processed && (!r.work.fatal ==> forall m | m in msgs :: m in r.work.processed)
  {
    SweepProcesses(quorum, w, sender, receiver, msgs);
    var swept := Sweep(quorum, w, sender, receiver, msgs);
    DrainProcesses(quorum, swept.work, sender, receiver, swept.out);
  }
}

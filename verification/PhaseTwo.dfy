/** Why phase 2 does not make the outcome common to all: a run of honest nodes only,
    in which one node consumes its inputs and another of the same shard aborts, since
    the second consensus was rejected at that node alone. */
module PhaseTwo {
  import opened Messages
  import opened Shards
  import opened TxStates
  import opened TxNode
  import opened CrossShard

  const FINE := Env(true, true, true, true, true, true, true, true)

  /** Two shards of two: nodes 1 and 3, nodes 2 and 4. */
  const PAIRS := Setup(Topology(2, 2), {1, 2}, {})

  function Locked(): Node {
    Fresh(WaitingForConsensus1).(consensus1 := Accepted)
      .Enter(ObjectLocked, None).Enter(AcceptPhase1Broadcasted, Some(Sent(Phase1, true))).Enter(WaitingForPhase1, None)
  }

  function HeardOne(a: nat): Node {
    Locked().(phase1 := Ballots(map[a := true], Waiting))
  }

  function HeardBoth(a: nat, b: nat): Node {
    Locked().(phase1 := Ballots(map[a := true, b := true], Accepted)).Enter(Consensus2Triggered, None).Enter(WaitingForConsensus2, None)
  }

  function Confirmed(a: nat, b: nat): Node {
    HeardBoth(a, b).(consensus2 := Accepted)
      .Enter(AcceptPhase2Broadcasted, Some(Sent(Phase2, true))).Enter(WaitingForPhase2, None)
  }

  function Refused(a: nat, b: nat): Node {
    HeardBoth(a, b).(consensus2 := Rejected).Enter(RejectPhase2Broadcasted, Some(Sent(Phase2, false))).Enter(Aborted, None)
  }

  function HalfConfirmed(a: nat, b: nat): Node {
    Confirmed(a, b).(phase2 := Ballots(map[a := true], Waiting))
  }

  function Consumed(a: nat, b: nat): Node {
    Confirmed(a, b).(phase2 := Ballots(map[a := true, b := true], Accepted))
      .Enter(ObjectsDeactivated, None).Enter(ObjectsCreated, None).Enter(Succeeded, None)
  }

  /** The other shard is `{a, b}`. */
  ghost predicate Other(others: set<nat>, a: nat, b: nat) {
    && a != b && |others| == 1
    && forall s | s in others :: PAIRS.top.Members(s) == {a, b}
  }

  lemma Halves(others: set<nat>, a: nat, b: nat)
    requires Other(others, a, b)
    ensures Judge(PAIRS.top, others, map[a := true]) == Waiting
    ensures Judge(PAIRS.top, others, map[a := true, b := true]) == Accepted
  {
    var s :| s in others;
    assert |Saying(PAIRS.top, s, map[a := true], false)| == 0;
    assert b in PAIRS.top.Members(s) && b !in Saying(PAIRS.top, s, map[a := true], true);
    assert Saying(PAIRS.top, s, map[a := true, b := true], true) == {a, b};
    assert |Saying(PAIRS.top, s, map[a := true, b := true], false)| == 0;
    assert others == {s} by { assert |others - {s}| == 0; }
  }

  // ---------------------------------------------------------------------------
  // One event each.

  /** One transition into `to`, after which there is `s` to go on with. */
  lemma Onward(n: Node, to: TxState, s: TxState, msg: Option<Sent>)
    requires n.Valid() && InTable(n.State(), to) && Go(FINE, false, to) == Next(s, msg)
    ensures Apply(n, to, FINE, false) == Apply(n.Enter(to, msg), s, FINE, false)
    ensures n.Enter(to, msg).State() == to
  {
  }

  lemma Halt(n: Node, to: TxState)
    requires n.Valid() && !InTable(n.State(), to)
    ensures Apply(n, to, FINE, false) == n
  {
  }

  lemma MovesTo(n: Node, to: TxState, n': Node)
    requires n.Valid() && n'.Valid() && HasAction(n.State()) && Act(n, FINE) == to != n.State()
    requires Apply(n, to, FINE, false) == n' && Rank(n'.State()) != Rank(n.State())
    requires !HasAction(n'.State()) || Act(n', FINE) == n'.State()
    ensures Move(n, FINE, false) == n'
  {
  }

  lemma Locks(n: Node)
    requires n.Valid() && n.State() == WaitingForConsensus1 && n.consensus1 == Accepted && n.phase1.verdict == Waiting
    ensures Move(n, FINE, false) ==
            n.Enter(ObjectLocked, None).Enter(AcceptPhase1Broadcasted, Some(Sent(Phase1, true))).Enter(WaitingForPhase1, None)
  {
    hide Apply;
    var n1 := n.Enter(ObjectLocked, None);
    var n2 := n1.Enter(AcceptPhase1Broadcasted, Some(Sent(Phase1, true)));
    var n3 := n2.Enter(WaitingForPhase1, None);
    Onward(n, ObjectLocked, AcceptPhase1Broadcasted, None);
    Onward(n1, AcceptPhase1Broadcasted, WaitingForPhase1, Some(Sent(Phase1, true)));
    Onward(n2, WaitingForPhase1, WaitingForPhase1, None);
    Halt(n3, WaitingForPhase1);
    MovesTo(n, ObjectLocked, n3);
  }

  lemma Triggers(n: Node)
    requires n.Valid() && n.State() == WaitingForPhase1 && n.phase1.verdict == Accepted && n.consensus2 == Waiting
    ensures Move(n, FINE, false) == n.Enter(Consensus2Triggered, None).Enter(WaitingForConsensus2, None)
  {
    hide Apply;
    var n1 := n.Enter(Consensus2Triggered, None);
    var n2 := n1.Enter(WaitingForConsensus2, None);
    Onward(n, Consensus2Triggered, WaitingForConsensus2, None);
    Onward(n1, WaitingForConsensus2, WaitingForConsensus2, None);
    Halt(n2, WaitingForConsensus2);
    MovesTo(n, Consensus2Triggered, n2);
  }

  lemma Confirms(n: Node)
    requires n.Valid() && n.State() == WaitingForConsensus2 && n.consensus2 == Accepted && n.phase2.verdict == Waiting
    ensures Move(n, FINE, false) == n.Enter(AcceptPhase2Broadcasted, Some(Sent(Phase2, true))).Enter(WaitingForPhase2, None)
  {
    hide Apply;
    var n1 := n.Enter(AcceptPhase2Broadcasted, Some(Sent(Phase2, true)));
    var n2 := n1.Enter(WaitingForPhase2, None);
    Onward(n, AcceptPhase2Broadcasted, WaitingForPhase2, Some(Sent(Phase2, true)));
    Onward(n1, WaitingForPhase2, WaitingForPhase2, None);
    Halt(n2, WaitingForPhase2);
    MovesTo(n, AcceptPhase2Broadcasted, n2);
  }

  lemma Aborts(n: Node)
    requires n.Valid() && n.State() == WaitingForConsensus2 && n.consensus2 == Rejected
    ensures Move(n, FINE, false) == n.Enter(RejectPhase2Broadcasted, Some(Sent(Phase2, false))).Enter(Aborted, None)
  {
    hide Apply;
    var n1 := n.Enter(RejectPhase2Broadcasted, Some(Sent(Phase2, false)));
    var n2 := n1.Enter(Aborted, None);
    Onward(n, RejectPhase2Broadcasted, Aborted, Some(Sent(Phase2, false)));
    Onward(n1, Aborted, Aborted, None);
    Halt(n2, Aborted);
    MovesTo(n, RejectPhase2Broadcasted, n2);
  }

  lemma Consumes(n: Node)
    requires n.Valid() && n.State() == WaitingForPhase2 && n.phase2.verdict == Accepted
    ensures Move(n, FINE, false) == n.Enter(ObjectsDeactivated, None).Enter(ObjectsCreated, None).Enter(Succeeded, None)
  {
    hide Apply;
    var n1 := n.Enter(ObjectsDeactivated, None);
    var n2 := n1.Enter(ObjectsCreated, None);
    var n3 := n2.Enter(Succeeded, None);
    Onward(n, ObjectsDeactivated, ObjectsCreated, None);
    Onward(n1, ObjectsCreated, Succeeded, None);
    Onward(n2, Succeeded, Succeeded, None);
    Halt(n3, Succeeded);
    MovesTo(n, ObjectsDeactivated, n3);
  }

  lemma First(others: set<nat>)
    requires others != {}
    ensures Consume(PAIRS.top, others, Fresh(WaitingForConsensus1), Decided(Consensus1, true), FINE) == Locked()
  {
    hide Move;
    Locks(Fresh(WaitingForConsensus1).(consensus1 := Accepted));
  }

  lemma Second(others: set<nat>, a: nat, b: nat)
    requires Other(others, a, b)
    ensures Consume(PAIRS.top, others, Locked(), Heard(Phase1, true, a), FINE) == HeardOne(a)
    ensures Consume(PAIRS.top, others, HeardOne(a), Heard(Phase1, true, b), FINE) == HeardBoth(a, b)
  {
    Halves(others, a, b);
    hide Judge;
    Triggers(Locked().(phase1 := Ballots(map[a := true, b := true], Accepted)));
  }

  lemma Confirming(others: set<nat>, a: nat, b: nat)
    requires Other(others, a, b)
    ensures Consume(PAIRS.top, others, HeardBoth(a, b), Decided(Consensus2, true), FINE) == Confirmed(a, b)
  {
    hide Move, Judge;
    Confirms(HeardBoth(a, b).(consensus2 := Accepted));
  }

  lemma Refusing(others: set<nat>, a: nat, b: nat)
    requires Other(others, a, b)
    ensures Consume(PAIRS.top, others, HeardBoth(a, b), Decided(Consensus2, false), FINE) == Refused(a, b)
  {
    hide Move, Judge;
    Aborts(HeardBoth(a, b).(consensus2 := Rejected));
  }

  lemma Third(others: set<nat>, a: nat, b: nat)
    requires Other(others, a, b)
    ensures Consume(PAIRS.top, others, HeardBoth(a, b), Decided(Consensus2, true), FINE) == Confirmed(a, b)
    ensures Consume(PAIRS.top, others, HeardBoth(a, b), Decided(Consensus2, false), FINE) == Refused(a, b)
  {
    hide Consume, HeardBoth, Confirmed, Refused;
    Confirming(others, a, b);
    Refusing(others, a, b);
  }

  lemma Fourth(others: set<nat>, a: nat, b: nat)
    requires Other(others, a, b)
    ensures Consume(PAIRS.top, others, Confirmed(a, b), Heard(Phase2, true, a), FINE) == HalfConfirmed(a, b)
    ensures Consume(PAIRS.top, others, HalfConfirmed(a, b), Heard(Phase2, true, b), FINE) == Consumed(a, b)
  {
    Halves(others, a, b);
    hide Judge;
    Consumes(Confirmed(a, b).(phase2 := Ballots(map[a := true, b := true], Accepted)));
  }

  // ---------------------------------------------------------------------------
  // The run.

  lemma FourNodes(n: nat)
    ensures PAIRS.top.TotalNodes() == 4
    ensures 1 <= n <= 4 ==> PAIRS.top.ShardForNode(n) == if n == 1 || n == 3 then 1 else 2
  {
    if n == 1 { assert 0 % 2 == 0; } else if n == 2 { assert 1 % 2 == 1; } else if n == 3 { assert 2 % 2 == 0; } else if n == 4 { assert 3 % 2 == 1; }
  }

  lemma MembersOf()
    ensures PAIRS.top.Members(1) == {1, 3} && PAIRS.top.Members(2) == {2, 4}
  {
    forall n ensures n in PAIRS.top.Members(1) <==> n in {1, 3} { if n >= 0 { FourNodes(n); } }
    forall n ensures n in PAIRS.top.Members(2) <==> n in {2, 4} { if n >= 0 { FourNodes(n); } }
  }

  lemma TwoShards()
    ensures PAIRS.Valid() && PAIRS.faulty == {}
    ensures forall n :: PAIRS.Participant(n) <==> n in {1, 2, 3, 4}
    ensures Other(PAIRS.Others(1), 2, 4) && Other(PAIRS.Others(3), 2, 4) && Other(PAIRS.Others(2), 1, 3) && Other(PAIRS.Others(4), 1, 3)
  {
    MembersOf();
    forall n: nat ensures PAIRS.Participant(n) <==> n in {1, 2, 3, 4} { FourNodes(n); }
    FourNodes(1);
    FourNodes(2);
    FourNodes(3);
    FourNodes(4);
    assert PAIRS.Others(1) == PAIRS.Others(3) == {2} && PAIRS.Others(2) == PAIRS.Others(4) == {1};
    assert PAIRS.top.Members(1) * {} == {} && PAIRS.top.Members(2) * {} == {};
  }

  /** Nodes by number; the entry at 0 stands for nothing. */
  function Of(ns: seq<Node>): Nodes {
    map i | 1 <= i < |ns| :: ns[i]
  }

  lemma OfUpdate(ns: seq<Node>, who: nat, after: Node)
    requires 1 <= who < |ns|
    ensures Of(ns[who := after]) == Of(ns)[who := after] && who in Of(ns) && Of(ns)[who] == ns[who]
  {
  }

  lemma Extend(su: Setup, deeds: seq<Deed>, before: Nodes, d: Deed, nodes: Nodes)
    requires su.top.Valid() && Runs(su, deeds, before) && Leads(su, before, d, nodes)
    ensures Runs(su, deeds + [d], nodes)
  {
    assert (deeds + [d])[..|deeds|] == deeds && Last(deeds + [d]) == d;
  }

  /** Node `who` handles an event. */
  lemma Does(su: Setup, deeds: seq<Deed>, ns: seq<Node>, who: nat, event: Event, after: Node) returns (deeds': seq<Deed>)
    requires su.top.Valid() && Runs(su, deeds, Of(ns)) && 1 <= who < |ns|
    requires event.Heard? ==> 1 <= event.sender < |ns| && Sent(event.op, event.accept) in ns[event.sender].sent
    requires ns[who].Valid() && Consume(su.top, su.Others(who), ns[who], event, FINE) == after
    ensures Runs(su, deeds', Of(ns[who := after]))
  {
    var d := Deed(who, event, FINE);
    deeds' := deeds + [d];
    OfUpdate(ns, who, after);
    if event.Heard? { OfUpdate(ns, event.sender, after); }
    assert Leads(su, Of(ns), d, Of(ns[who := after])) by { hide Runs, Consume, Of; }
    Extend(su, deeds, Of(ns), d, Of(ns[who := after]));
  }

  lemma StartRun() returns (deeds: seq<Deed>)
    ensures PAIRS.top.Valid() && deeds == [] && Runs(PAIRS, deeds, Of(seq(5, _ => Fresh(WaitingForConsensus1))))
  {
    TwoShards();
    deeds := [];
  }

  /** A node's way to the end of phase 1; every node has accepted by then. */
  lemma LockOne(deeds: seq<Deed>, ns: seq<Node>, who: nat) returns (deeds': seq<Deed>)
    requires PAIRS.top.Valid() && Runs(PAIRS, deeds, Of(ns)) && |ns| == 5 && 1 <= who <= 4 && ns[who] == Fresh(WaitingForConsensus1)
    ensures Runs(PAIRS, deeds', Of(ns[who := Locked()]))
  {
    assert PAIRS.Others(who) != {} by { assert 1 in PAIRS.Others(who) || 2 in PAIRS.Others(who); }
    First(PAIRS.Others(who));
    deeds' := Does(PAIRS, deeds, ns, who, Decided(Consensus1, true), Locked());
  }

  lemma ValidNodes(a: nat, b: nat)
    ensures Locked().Valid() && HeardOne(a).Valid() && HeardBoth(a, b).Valid() && HalfConfirmed(a, b).Valid() && Confirmed(a, b).Valid()
  {
  }

  lemma HearBoth(deeds: seq<Deed>, ns: seq<Node>, who: nat, a: nat, b: nat) returns (deeds': seq<Deed>)
    requires PAIRS.top.Valid() && Runs(PAIRS, deeds, Of(ns)) && |ns| == 5 && 1 <= who <= 4 && ns[who] == Locked()
    requires Other(PAIRS.Others(who), a, b) && who != a && who != b && 1 <= a <= 4 && 1 <= b <= 4
    requires Sent(Phase1, true) in ns[a].sent && Sent(Phase1, true) in ns[b].sent
    ensures Runs(PAIRS, deeds', Of(ns[who := HeardBoth(a, b)]))
  {
    ValidNodes(a, b);
    hide *;
    Second(PAIRS.Others(who), a, b);
    var ns1 := ns[who := HeardOne(a)];
    deeds' := Does(PAIRS, deeds, ns, who, Heard(Phase1, true, a), HeardOne(a));
    deeds' := Does(PAIRS, deeds', ns1, who, Heard(Phase1, true, b), HeardBoth(a, b));
    assert ns1[who := HeardBoth(a, b)] == ns[who := HeardBoth(a, b)];
  }

  lemma ConsumeBoth(deeds: seq<Deed>, ns: seq<Node>, who: nat, a: nat, b: nat) returns (deeds': seq<Deed>)
    requires PAIRS.top.Valid() && Runs(PAIRS, deeds, Of(ns)) && |ns| == 5 && 1 <= who <= 4 && ns[who] == Confirmed(a, b)
    requires Other(PAIRS.Others(who), a, b) && who != a && who != b && 1 <= a <= 4 && 1 <= b <= 4
    requires Sent(Phase2, true) in ns[a].sent && Sent(Phase2, true) in ns[b].sent
    ensures Runs(PAIRS, deeds', Of(ns[who := Consumed(a, b)]))
  {
    ValidNodes(a, b);
    hide *;
    Fourth(PAIRS.Others(who), a, b);
    var ns1 := ns[who := HalfConfirmed(a, b)];
    deeds' := Does(PAIRS, deeds, ns, who, Heard(Phase2, true, a), HalfConfirmed(a, b));
    deeds' := Does(PAIRS, deeds', ns1, who, Heard(Phase2, true, b), Consumed(a, b));
    assert ns1[who := Consumed(a, b)] == ns[who := Consumed(a, b)];
  }

  lemma Confirm(deeds: seq<Deed>, ns: seq<Node>, who: nat, a: nat, b: nat, ok: bool) returns (deeds': seq<Deed>)
    requires PAIRS.top.Valid() && Runs(PAIRS, deeds, Of(ns)) && |ns| == 5 && 1 <= who <= 4 && ns[who] == HeardBoth(a, b)
    requires Other(PAIRS.Others(who), a, b)
    ensures Runs(PAIRS, deeds', Of(ns[who := if ok then Confirmed(a, b) else Refused(a, b)]))
  {
    ValidNodes(a, b);
    hide *;
    Third(PAIRS.Others(who), a, b);
    deeds' := Does(PAIRS, deeds, ns, who, Decided(Consensus2, ok), if ok then Confirmed(a, b) else Refused(a, b));
  }

  lemma AllLock() returns (deeds: seq<Deed>)
    ensures PAIRS.top.Valid() && Runs(PAIRS, deeds, Of([Fresh(WaitingForConsensus1), Locked(), Locked(), Locked(), Locked()]))
  {
    deeds := StartRun();
    var f, l := Fresh(WaitingForConsensus1), Locked();
    assert seq(5, _ => f) == [f, f, f, f, f];
    hide Runs, Locked, Fresh;
    deeds := LockOne(deeds, [f, f, f, f, f], 1);
    assert [f, f, f, f, f][1 := l] == [f, l, f, f, f];
    deeds := LockOne(deeds, [f, l, f, f, f], 2);
    assert [f, l, f, f, f][2 := l] == [f, l, l, f, f];
    deeds := LockOne(deeds, [f, l, l, f, f], 3);
    assert [f, l, l, f, f][3 := l] == [f, l, l, l, f];
    deeds := LockOne(deeds, [f, l, l, l, f], 4);
    assert [f, l, l, l, f][4 := l] == [f, l, l, l, l];
  }

  lemma Accepting(a: nat, b: nat)
    ensures Sent(Phase1, true) in Locked().sent && Sent(Phase1, true) in HeardBoth(a, b).sent
  {
  }

  lemma Ends(a: nat, b: nat)
    ensures Sent(Phase2, true) in Confirmed(a, b).sent
    ensures ObjectsDeactivated in Consumed(a, b).trace && Aborted in Refused(a, b).trace
  {
    var c, w := Consumed(a, b), Refused(a, b);
    assert c.trace[|c.trace| - 3] == ObjectsDeactivated && w.trace[|w.trace| - 1] == Aborted;
  }

  lemma AllHear() returns (deeds: seq<Deed>)
    ensures PAIRS.top.Valid() && Runs(PAIRS, deeds, Of([Fresh(WaitingForConsensus1), HeardBoth(2, 4), HeardBoth(1, 3), HeardBoth(2, 4), HeardBoth(1, 3)]))
  {
    hide *;
    TwoShards();
    Accepting(2, 4);
    Accepting(1, 3);
    deeds := AllLock();
    var f, l, x, y := Fresh(WaitingForConsensus1), Locked(), HeardBoth(2, 4), HeardBoth(1, 3);
    deeds := HearBoth(deeds, [f, l, l, l, l], 1, 2, 4);
    assert [f, l, l, l, l][1 := x] == [f, x, l, l, l];
    deeds := HearBoth(deeds, [f, x, l, l, l], 2, 1, 3);
    assert [f, x, l, l, l][2 := y] == [f, x, y, l, l];
    deeds := HearBoth(deeds, [f, x, y, l, l], 3, 2, 4);
    assert [f, x, y, l, l][3 := x] == [f, x, y, x, l];
    deeds := HearBoth(deeds, [f, x, y, x, l], 4, 1, 3);
    assert [f, x, y, x, l][4 := y] == [f, x, y, x, y];
  }

  /** All nodes are honest, yet node 1 has consumed its inputs and node 3, of the
      same shard, has aborted. */
  lemma Diverges() returns (deeds: seq<Deed>, nodes: Nodes)
    ensures PAIRS.Valid() && PAIRS.faulty == {} && Runs(PAIRS, deeds, nodes) && 1 in nodes && 3 in nodes
    ensures ObjectsDeactivated in nodes[1].trace && Aborted in nodes[3].trace
  {
    hide *;
    TwoShards();
    Ends(2, 4);
    Ends(1, 3);
    deeds := AllHear();
    var f, x, y, u, v, w, c := Fresh(WaitingForConsensus1), HeardBoth(2, 4), HeardBoth(1, 3), Confirmed(2, 4), Confirmed(1, 3), Refused(2, 4), Consumed(2, 4);
    deeds := Confirm(deeds, [f, x, y, x, y], 1, 2, 4, true);
    assert [f, x, y, x, y][1 := u] == [f, u, y, x, y];
    deeds := Confirm(deeds, [f, u, y, x, y], 2, 1, 3, true);
    assert [f, u, y, x, y][2 := v] == [f, u, v, x, y];
    deeds := Confirm(deeds, [f, u, v, x, y], 3, 2, 4, false);
    assert [f, u, v, x, y][3 := w] == [f, u, v, w, y];
    deeds := Confirm(deeds, [f, u, v, w, y], 4, 1, 3, true);
    assert [f, u, v, w, y][4 := v] == [f, u, v, w, v];
    deeds := ConsumeBoth(deeds, [f, u, v, w, v], 1, 2, 4);
    assert [f, u, v, w, v][1 := c] == [f, c, v, w, v];
    nodes := Of([f, c, v, w, v]);
    OfUpdate([f, c, v, w, v], 1, c);
    OfUpdate([f, c, v, w, v], 3, w);
  }
}

/** Atomicity across shards: all the nodes of the shards that a transaction involves,
    each with its machine, exchanging messages in any order. */
module CrossShard {
  import opened Messages
  import opened Shards
  import opened TxStates
  import opened TxNode
  import opened Sets

  // ---------------------------------------------------------------------------
  // What is true of one node, whatever it hears.

  /** Why a machine may go from one state to the next. */
  predicate Guard(n: Node, local: bool, from: TxState, to: TxState) {
    && InTable(from, to)
    && (from.WaitingForPhase1? ==> n.phase1.verdict == if to.Aborted? then Rejected else Accepted)
    && (from.WaitingForPhase2? ==> n.phase2.verdict == if to.Aborted? then Rejected else Accepted)
    && (from.WaitingForConsensus2? ==> n.consensus2 == if to.RejectPhase2Broadcasted? then Rejected else Accepted)
    && (from.ObjectLocked? && to.ObjectsDeactivated? ==> local)
    && (from.AcceptPhase1Broadcasted? ==> Sent(Phase1, true) in n.sent)
    && (from.AcceptPhase2Broadcasted? ==> Sent(Phase2, true) in n.sent)
  }

  /** The state in which a message is sent. */
  function SentIn(m: Sent): TxState {
    match m
    case Sent(Phase1, accept) => if accept then AcceptPhase1Broadcasted else RejectPhase1Broadcasted
    case Sent(Phase2, accept) => if accept then AcceptPhase2Broadcasted else RejectPhase2Broadcasted
    case Sent(CommitPhase, _) => CommitObjectsBroadcasted
  }

  predicate BallotsOk(top: Topology, others: set<nat>, b: Ballots)
    requires top.Valid()
  {
    b.verdict != Waiting ==> b.verdict == Judge(top, others, b.decisions)
  }

  ghost predicate TraceOk(n: Node, local: bool) {
    && IsTrace(n.trace)
    && (forall i | 0 < i < |n.trace| :: Guard(n, local, n.trace[i - 1], n.trace[i]))
    && (forall m | m in n.sent :: SentIn(m) in n.trace)
  }

  ghost predicate NodeOk(top: Topology, others: set<nat>, n: Node)
    requires top.Valid()
  {
    TraceOk(n, others == {}) && forall op: SbacOp :: BallotsOk(top, others, n.Votes(op))
  }

  /** `n'` knows and said at least what `n` did. */
  predicate Later(n: Node, n': Node) {
    && (forall op: SbacOp :: n.Votes(op).verdict != Waiting ==> n'.Votes(op) == n.Votes(op))
    && (forall op: ConsensusOp :: n.Consensus(op) != Waiting ==> n'.Consensus(op) == n.Consensus(op))
    && (forall m | m in n.sent :: m in n'.sent)
  }

  lemma GuardStays(n: Node, n': Node, local: bool, from: TxState, to: TxState)
    requires Guard(n, local, from, to) && Later(n, n')
    ensures Guard(n', local, from, to)
  {
    assert n'.phase1 == n'.Votes(Phase1) && n.phase1 == n.Votes(Phase1);
    assert n'.phase2 == n'.Votes(Phase2) && n.phase2 == n.Votes(Phase2);
    assert n'.consensus2 == n'.Consensus(Consensus2) && n.consensus2 == n.Consensus(Consensus2);
  }

  lemma EnterOk(n: Node, local: bool, to: TxState, msg: Option<Sent>)
    requires TraceOk(n, local) && Guard(n, local, n.State(), to) && (msg.Some? ==> SentIn(msg.value) == to)
    ensures TraceOk(n.Enter(to, msg), local)
  {
    var n' := n.Enter(to, msg);
    forall i | 0 < i < |n'.trace| ensures Guard(n', local, n'.trace[i - 1], n'.trace[i]) {
      if i < |n.trace| { assert Guard(n, local, n.trace[i - 1], n.trace[i]); }
      assert Guard(n, local, n'.trace[i - 1], n'.trace[i]);
      GuardStays(n, n', local, n'.trace[i - 1], n'.trace[i]);
    }
    assert to in n'.trace;
  }

  /** Where a transition wants to go next, it may go. */
  lemma GoesOn(n: Node, env: Env, local: bool, to: TxState)
    requires Go(env, local, to).Next?
    ensures var e := Go(env, local, to);
            && (e.msg.Some? ==> SentIn(e.msg.value) == to)
            && (InTable(to, e.state) ==> Guard(n.Enter(to, e.msg), local, to, e.state))
  {
  }

  lemma {:induction false} ApplyOk(n: Node, to: TxState, env: Env, local: bool)
    requires TraceOk(n, local) && (InTable(n.State(), to) ==> Guard(n, local, n.State(), to))
    ensures var r := Apply(n, to, env, local); TraceOk(r, local) && n.trace <= r.trace && forall m | m in n.sent :: m in r.sent
    decreases 12 - Rank(n.State())
  {
    hide Guard, Go, SentIn, InTable;
    if InTable(n.State(), to) && Go(env, local, to).Next? {
      var e := Go(env, local, to);
      Climbs(n.State(), to);
      GoesOn(n, env, local, to);
      EnterOk(n, local, to, e.msg);
      hide TraceOk;
      ApplyOk(n.Enter(to, e.msg), e.state, env, local);
    }
  }

  lemma {:induction false} MoveOk(n: Node, env: Env, local: bool)
    requires TraceOk(n, local)
    ensures var r := Move(n, env, local); TraceOk(r, local) && n.trace <= r.trace && forall m | m in n.sent :: m in r.sent
    decreases 12 - Rank(n.State())
  {
    if HasAction(n.State()) && Act(n, env) != n.State() {
      ApplyOk(n, Act(n, env), env, local);
      var n1 := Apply(n, Act(n, env), env, local);
      if Rank(n1.State()) != Rank(n.State()) { MoveOk(n1, env, local); }
    }
  }

  /** An event adds to what a machine knows, and verdicts stay judgements. */
  lemma NoteAdds(top: Topology, others: set<nat>, n: Node, e: Event)
    requires top.Valid() && n.Valid() && forall op: SbacOp :: BallotsOk(top, others, n.Votes(op))
    ensures Later(n, Note(top, others, n, e)) && forall op: SbacOp :: BallotsOk(top, others, Note(top, others, n, e).Votes(op))
  {
    hide Judge;
    var n' := Note(top, others, n, e);
    forall op: SbacOp ensures BallotsOk(top, others, n'.Votes(op)) {
      assert BallotsOk(top, others, n.Votes(op));
    }
  }

  lemma NoteLater(top: Topology, others: set<nat>, n: Node, e: Event)
    requires top.Valid() && NodeOk(top, others, n)
    ensures Later(n, Note(top, others, n, e)) && NodeOk(top, others, Note(top, others, n, e))
  {
    var n' := Note(top, others, n, e);
    NoteAdds(top, others, n, e);
    hide Later, Note, Guard;
    forall i | 0 < i < |n'.trace| ensures Guard(n', others == {}, n'.trace[i - 1], n'.trace[i]) {
      GuardStays(n, n', others == {}, n.trace[i - 1], n.trace[i]);
    }
  }

  /** Moving on changes no votes. */
  lemma OnlyMoved(top: Topology, others: set<nat>, n: Node, n1: Node, n': Node)
    requires top.Valid() && Later(n, n1) && (forall op: SbacOp :: BallotsOk(top, others, n1.Votes(op)))
    requires (n' == n1 || n'.SameVotes(n1)) && forall m | m in n1.sent :: m in n'.sent
    ensures Later(n, n') && forall op: SbacOp :: BallotsOk(top, others, n'.Votes(op))
  {
    hide BallotsOk;
    assert forall op: SbacOp :: n'.Votes(op) == n1.Votes(op);
    assert forall op: ConsensusOp :: n'.Consensus(op) == n1.Consensus(op);
  }

  lemma ConsumeOk(top: Topology, others: set<nat>, n: Node, e: Event, env: Env)
    requires top.Valid() && NodeOk(top, others, n)
    ensures var n' := Consume(top, others, n, e, env); NodeOk(top, others, n') && Later(n, n') && n.trace <= n'.trace
  {
    NoteLater(top, others, n, e);
    var n1 := Note(top, others, n, e);
    hide Note, Move, TraceOk, BallotsOk, Later, Node.SameVotes, Node.Votes;
    MoveOk(n1, env, others == {});
    OnlyMoved(top, others, n, n1, Consume(top, others, n, e, env));
  }

  // ---------------------------------------------------------------------------
  // The system.

  /** The shards that hold inputs or references of the transaction, and the nodes
      that may say anything to anyone. */
  datatype Setup = Setup(top: Topology, shards: set<nat>, faulty: set<nat>) {
    ghost predicate Valid() {
      && top.Valid()
      && (forall s | s in shards :: 1 <= s <= top.shardCount)
      && (forall s | s in shards :: |top.Members(s) * faulty| <= top.shardSize / 3)
    }

    function Others(n: nat): set<nat>
      requires top.Valid() && n > 0
    {
      shards - {top.ShardForNode(n)}
    }

    predicate Participant(n: nat)
      requires top.Valid()
    {
      1 <= n <= top.TotalNodes() && top.ShardForNode(n) in shards
    }

    predicate Honest(n: nat)
      requires top.Valid()
    {
      Participant(n) && n !in faulty
    }
  }

  type Nodes = map<nat, Node>

  /** A node handles one event. */
  datatype Deed = Deed(node: nat, event: Event, env: Env)

  predicate SaidBy(nodes: Nodes, n: nat, m: Sent) {
    n in nodes && m in nodes[n].sent
  }

  /** Messages are not forged: an honest sender has said what is heard from it. */
  predicate MayHappen(su: Setup, nodes: Nodes, d: Deed) {
    && d.node in nodes
    && (d.event.Heard? ==> d.event.sender in su.faulty || SaidBy(nodes, d.event.sender, Sent(d.event.op, d.event.accept)))
  }

  ghost predicate NodesOk(su: Setup, nodes: Nodes)
    requires su.top.Valid()
  {
    && (forall n :: n in nodes <==> su.Participant(n))
    && (forall n | n in nodes :: NodeOk(su.top, su.Others(n), nodes[n]) && nodes[n].trace[0].WaitingForConsensus1?)
    && (forall n, op: SbacOp, sender | n in nodes && sender in nodes[n].Votes(op).decisions :: Backed(su, nodes, n, op, sender))
  }

  /** A decision that was counted is one that its sender sent. */
  predicate Backed(su: Setup, nodes: Nodes, n: nat, op: SbacOp, sender: nat) {
    n in nodes && sender in nodes[n].Votes(op).decisions &&
    (sender in su.faulty || SaidBy(nodes, sender, Sent(op, nodes[n].Votes(op).decisions[sender])))
  }

  function Happen(su: Setup, nodes: Nodes, d: Deed): Nodes
    requires su.top.Valid() && d.node in nodes && d.node > 0 && nodes[d.node].Valid()
  {
    nodes[d.node := Consume(su.top, su.Others(d.node), nodes[d.node], d.event, d.env)]
  }

  function Last(deeds: seq<Deed>): Deed
    requires deeds != []
  {
    deeds[|deeds| - 1]
  }

  ghost predicate Runs(su: Setup, deeds: seq<Deed>, nodes: Nodes)
    requires su.top.Valid()
  {
    if deeds == [] then
      && (forall n :: n in nodes <==> su.Participant(n))
      && (forall n | n in nodes :: nodes[n] == Fresh(WaitingForConsensus1))
    else
      exists before: Nodes :: Runs(su, deeds[..|deeds| - 1], before) && Leads(su, before, Last(deeds), nodes)
  }

  ghost predicate Leads(su: Setup, before: Nodes, d: Deed, nodes: Nodes)
    requires su.top.Valid()
  {
    MayHappen(su, before, d) && d.node > 0 && before[d.node].Valid() && nodes == Happen(su, before, d)
  }

  /** An event adds to what was counted at most what was heard. */
  lemma NoteDecides(top: Topology, others: set<nat>, n: Node, e: Event, op: SbacOp, sender: nat)
    requires top.Valid() && n.Valid() && sender in Note(top, others, n, e).Votes(op).decisions
    ensures var accept := Note(top, others, n, e).Votes(op).decisions[sender];
            e == Heard(op, accept, sender) || (sender in n.Votes(op).decisions && n.Votes(op).decisions[sender] == accept)
  {
    hide Judge;
  }

  lemma BackedStays(su: Setup, nodes: Nodes, d: Deed, op: SbacOp, sender: nat)
    requires su.top.Valid() && NodesOk(su, nodes) && MayHappen(su, nodes, d)
    requires sender in Happen(su, nodes, d)[d.node].Votes(op).decisions
    ensures Backed(su, Happen(su, nodes, d), d.node, op, sender)
  {
    var n := d.node;
    var n1, n' := Note(su.top, su.Others(n), nodes[n], d.event), Consume(su.top, su.Others(n), nodes[n], d.event, d.env);
    assert n'.Votes(op) == n1.Votes(op);
    NoteDecides(su.top, su.Others(n), nodes[n], d.event, op, sender);
    ConsumeOk(su.top, su.Others(n), nodes[n], d.event, d.env);
    assert sender in nodes[n].Votes(op).decisions ==> Backed(su, nodes, n, op, sender);
    hide NodesOk, NodeOk, Consume, Note;
    assert forall m | m in nodes[n].sent :: m in n'.sent;
  }

  lemma HappenOk(su: Setup, nodes: Nodes, d: Deed)
    requires su.top.Valid() && NodesOk(su, nodes) && MayHappen(su, nodes, d)
    ensures NodesOk(su, Happen(su, nodes, d))
  {
    var nodes' := Happen(su, nodes, d);
    ConsumeOk(su.top, su.Others(d.node), nodes[d.node], d.event, d.env);
    forall n, op: SbacOp, sender | n in nodes' && sender in nodes'[n].Votes(op).decisions ensures Backed(su, nodes', n, op, sender) {
      if n == d.node {
        BackedStays(su, nodes, d, op, sender);
      } else {
        assert Backed(su, nodes, n, op, sender);
      }
    }
  }

  lemma FreshOk(top: Topology, others: set<nat>)
    requires top.Valid()
    ensures NodeOk(top, others, Fresh(WaitingForConsensus1))
  {
  }

  lemma {:induction false} RunOk(su: Setup, deeds: seq<Deed>, nodes: Nodes)
    requires su.top.Valid() && Runs(su, deeds, nodes)
    ensures NodesOk(su, nodes)
  {
    if deeds == [] {
      forall n | n in nodes ensures NodeOk(su.top, su.Others(n), nodes[n]) { FreshOk(su.top, su.Others(n)); }
      assert forall n, op: SbacOp | n in nodes :: nodes[n].Votes(op).decisions == map[];
    } else {
      var before: Nodes :| Runs(su, deeds[..|deeds| - 1], before) && Leads(su, before, Last(deeds), nodes);
      RunOk(su, deeds[..|deeds| - 1], before);
      HappenOk(su, before, Last(deeds));
    }
  }

  // ---------------------------------------------------------------------------
  // Atomicity.

  /** The guards of a path hold for as long as the path is in the trace. */
  lemma PassedPhase1(n: Node, local: bool)
    requires TraceOk(n, local) && AcceptPhase2Broadcasted in n.trace
    ensures n.phase1.verdict == Accepted && n.consensus2 == Accepted
  {
    var i :| 0 <= i < |n.trace| && n.trace[i] == AcceptPhase2Broadcasted;
    TracePrefix(n.trace, i + 1);
    OnlyWay(n.trace[..i + 1]);
    assert n.trace[..i + 1][3] == n.trace[3] && n.trace[..i + 1][4] == n.trace[4];
    assert Guard(n, local, n.trace[4 - 1], n.trace[4]);
    assert n.trace[..i + 1][5] == n.trace[5] && n.trace[..i + 1][6] == n.trace[6];
    assert Guard(n, local, n.trace[6 - 1], n.trace[6]);
  }

  /** With inputs in other shards, deactivation comes after every phase. */
  lemma PassedPhase2(n: Node)
    requires TraceOk(n, false) && ObjectsDeactivated in n.trace
    ensures AcceptPhase2Broadcasted in n.trace && n.phase2.verdict == Accepted
  {
    var i :| 0 <= i < |n.trace| && n.trace[i] == ObjectsDeactivated;
    TracePrefix(n.trace, i + 1);
    var way := n.trace[..i + 1];
    WaysToDeactivation(way);
    assert Guard(n, false, n.trace[i - 1], n.trace[i]) && n.trace[i - 1] == way[i - 1];
    assert way == CROSS_SHARD;
    assert n.trace[6] == way[6] == AcceptPhase2Broadcasted;
  }

  /** An accepted phase has heard every node of every other shard accept. */
  lemma AcceptedByAll(su: Setup, nodes: Nodes, n: nat, op: SbacOp, m: nat)
    requires su.top.Valid() && NodesOk(su, nodes) && n in nodes && nodes[n].Votes(op).verdict == Accepted
    requires su.Honest(m) && su.top.ShardForNode(m) in su.Others(n)
    ensures SaidBy(nodes, m, Sent(op, true))
  {
    var b, shard := nodes[n].Votes(op), su.top.ShardForNode(m);
    assert BallotsOk(su.top, su.Others(n), b);
    assert AllAccept(su.top, shard, b.decisions);
    assert m in Saying(su.top, shard, b.decisions, true);
    assert Backed(su, nodes, n, op, m);
  }

  lemma HonestMember(su: Setup, shard: nat) returns (m: nat)
    requires su.Valid() && shard in su.shards
    ensures su.Honest(m) && su.top.ShardForNode(m) == shard
  {
    ShardsPartition(su.top, shard);
    var all := su.top.Members(shard);
    assert |all - su.faulty| == |all| - |all * su.faulty|;
    assert all - su.faulty != {};
    m :| m in all - su.faulty;
  }

  /** If a node gets to deactivate its objects, all have accepted in phase 1: those
      of other shards to its own face, and those of its own shard to the face of a
      node elsewhere that went on to accept in phase 2. */
  lemma EveryoneAccepted(su: Setup, nodes: Nodes, n: nat, m: nat)
    requires su.Valid() && NodesOk(su, nodes) && su.Honest(n) && su.Honest(m)
    requires su.Others(n) != {} && ObjectsDeactivated in nodes[n].trace
    ensures SaidBy(nodes, m, Sent(Phase1, true))
  {
    PassedPhase2(nodes[n]);
    PassedPhase1(nodes[n], false);
    if su.top.ShardForNode(m) in su.Others(n) {
      assert nodes[n].Votes(Phase1).verdict == Accepted;
      AcceptedByAll(su, nodes, n, Phase1, m);
    } else {
      var shard :| shard in su.Others(n);
      var w := HonestMember(su, shard);
      assert nodes[n].Votes(Phase2).verdict == Accepted;
      AcceptedByAll(su, nodes, n, Phase2, w);
      assert SentIn(Sent(Phase2, true)) in nodes[w].trace;
      PassedPhase1(nodes[w], su.Others(w) == {});
      assert nodes[w].Votes(Phase1).verdict == Accepted;
      AcceptedByAll(su, nodes, w, Phase1, m);
    }
  }

  /** A node that has accepted in phase 1 has not refused. */
  lemma NeverBoth(n: Node, local: bool)
    requires TraceOk(n, local) && n.trace[0].WaitingForConsensus1? && AcceptPhase1Broadcasted in n.trace
    ensures RejectPhase1Broadcasted !in n.trace && n.trace[..3] == CROSS_SHARD[..3]
  {
    var i :| 0 <= i < |n.trace| && n.trace[i] == AcceptPhase1Broadcasted;
    TracePrefix(n.trace, i + 1);
    OnlyWay(n.trace[..i + 1]);
    assert n.trace[..i + 1] == CROSS_SHARD[..3];
    assert n.trace[1] == n.trace[..i + 1][1] == ObjectLocked;
    forall j | 0 <= j < |n.trace| ensures n.trace[j] != RejectPhase1Broadcasted {
      if j > 0 && n.trace[j] == RejectPhase1Broadcasted {
        assert InTable(n.trace[j - 1], n.trace[j]);
        NoRepeat(n.trace, 0, j - 1);
      }
    }
  }

  /** Refusals that are counted come from faulty nodes, or from nodes that refused. */
  lemma Refuser(su: Setup, nodes: Nodes, n: nat, op: SbacOp) returns (m: nat)
    requires su.Valid() && NodesOk(su, nodes) && su.Honest(n) && nodes[n].Votes(op).verdict == Rejected
    ensures su.Honest(m) && SaidBy(nodes, m, Sent(op, false))
  {
    var b := nodes[n].Votes(op);
    assert BallotsOk(su.top, su.Others(n), b);
    var shard :| shard in su.Others(n) && Refuses(su.top, shard, b.decisions);
    var no := Saying(su.top, shard, b.decisions, false);
    var few := su.top.Members(shard) * su.faulty;
    if no <= few { SubsetSize(no, few); }
    m :| m in no && m !in few;
    assert Backed(su, nodes, n, op, m);
  }

  /** Took part in phase 1, and neither refused, failed to lock, nor aborted there. */
  ghost predicate Took(n: Node) {
    && Sent(Phase1, true) in n.sent && Sent(Phase1, false) !in n.sent
    && n.phase1.verdict != Rejected
    && forall j | 0 < j < |n.trace| && n.trace[j].Aborted? ::
         n.trace[j - 1] !in {RejectPhase1Broadcasted, ObjectLocked, WaitingForPhase1}
  }

  lemma NotRefused(su: Setup, nodes: Nodes, n: nat, m: nat)
    requires su.Valid() && NodesOk(su, nodes) && su.Honest(n) && su.Honest(m)
    requires su.Others(n) != {} && ObjectsDeactivated in nodes[n].trace
    ensures nodes[m].phase1.verdict != Rejected
  {
    assert nodes[m].phase1 == nodes[m].Votes(Phase1);
    if nodes[m].phase1.verdict == Rejected {
      var r := Refuser(su, nodes, m, Phase1);
      EveryoneAccepted(su, nodes, n, r);
      assert SentIn(Sent(Phase1, true)) in nodes[r].trace && SentIn(Sent(Phase1, false)) in nodes[r].trace;
      NeverBoth(nodes[r], su.Others(r) == {});
    }
  }

  lemma TookTrace(x: Node, local: bool)
    requires TraceOk(x, local) && x.trace[0].WaitingForConsensus1? && Sent(Phase1, true) in x.sent && x.phase1.verdict != Rejected
    ensures Took(x)
  {
    assert SentIn(Sent(Phase1, true)) in x.trace;
    NeverBoth(x, local);
    assert Sent(Phase1, false) in x.sent ==> SentIn(Sent(Phase1, false)) in x.trace;
    forall j | 0 < j < |x.trace| && x.trace[j].Aborted?
      ensures x.trace[j - 1] !in {RejectPhase1Broadcasted, ObjectLocked, WaitingForPhase1}
    {
      assert Guard(x, local, x.trace[j - 1], x.trace[j]);
      if x.trace[j - 1] == ObjectLocked {
        assert x.trace[1] == x.trace[..3][1] && x.trace[2] == x.trace[..3][2];
        NoRepeat(x.trace, 1, j - 1);
      }
    }
  }

  lemma TookPart(su: Setup, nodes: Nodes, n: nat, m: nat)
    requires su.Valid() && NodesOk(su, nodes) && su.Honest(n) && su.Honest(m)
    requires su.Others(n) != {} && ObjectsDeactivated in nodes[n].trace
    ensures Took(nodes[m])
  {
    EveryoneAccepted(su, nodes, n, m);
    NotRefused(su, nodes, n, m);
    TookTrace(nodes[m], su.Others(m) == {});
  }

  /** In every run with inputs in several shards: if one honest node gets to
      deactivate its objects, no honest node of any involved shard refused, failed
      to lock, or aborted in phase 1. */
  lemma Atomicity(su: Setup, deeds: seq<Deed>, nodes: Nodes, n: nat)
    requires su.Valid() && Runs(su, deeds, nodes) && su.Honest(n) && su.Others(n) != {}
    requires n in nodes && ObjectsDeactivated in nodes[n].trace
    ensures forall m | su.Honest(m) :: m in nodes && Took(nodes[m])
  {
    RunOk(su, deeds, nodes);
    forall m | su.Honest(m) ensures m in nodes && Took(nodes[m]) {
      TookPart(su, nodes, n, m);
    }
  }

  /** After phase 1, a machine aborts out of phase 2 or after having refused there. */
  lemma AbortedFrom(n: Node, local: bool, j: nat)
    requires TraceOk(n, local) && n.trace[0].WaitingForConsensus1? && Took(n) && 0 < j < |n.trace| && n.trace[j].Aborted?
    ensures n.trace[j - 1] in n.trace
    ensures n.trace[j - 1].CommitObjectsBroadcasted? || n.trace[j - 1].RejectPhase2Broadcasted? ||
            (n.trace[j - 1].WaitingForPhase2? && n.phase2.verdict == Rejected)
  {
    assert Guard(n, local, n.trace[j - 1], n.trace[j]);
    NotCommitOnly(n, local, j - 1);
  }

  lemma RejectedThen(n: Node, local: bool)
    requires TraceOk(n, local) && RejectPhase2Broadcasted in n.trace
    ensures n.consensus2 == Rejected
  {
    var i :| 0 <= i < |n.trace| && n.trace[i] == RejectPhase2Broadcasted;
    assert Guard(n, local, n.trace[i - 1], n.trace[i]);
  }

  lemma {:induction false} NotCommitOnly(n: Node, local: bool, j: nat)
    requires TraceOk(n, local) && n.trace[0].WaitingForConsensus1? && j < |n.trace|
    ensures n.trace[j] !in {WaitingForCommit, ConsensusCommitTriggered, WaitingForConsensusCommit}
  {
    if j > 0 {
      assert InTable(n.trace[j - 1], n.trace[j]);
      NotCommitOnly(n, local, j - 1);
    }
  }
}

/** One node's machine for one transaction: the votes it counts, the actions and
    transitions it takes on an event, and the messages it sends. */
module TxNode {
  import opened Messages
  import opened Shards
  import opened TxStates

  datatype Verdict = Waiting | Accepted | Rejected

  datatype SbacOp = Phase1 | Phase2 | CommitPhase

  datatype ConsensusOp = Consensus1 | Consensus2 | ConsensusCommit

  // ---------------------------------------------------------------------------
  // Counting the other shards' decisions.

  /** The nodes of a shard that are known to have decided so. */
  function Saying(top: Topology, shard: nat, decisions: map<nat, bool>, accept: bool): set<nat>
    requires top.Valid()
  {
    set n | n in top.Members(shard) && n in decisions && decisions[n] == accept
  }

  /** More than the number of nodes of a shard that may be faulty. */
  function QuorumT1(shardSize: nat): nat { shardSize / 3 + 1 }

  predicate Refuses(top: Topology, shard: nat, decisions: map<nat, bool>)
    requires top.Valid()
  {
    |Saying(top, shard, decisions, false)| >= QuorumT1(top.shardSize)
  }

  predicate AllAccept(top: Topology, shard: nat, decisions: map<nat, bool>)
    requires top.Valid()
  {
    top.Members(shard) == Saying(top, shard, decisions, true)
  }

  /** What the decisions of the shards `others` come to. */
  function Judge(top: Topology, others: set<nat>, decisions: map<nat, bool>): Verdict
    requires top.Valid()
  {
    if exists s :: s in others && Refuses(top, s, decisions) then Rejected
    else if forall s | s in others :: AllAccept(top, s, decisions) then Accepted
    else Waiting
  }

  function SayingIn(nodes: seq<nat>, decisions: map<nat, bool>, accept: bool): set<nat> {
    set n | n in nodes && n in decisions && decisions[n] == accept
  }

  lemma OneMore(nodes: seq<nat>, i: nat, decisions: map<nat, bool>, accept: bool)
    requires i < |nodes| && nodes[i] !in nodes[..i]
    ensures |SayingIn(nodes[..i + 1], decisions, accept)| ==
            |SayingIn(nodes[..i], decisions, accept)| + if nodes[i] in decisions && decisions[nodes[i]] == accept then 1 else 0
  {
    var n, before := nodes[i], SayingIn(nodes[..i], decisions, accept);
    assert nodes[..i + 1] == nodes[..i] + [n];
    assert SayingIn(nodes[..i + 1], decisions, accept) == before + if n in decisions && decisions[n] == accept then {n} else {};
    assert n !in before;
  }

  method CountShard(top: Topology, shard: nat, decisions: map<nat, bool>) returns (accepted: nat, rejected: nat)
    requires top.Valid() && 1 <= shard <= top.shardCount
    ensures accepted == |Saying(top, shard, decisions, true)| && rejected == |Saying(top, shard, decisions, false)|
  {
    var r := NodesInShard(top, shard);
    var nodes := r.value;
    accepted, rejected := 0, 0;
    var i := 0;
    assert SayingIn(nodes, decisions, true) == Saying(top, shard, decisions, true);
    assert SayingIn(nodes, decisions, false) == Saying(top, shard, decisions, false);
    assert SayingIn(nodes[..0], decisions, true) == SayingIn(nodes[..0], decisions, false) == {};
    hide SayingIn, Saying;
    while i < |nodes|
      invariant i <= |nodes|
      invariant accepted == |SayingIn(nodes[..i], decisions, true)| && rejected == |SayingIn(nodes[..i], decisions, false)|
    {
      NotBefore(top, shard, nodes, i);
      OneMore(nodes, i, decisions, true);
      OneMore(nodes, i, decisions, false);
      if nodes[i] in decisions {
        if decisions[nodes[i]] {
          accepted := accepted + 1;
        } else {
          rejected := rejected + 1;
        }
      }
      i := i + 1;
    }
    assert nodes[..|nodes|] == nodes;
  }

  lemma NotBefore(top: Topology, shard: nat, nodes: seq<nat>, i: nat)
    requires top.Valid() && 1 <= shard <= top.shardCount && nodes == FirstMembers(top, shard, top.shardSize) && i < |nodes|
    ensures nodes[i] !in nodes[..i]
  {
    forall j | 0 <= j < i ensures nodes[j] != nodes[i] {
      Remainder(shard - 1, i, top.shardCount);
      Remainder(shard - 1, j, top.shardCount);
    }
  }

  lemma AllByCount(top: Topology, shard: nat, decisions: map<nat, bool>)
    requires top.Valid() && 1 <= shard <= top.shardCount
    ensures |Saying(top, shard, decisions, true)| >= top.shardSize <==> AllAccept(top, shard, decisions)
  {
    ShardsPartition(top, shard);
    var rest := top.Members(shard) - Saying(top, shard, decisions, true);
    assert |rest| == |top.Members(shard)| - |Saying(top, shard, decisions, true)|;
    assert rest == {} <==> AllAccept(top, shard, decisions);
  }

  /** `onSBACEvent`: the verdict does not depend on the order of the shards. */
  method OnSbacEvent(top: Topology, shards: seq<nat>, decisions: map<nat, bool>) returns (v: Verdict)
    requires top.Valid() && forall s | s in shards :: 1 <= s <= top.shardCount
    ensures v == Judge(top, (set s | s in shards), decisions)
  {
    hide AllAccept, Saying;
    var somePending := false;
    var i := 0;
    while i < |shards|
      invariant i <= |shards|
      invariant forall s | s in shards[..i] :: !Refuses(top, s, decisions)
      invariant somePending <==> exists s :: s in shards[..i] && !AllAccept(top, s, decisions)
    {
      var shard := shards[i];
      assert shard in shards && shards[..i + 1] == shards[..i] + [shard];
      var accepted, rejected := CountShard(top, shard, decisions);
      AllByCount(top, shard, decisions);
      if rejected >= QuorumT1(top.shardSize) {
        assert shard in (set s | s in shards) && Refuses(top, shard, decisions);
        return Rejected;
      }
      if accepted < top.shardSize {
        assert shard in shards[..i + 1] && !AllAccept(top, shard, decisions);
        somePending := true;
      }
      i := i + 1;
    }
    assert shards[..|shards|] == shards;
    if somePending { return Waiting; }
    v := Accepted;
  }

  // ---------------------------------------------------------------------------
  // The machine.

  /** The machine of one phase: a verdict other than waiting is final. */
  datatype Ballots = Ballots(decisions: map<nat, bool>, verdict: Verdict)

  function Hear(top: Topology, others: set<nat>, b: Ballots, sender: nat, accept: bool): Ballots
    requires top.Valid()
  {
    if b.verdict != Waiting then b
    else
      var decisions := b.decisions[sender := accept];
      Ballots(decisions, Judge(top, others, decisions))
  }

  datatype Sent = Sent(op: SbacOp, accept: bool)

  datatype Node = Node(
    trace: seq<TxState>,
    consensus1: Verdict, consensus2: Verdict, consensusCommit: Verdict,
    phase1: Ballots, phase2: Ballots, commit: Ballots,
    sent: seq<Sent>)
  {
    predicate Valid() { trace != [] }

    function State(): TxState
      requires Valid()
    {
      trace[|trace| - 1]
    }

    function Consensus(op: ConsensusOp): Verdict {
      match op
      case Consensus1 => consensus1
      case Consensus2 => consensus2
      case ConsensusCommit => consensusCommit
    }

    function WithConsensus(op: ConsensusOp, v: Verdict): Node {
      match op
      case Consensus1 => this.(consensus1 := v)
      case Consensus2 => this.(consensus2 := v)
      case ConsensusCommit => this.(consensusCommit := v)
    }

    function Votes(op: SbacOp): Ballots {
      match op
      case Phase1 => phase1
      case Phase2 => phase2
      case CommitPhase => commit
    }

    function WithVotes(op: SbacOp, b: Ballots): Node {
      match op
      case Phase1 => this.(phase1 := b)
      case Phase2 => this.(phase2 := b)
      case CommitPhase => this.(commit := b)
    }

    function Enter(s: TxState, msg: Option<Sent>): Node {
      this.(trace := trace + [s], sent := if msg.Some? then sent + [msg.value] else sent)
    }

    /** The other node differs in the states it was in and the messages it sent. */
    predicate SameVotes(n: Node) {
      this == n.(trace := trace, sent := sent)
    }
  }

  const NO_BALLOTS := Ballots(map[], Waiting)

  function Fresh(start: TxState): Node {
    Node([start], Waiting, Waiting, Waiting, NO_BALLOTS, NO_BALLOTS, NO_BALLOTS, [])
  }

  /** What the store, the signer and the broadcaster answer while an event is
      handled: whether inputs exist and are not inactive, whether they can be
      locked and deactivated, and so on. */
  datatype Env = Env(
    objectsOk: bool, locks: bool, signs: bool, triggers: bool, deactivates: bool,
    idsOk: bool, creates: bool, outputsHere: bool)

  predicate HasAction(s: TxState) {
    s in {WaitingForConsensus1, WaitingForConsensus2, WaitingForPhase1, WaitingForPhase2, WaitingForCommit, WaitingForConsensusCommit}
  }

  function Choose(v: Verdict, stay: TxState, accepted: TxState, rejected: TxState): TxState {
    match v
    case Waiting => stay
    case Accepted => accepted
    case Rejected => rejected
  }

  /** The `onWaiting` action of the current state. */
  function Act(n: Node, env: Env): TxState
    requires n.Valid()
  {
    match n.State()
    case WaitingForConsensus1 =>
      Choose(n.consensus1, n.State(), if env.objectsOk then ObjectLocked else RejectPhase1Broadcasted, RejectPhase1Broadcasted)
    case WaitingForConsensus2 => Choose(n.consensus2, n.State(), AcceptPhase2Broadcasted, RejectPhase2Broadcasted)
    case WaitingForConsensusCommit => Choose(n.consensusCommit, n.State(), ObjectsCreated, Aborted)
    case WaitingForPhase1 => Choose(n.phase1.verdict, n.State(), Consensus2Triggered, Aborted)
    case WaitingForPhase2 => Choose(n.phase2.verdict, n.State(), ObjectsDeactivated, Aborted)
    case WaitingForCommit => Choose(n.commit.verdict, n.State(), ConsensusCommitTriggered, Aborted)
    case s => s
  }

  datatype Effect = Fail | Next(state: TxState, msg: Option<Sent>)

  /** The transition into `to`: where it wants to go next and what it sends, or an
      error. `local` says that all inputs are in the node's own shard. */
  function Go(env: Env, local: bool, to: TxState): Effect {
    match to
    case RejectPhase1Broadcasted => Next(Aborted, if env.signs then Some(Sent(Phase1, false)) else None)
    case RejectPhase2Broadcasted => Next(Aborted, if env.signs then Some(Sent(Phase2, false)) else None)
    case AcceptPhase1Broadcasted => if env.signs then Next(WaitingForPhase1, Some(Sent(Phase1, true))) else Next(Aborted, None)
    case AcceptPhase2Broadcasted => if env.signs then Next(WaitingForPhase2, Some(Sent(Phase2, true))) else Next(Aborted, None)
    case ObjectLocked => Next(if !env.locks then Aborted else if local then ObjectsDeactivated else AcceptPhase1Broadcasted, None)
    case Consensus2Triggered => if env.triggers then Next(WaitingForConsensus2, None) else Fail
    case ConsensusCommitTriggered => if env.triggers then Next(WaitingForConsensusCommit, None) else Fail
    case ObjectsDeactivated => Next(if env.deactivates then ObjectsCreated else Aborted, None)
    case ObjectsCreated =>
      if !env.idsOk || !env.creates then Fail else Next(if env.outputsHere then Succeeded else CommitObjectsBroadcasted, None)
    case CommitObjectsBroadcasted =>
      if !env.signs then Next(Aborted, None) else if !env.idsOk then Fail else Next(Succeeded, Some(Sent(CommitPhase, true)))
    case Aborted => Next(if env.idsOk then Aborted else Succeeded, None)
    case s => Next(s, None)
  }

  /** `applyTransition`: follows transitions until there is none, or one fails. */
  function Apply(n: Node, to: TxState, env: Env, local: bool): (r: Node)
    requires n.Valid()
    ensures r.Valid() && Rank(n.State()) <= Rank(r.State())
    ensures r.SameVotes(n)
    decreases 12 - Rank(n.State())
  {
    if !InTable(n.State(), to) then n
    else
      match Go(env, local, to)
      case Fail => n
      case Next(s, msg) =>
        Climbs(n.State(), to);
        Apply(n.Enter(to, msg), s, env, local)
  }

  /** `moveState`. When a transition out of a waiting state fails, the source tries
      again from the same state; here the node stays there until the next event. */
  function Move(n: Node, env: Env, local: bool): (r: Node)
    requires n.Valid()
    ensures r.Valid() && r.SameVotes(n)
    decreases 12 - Rank(n.State())
  {
    if !HasAction(n.State()) then n
    else
      var to := Act(n, env);
      if to == n.State() then n
      else
        var n1 := Apply(n, to, env, local);
        if Rank(n1.State()) == Rank(n.State()) then n else Move(n1, env, local)
  }

  /** Whether `moveState` comes to a waiting state whose transition fails. The source
      then tries it again and again. */
  predicate Loops(n: Node, env: Env, local: bool)
    requires n.Valid()
    decreases 12 - Rank(n.State())
  {
    HasAction(n.State()) && Act(n, env) != n.State() &&
    var n1 := Apply(n, Act(n, env), env, local);
    Rank(n1.State()) == Rank(n.State()) || Loops(n1, env, local)
  }

  datatype Event = Decided(cop: ConsensusOp, ok: bool) | Heard(op: SbacOp, accept: bool, sender: nat)

  /** `processEvent`: the machine of the operation takes note of the event. */
  function Note(top: Topology, others: set<nat>, n: Node, e: Event): (r: Node)
    requires top.Valid() && n.Valid()
    ensures r.Valid() && r.trace == n.trace && r.sent == n.sent
  {
    match e
    case Decided(cop, ok) =>
      if n.Consensus(cop) != Waiting then n
      else n.WithConsensus(cop, if ok || cop.ConsensusCommit? then Accepted else Rejected)
    case Heard(op, accept, sender) => n.WithVotes(op, Hear(top, others, n.Votes(op), sender, accept))
  }

  /** `consumeEvent`. */
  function Consume(top: Topology, others: set<nat>, n: Node, e: Event, env: Env): (r: Node)
    requires top.Valid() && n.Valid()
    ensures r.Valid()
  {
    var n1 := Note(top, others, n, e);
    if n.State().Succeeded? || n.State().Aborted? then n1 else Move(n1, env, others == {})
  }
}

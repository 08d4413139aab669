/** When a transaction that one node has consumed is aborted by another. A run leaves
    every machine at rest: it has no refusal left to act upon. So an abort is not only
    explained by what a node has heard, it also follows from it. */
module Aborting {
  import opened Shards
  import opened TxStates
  import opened TxNode
  import opened CrossShard

  // ---------------------------------------------------------------------------
  // What one node has left to do.

  const COMMITTED := Sent(CommitPhase, true)

  predicate Ended(s: TxState) {
    s.Aborted? || s.Succeeded?
  }

  /** The commit message is sent on leaving its state, unless it cannot be signed;
      then the machine aborts. */
  predicate Signed(n: Node)
    requires n.Valid()
  {
    if CommitObjectsBroadcasted in n.trace then Ended(n.State()) && (n.State().Aborted? <==> COMMITTED !in n.sent)
    else COMMITTED !in n.sent
  }

  /** The machine acts on every refusal that it knows. */
  predicate Rests(n: Node)
    requires n.Valid()
  {
    && Signed(n)
    && !n.State().RejectPhase2Broadcasted?
    && !(n.State().WaitingForConsensus2? && n.consensus2 == Rejected)
    && !(n.State().WaitingForPhase2? && n.phase2.verdict == Rejected)
  }

  /** While transitions are followed: where the machine is and where it goes next. */
  predicate Bound(n: Node, to: TxState)
    requires n.Valid()
  {
    && (n.State().RejectPhase2Broadcasted? ==> to.Aborted?)
    && if n.State().CommitObjectsBroadcasted? then (to.Aborted? && COMMITTED !in n.sent) || (to.Succeeded? && COMMITTED in n.sent)
       else Signed(n)
  }

  lemma EnterBound(n: Node, to: TxState, env: Env, local: bool)
    requires n.Valid() && Bound(n, to) && InTable(n.State(), to) && Go(env, local, to).Next?
    ensures var e := Go(env, local, to); Bound(n.Enter(to, e.msg), e.state)
  {
  }

  lemma {:induction false} ApplyRests(n: Node, to: TxState, env: Env, local: bool)
    requires n.Valid() && Bound(n, to)
    ensures var r := Apply(n, to, env, local); Signed(r) && !r.State().RejectPhase2Broadcasted?
    decreases 12 - Rank(n.State())
  {
    if InTable(n.State(), to) && Go(env, local, to).Next? {
      var e := Go(env, local, to);
      Climbs(n.State(), to);
      EnterBound(n, to, env, local);
      ApplyRests(n.Enter(to, e.msg), e.state, env, local);
    }
  }

  /** A refusal has a transition that does not fail. */
  lemma RefusalMoves(n: Node, env: Env, local: bool)
    requires n.Valid()
    requires (n.State().WaitingForConsensus2? && n.consensus2 == Rejected) || (n.State().WaitingForPhase2? && n.phase2.verdict == Rejected)
    ensures Rank(Apply(n, Act(n, env), env, local).State()) > Rank(n.State())
  {
    var to := Act(n, env);
    var e := Go(env, local, to);
    Climbs(n.State(), to);
    assert Rank(to) <= Rank(Apply(n.Enter(to, e.msg), e.state, env, local).State());
  }

  lemma {:induction false} MoveRests(n: Node, env: Env, local: bool)
    requires n.Valid() && Signed(n) && !n.State().RejectPhase2Broadcasted?
    ensures Rests(Move(n, env, local))
    decreases 12 - Rank(n.State())
  {
    if HasAction(n.State()) && Act(n, env) != n.State() {
      var n1 := Apply(n, Act(n, env), env, local);
      ApplyRests(n, Act(n, env), env, local);
      if Rank(n1.State()) != Rank(n.State()) {
        MoveRests(n1, env, local);
      } else if (n.State().WaitingForConsensus2? && n.consensus2 == Rejected) || (n.State().WaitingForPhase2? && n.phase2.verdict == Rejected) {
        RefusalMoves(n, env, local);
      }
    }
  }

  lemma ConsumeRests(top: Topology, others: set<nat>, n: Node, e: Event, env: Env)
    requires top.Valid() && n.Valid() && Rests(n)
    ensures Rests(Consume(top, others, n, e, env))
  {
    if !Ended(n.State()) { MoveRests(Note(top, others, n, e), env, others == {}); }
  }

  lemma {:induction false} RunRests(su: Setup, deeds: seq<Deed>, nodes: Nodes, n: nat)
    requires su.top.Valid() && Runs(su, deeds, nodes) && n in nodes
    ensures nodes[n].Valid() && Rests(nodes[n])
  {
    if deeds != [] {
      var before: Nodes :| Runs(su, deeds[..|deeds| - 1], before) && Leads(su, before, Last(deeds), nodes);
      RunRests(su, deeds[..|deeds| - 1], before, n);
      if n == Last(deeds).node { ConsumeRests(su.top, su.Others(n), before[n], Last(deeds).event, Last(deeds).env); }
    }
  }

  // ---------------------------------------------------------------------------
  // One node's reasons.

  predicate RefusedInConsensus2(n: Node) {
    WaitingForConsensus2 in n.trace && n.consensus2 == Rejected
  }

  predicate RefusedInPhase2(n: Node) {
    WaitingForPhase2 in n.trace && n.phase2.verdict == Rejected
  }

  /** The objects were created, and no message about that was signed. */
  predicate Unsigned(n: Node) {
    CommitObjectsBroadcasted in n.trace && COMMITTED !in n.sent
  }

  /** A state that is not the last leads on, as its guard says. */
  lemma LeadsOn(n: Node, local: bool, s: TxState) returns (i: nat)
    requires TraceOk(n, local) && s in n.trace && n.State() != s
    ensures i + 1 < |n.trace| && n.trace[i] == s && Guard(n, local, s, n.trace[i + 1])
  {
    i :| i < |n.trace| && n.trace[i] == s;
    assert Guard(n, local, n.trace[i + 1 - 1], n.trace[i + 1]);
  }

  lemma ReasonAborts(n: Node, local: bool)
    requires TraceOk(n, local) && Rests(n) && (RefusedInConsensus2(n) || RefusedInPhase2(n) || Unsigned(n))
    ensures Aborted in n.trace
  {
    if RefusedInConsensus2(n) {
      var i := LeadsOn(n, local, WaitingForConsensus2);
      assert n.trace[i + 1] == RejectPhase2Broadcasted;
      var j := LeadsOn(n, local, RejectPhase2Broadcasted);
      assert n.trace[j + 1] == Aborted;
    } else if RefusedInPhase2(n) {
      var i := LeadsOn(n, local, WaitingForPhase2);
      assert n.trace[i + 1] == Aborted;
    }
  }

  lemma AbortHasReason(n: Node, local: bool)
    requires TraceOk(n, local) && n.trace[0].WaitingForConsensus1? && Took(n) && Rests(n) && Aborted in n.trace
    ensures RefusedInConsensus2(n) || RefusedInPhase2(n) || Unsigned(n)
  {
    var j :| 0 <= j < |n.trace| && n.trace[j] == Aborted;
    AbortedFrom(n, local, j);
    assert j + 1 < |n.trace| ==> InTable(n.trace[j], n.trace[j + 1]);
    if n.trace[j - 1].RejectPhase2Broadcasted? {
      RejectedThen(n, local);
      assert InTable(n.trace[j - 2], n.trace[j - 1]);
    }
  }

  // ---------------------------------------------------------------------------
  // All nodes.

  /** In every run with inputs in several shards in which one honest node gets to
      deactivate its objects, an honest node aborts if and only if it reached the
      second consensus and had it rejected, or reached phase 2 and heard it refused,
      or could not sign its commit message. */
  lemma AbortsExactly(su: Setup, deeds: seq<Deed>, nodes: Nodes, n: nat, m: nat)
    requires su.Valid() && Runs(su, deeds, nodes) && su.Honest(n) && su.Honest(m) && su.Others(n) != {}
    requires n in nodes && ObjectsDeactivated in nodes[n].trace
    ensures m in nodes
    ensures Aborted in nodes[m].trace <==> RefusedInConsensus2(nodes[m]) || RefusedInPhase2(nodes[m]) || Unsigned(nodes[m])
  {
    RunOk(su, deeds, nodes);
    TookPart(su, nodes, n, m);
    RunRests(su, deeds, nodes, m);
    hide Took, Rests, NodesOk, RefusedInConsensus2, RefusedInPhase2, Unsigned;
    assert NodeOk(su.top, su.Others(m), nodes[m]) && nodes[m].trace[0].WaitingForConsensus1? && Took(nodes[m]);
    if Aborted in nodes[m].trace { AbortHasReason(nodes[m], su.Others(m) == {}); }
    if RefusedInConsensus2(nodes[m]) || RefusedInPhase2(nodes[m]) || Unsigned(nodes[m]) { ReasonAborts(nodes[m], su.Others(m) == {}); }
  }

  /** So what one honest node consumes, some honest node aborts if and only if the
      second consensus was rejected at an honest node that had reached it, or an honest
      node could not sign its commit message. */
  lemma ConsumedAndAborted(su: Setup, deeds: seq<Deed>, nodes: Nodes, n: nat)
    requires su.Valid() && Runs(su, deeds, nodes) && su.Honest(n) && su.Others(n) != {}
    requires n in nodes && ObjectsDeactivated in nodes[n].trace
    ensures (exists m :: m in nodes && su.Honest(m) && Aborted in nodes[m].trace) <==>
            (exists r :: r in nodes && su.Honest(r) && (RefusedInConsensus2(nodes[r]) || Unsigned(nodes[r])))
  {
    if m :| m in nodes && su.Honest(m) && Aborted in nodes[m].trace {
      AbortsExactly(su, deeds, nodes, n, m);
      if !RefusedInConsensus2(nodes[m]) && !Unsigned(nodes[m]) {
        RunOk(su, deeds, nodes);
        assert nodes[m].phase2 == nodes[m].Votes(Phase2);
        var r := Refuser(su, nodes, m, Phase2);
        assert NodeOk(su.top, su.Others(r), nodes[r]) && SentIn(Sent(Phase2, false)) in nodes[r].trace;
        RefuserHadIt(nodes[r], su.Others(r) == {});
        assert r in nodes && RefusedInConsensus2(nodes[r]);
      }
    }
    if r :| r in nodes && su.Honest(r) && (RefusedInConsensus2(nodes[r]) || Unsigned(nodes[r])) {
      AbortsExactly(su, deeds, nodes, n, r);
    }
  }

  lemma RefuserHadIt(n: Node, local: bool)
    requires TraceOk(n, local) && RejectPhase2Broadcasted in n.trace
    ensures RefusedInConsensus2(n)
  {
    RejectedThen(n, local);
    var i :| 0 <= i < |n.trace| && n.trace[i] == RejectPhase2Broadcasted;
    assert Guard(n, local, n.trace[i - 1], n.trace[i]);
  }
}

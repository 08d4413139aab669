/** When moving a transaction on never ends: the source repeats a transition out of a
    waiting state for as long as it fails. */
module Stalling {
  import opened Messages
  import opened TxStates
  import opened TxNode

  /** The machine stays in, or comes to, a waiting state whose transition fails: the next
      consensus cannot be triggered, or the objects cannot be created. */
  predicate Stuck(n: Node, env: Env, local: bool)
    requires n.Valid()
  {
    var create := env.idsOk && env.creates;
    match n.State()
    case WaitingForConsensus1 =>
      n.consensus1 == Accepted && env.objectsOk && env.locks && !local && env.signs && n.phase1.verdict == Accepted && !env.triggers
    case WaitingForPhase1 => n.phase1.verdict == Accepted && !env.triggers
    case WaitingForCommit => n.commit.verdict == Accepted && (!env.triggers || (n.consensusCommit == Accepted && !create))
    case WaitingForConsensusCommit => n.consensusCommit == Accepted && !create
    case _ => false
  }

  /** Following a transition that does not fail, and then the next. */
  lemma Follows(n: Node, to: TxState, env: Env, local: bool)
    requires n.Valid() && InTable(n.State(), to) && Go(env, local, to).Next?
    ensures var e := Go(env, local, to); Apply(n, to, env, local) == Apply(n.Enter(to, e.msg), e.state, env, local)
    ensures Rank(Apply(n, to, env, local).State()) > Rank(n.State())
  {
    Climbs(n.State(), to);
    var e := Go(env, local, to);
    assert Rank(to) <= Rank(Apply(n.Enter(to, e.msg), e.state, env, local).State());
  }

  lemma Stays(n: Node, to: TxState, env: Env, local: bool)
    requires n.Valid() && (!InTable(n.State(), to) || Go(env, local, to).Fail?)
    ensures Apply(n, to, env, local) == n
  {
  }

  /** Two transitions and no more. */
  lemma Twice(n: Node, to: TxState, env: Env, local: bool)
    requires n.Valid() && InTable(n.State(), to) && Go(env, local, to).Next?
    requires var s := Go(env, local, to).state; InTable(to, s) && Go(env, local, s).Next? && !InTable(s, Go(env, local, s).state)
    ensures Apply(n, to, env, local).State() == Go(env, local, to).state && Apply(n, to, env, local).SameVotes(n)
    ensures Rank(Apply(n, to, env, local).State()) > Rank(n.State())
  {
    hide Apply, Go, InTable;
    var e := Go(env, local, to);
    var n1 := n.Enter(to, e.msg);
    Follows(n, to, env, local);
    Follows(n1, e.state, env, local);
    var e1 := Go(env, local, e.state);
    Stays(n1.Enter(e.state, e1.msg), e1.state, env, local);
  }

  /** One transition and no more. */
  lemma Once(n: Node, to: TxState, env: Env, local: bool)
    requires n.Valid() && InTable(n.State(), to) && Go(env, local, to).Next? && !InTable(to, Go(env, local, to).state)
    ensures Apply(n, to, env, local).State() == to && Rank(to) > Rank(n.State())
  {
    hide Apply, Go, InTable;
    Follows(n, to, env, local);
    var e := Go(env, local, to);
    Stays(n.Enter(to, e.msg), e.state, env, local);
  }

  /** Where a machine comes to, in one move out of a waiting state. */
  lemma LockEnds(n: Node, env: Env, local: bool)
    requires n.Valid() && n.State() == WaitingForConsensus1 && n.consensus1 == Accepted && env.objectsOk
    ensures var r := Apply(n, ObjectLocked, env, local).State();
            if env.locks && !local && env.signs then r == WaitingForPhase1 else !HasAction(r)
  {
    hide Apply;
    Follows(n, ObjectLocked, env, local);
    var n1 := n.Enter(ObjectLocked, None);
    if !env.locks {
      Once(n1, Aborted, env, local);
    } else if local {
      DeactivateEnds(n1, env, local);
    } else if env.signs {
      Twice(n1, AcceptPhase1Broadcasted, env, local);
    } else {
      Once(n1, AcceptPhase1Broadcasted, env, local);
    }
  }

  lemma DeactivateEnds(n: Node, env: Env, local: bool)
    requires n.Valid() && InTable(n.State(), ObjectsDeactivated)
    ensures !HasAction(Apply(n, ObjectsDeactivated, env, local).State())
  {
    hide Apply;
    if env.deactivates {
      Follows(n, ObjectsDeactivated, env, local);
      CreateEnds(n.Enter(ObjectsDeactivated, None), env, local);
    } else {
      Once(n, ObjectsDeactivated, env, local);
    }
  }

  lemma CreateEnds(n: Node, env: Env, local: bool)
    requires n.Valid() && InTable(n.State(), ObjectsCreated)
    ensures var r := Apply(n, ObjectsCreated, env, local);
            if env.idsOk && env.creates then !HasAction(r.State()) && Rank(r.State()) > Rank(n.State()) else r == n
  {
    hide Apply;
    if !(env.idsOk && env.creates) {
      Stays(n, ObjectsCreated, env, local);
    } else if env.outputsHere {
      Twice(n, ObjectsCreated, env, local);
    } else {
      Follows(n, ObjectsCreated, env, local);
      Twice(n.Enter(ObjectsCreated, None), CommitObjectsBroadcasted, env, local);
    }
  }

  lemma FromPhase2(n: Node, env: Env, local: bool)
    requires n.Valid() && n.State() == WaitingForPhase2
    ensures !Loops(n, env, local)
  {
    hide Apply;
    var to := Act(n, env);
    if to == Aborted { Once(n, to, env, local); }
    if to == ObjectsDeactivated {
      Follows(n, to, env, local);
      DeactivateEnds(n, env, local);
    }
  }

  lemma FromConsensus2(n: Node, env: Env, local: bool)
    requires n.Valid() && n.State() == WaitingForConsensus2
    ensures !Loops(n, env, local)
  {
    hide Apply;
    var to := Act(n, env);
    if to == AcceptPhase2Broadcasted && !env.signs { Once(n, to, env, local); }
    if to == RejectPhase2Broadcasted || (to == AcceptPhase2Broadcasted && env.signs) { Twice(n, to, env, local); }
    if to == AcceptPhase2Broadcasted && env.signs { FromPhase2(Apply(n, to, env, local), env, local); }
  }

  lemma FromPhase1(n: Node, env: Env, local: bool)
    requires n.Valid() && n.State() == WaitingForPhase1
    ensures Loops(n, env, local) <==> Stuck(n, env, local)
  {
    hide Apply;
    var to := Act(n, env);
    if to == Aborted { Once(n, to, env, local); }
    if to == Consensus2Triggered {
      if env.triggers {
        Twice(n, to, env, local);
        FromConsensus2(Apply(n, to, env, local), env, local);
      } else {
        Stays(n, to, env, local);
      }
    }
  }

  lemma FromConsensus1(n: Node, env: Env, local: bool)
    requires n.Valid() && n.State() == WaitingForConsensus1
    ensures Loops(n, env, local) <==> Stuck(n, env, local)
  {
    hide Apply;
    var to := Act(n, env);
    if to == RejectPhase1Broadcasted { Twice(n, to, env, local); }
    if to == ObjectLocked {
      Follows(n, to, env, local);
      LockEnds(n, env, local);
      var n1 := Apply(n, to, env, local);
      if HasAction(n1.State()) { FromPhase1(n1, env, local); }
    }
  }

  lemma FromConsensusCommit(n: Node, env: Env, local: bool)
    requires n.Valid() && n.State() == WaitingForConsensusCommit
    ensures Loops(n, env, local) <==> Stuck(n, env, local)
  {
    hide Apply;
    var to := Act(n, env);
    if to == ObjectsCreated { CreateEnds(n, env, local); }
    if to == Aborted { Once(n, to, env, local); }
  }

  lemma FromCommit(n: Node, env: Env, local: bool)
    requires n.Valid() && n.State() == WaitingForCommit
    ensures Loops(n, env, local) <==> Stuck(n, env, local)
  {
    hide Apply;
    var to := Act(n, env);
    if to == Aborted { Once(n, to, env, local); }
    if to == ConsensusCommitTriggered {
      if env.triggers {
        Twice(n, to, env, local);
        FromConsensusCommit(Apply(n, to, env, local), env, local);
      } else {
        Stays(n, to, env, local);
      }
    }
  }

  /** Moving a machine on never ends if and only if it is stuck. */
  lemma LoopsExactly(n: Node, env: Env, local: bool)
    requires n.Valid()
    ensures Loops(n, env, local) <==> Stuck(n, env, local)
  {
    match n.State()
    case WaitingForConsensus1 => FromConsensus1(n, env, local);
    case WaitingForPhase1 => FromPhase1(n, env, local);
    case WaitingForConsensus2 => FromConsensus2(n, env, local);
    case WaitingForPhase2 => FromPhase2(n, env, local);
    case WaitingForCommit => FromCommit(n, env, local);
    case WaitingForConsensusCommit => FromConsensusCommit(n, env, local);
    case _ =>
  }

  /** The consensus of a commit that all have accepted cannot be triggered. */
  lemma StallsForExample(env: Env)
    requires !env.triggers
    ensures Loops(Fresh(WaitingForCommit).(commit := Ballots(map[2 := true], Accepted)), env, false)
  {
    LoopsExactly(Fresh(WaitingForCommit).(commit := Ballots(map[2 := true], Accepted)), env, false);
  }
}

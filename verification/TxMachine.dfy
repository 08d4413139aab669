/** The state machine object of a transaction: the loops of `applyTransition` and
    `moveState`, and the one-shot machines of consensus and of each phase. */
module TxMachine {
  import opened Shards
  import opened TxStates
  import opened TxNode
  import opened Stalling

  class ConsensusMachine {
    var state: Verdict

    constructor ()
      ensures state == Waiting
    {
      state := Waiting;
    }

    /** The first event decides; later ones are refused. */
    method ProcessEvent(commit: bool, signaturesOk: bool) returns (ok: bool)
      modifies this
      ensures ok == (old(state) == Waiting)
      ensures state == if !ok then old(state) else if commit || signaturesOk then Accepted else Rejected
    {
      if state != Waiting { return false; }
      state := if !commit && !signaturesOk then Rejected else Accepted;
      ok := true;
    }
  }

  class PhaseMachine {
    var decisions: map<nat, bool>
    var state: Verdict

    ghost function Value(): Ballots
      reads this
    {
      Ballots(decisions, state)
    }

    constructor ()
      ensures Value() == NO_BALLOTS
    {
      decisions, state := map[], Waiting;
    }

    method ProcessEvent(top: Topology, shards: seq<nat>, sender: nat, accept: bool) returns (ok: bool)
      requires top.Valid() && forall s | s in shards :: 1 <= s <= top.shardCount
      modifies this
      ensures ok == (old(state) == Waiting)
      ensures Value() == Hear(top, set s | s in shards, old(Value()), sender, accept)
    {
      if state != Waiting { return false; }
      decisions := decisions[sender := accept];
      state := OnSbacEvent(top, shards, decisions);
      ok := true;
    }
  }

  class StateMachine {
    const top: Topology
    const shards: seq<nat>
    const consensus1: ConsensusMachine
    const consensus2: ConsensusMachine
    const consensusCommit: ConsensusMachine
    const phase1: PhaseMachine
    const phase2: PhaseMachine
    const commit: PhaseMachine
    var state: TxState
    var sent: seq<Sent>
    ghost var trace: seq<TxState>

    ghost predicate Valid()
      reads this
    {
      && top.Valid() && (forall s | s in shards :: 1 <= s <= top.shardCount)
      && trace != [] && trace[|trace| - 1] == state
      && consensus1 != consensus2 && consensus1 != consensusCommit && consensus2 != consensusCommit
      && phase1 != phase2 && phase1 != commit && phase2 != commit
    }

    ghost function Others(): set<nat> {
      set s | s in shards
    }

    ghost function Value(): Node
      reads this, consensus1, consensus2, consensusCommit, phase1, phase2, commit
    {
      Node(trace, consensus1.state, consensus2.state, consensusCommit.state, phase1.Value(), phase2.Value(), commit.Value(), sent)
    }

    /** A machine for a transaction that involves `others` besides the own shard. */
    constructor (top: Topology, others: seq<nat>, start: TxState)
      requires top.Valid() && forall s | s in others :: 1 <= s <= top.shardCount
      ensures Valid() && Value() == Fresh(start) && this.top == top && shards == others
      ensures fresh({consensus1, consensus2, consensusCommit}) && fresh({phase1, phase2, commit})
    {
      this.top, shards, state, sent, trace := top, others, start, [], [start];
      consensus1 := new ConsensusMachine();
      consensus2 := new ConsensusMachine();
      consensusCommit := new ConsensusMachine();
      phase1 := new PhaseMachine();
      phase2 := new PhaseMachine();
      commit := new PhaseMachine();
    }

    /** Follows the table from the current state into `to` and on. */
    method ApplyTransition(to: TxState, env: Env) returns (ok: bool)
      requires Valid()
      modifies this`state, this`sent, this`trace
      ensures Valid() && Value() == Apply(old(Value()), to, env, shards == [])
    {
      var target := to;
      while InTable(state, target)
        invariant Valid() && Apply(Value(), target, env, shards == []) == Apply(old(Value()), to, env, shards == [])
        decreases 12 - Rank(state)
      {
        Climbs(state, target);
        var effect := Go(env, shards == [], target);
        if effect.Fail? { return false; }
        state := target;
        trace := trace + [target];
        if effect.msg.Some? { sent := sent + [effect.msg.value]; }
        target := effect.state;
      }
      ok := true;
    }

    /** The action of a waiting state. */
    method Action(env: Env) returns (s: TxState)
      requires Valid() && HasAction(state)
      ensures s == Act(Value(), env)
    {
      match state {
        case WaitingForConsensus1 =>
          s := Choose(consensus1.state, state, if env.objectsOk then ObjectLocked else RejectPhase1Broadcasted, RejectPhase1Broadcasted);
        case WaitingForConsensus2 => s := Choose(consensus2.state, state, AcceptPhase2Broadcasted, RejectPhase2Broadcasted);
        case WaitingForConsensusCommit => s := Choose(consensusCommit.state, state, ObjectsCreated, Aborted);
        case WaitingForPhase1 => s := Choose(phase1.state, state, Consensus2Triggered, Aborted);
        case WaitingForPhase2 => s := Choose(phase2.state, state, ObjectsDeactivated, Aborted);
        case WaitingForCommit => s := Choose(commit.state, state, ConsensusCommitTriggered, Aborted);
      }
    }

    /** Acts until the current state has nothing to do. */
    method MoveState(env: Env)
      requires Valid() && !Stuck(Value(), env, shards == [])
      modifies this`state, this`sent, this`trace
      ensures Valid() && Value() == Move(old(Value()), env, shards == [])
    {
      LoopsExactly(Value(), env, shards == []);
      hide Move, Loops, Apply, Act, Stuck;
      while HasAction(state)
        invariant Valid() && Move(Value(), env, shards == []) == Move(old(Value()), env, shards == [])
        invariant !Loops(Value(), env, shards == [])
        decreases 12 - Rank(state)
      {
        var next := Action(env);
        if next == state {
          MoveStays(Value(), env, shards == []);
          return;
        }
        Progresses(Value(), next, env, shards == []);
        var _ := ApplyTransition(next, env);
      }
      MoveStays(Value(), env, shards == []);
    }

    method NoteConsensus(op: ConsensusOp, signaturesOk: bool)
      requires Valid()
      modifies consensus1, consensus2, consensusCommit
      ensures Valid() && Value() == Note(top, Others(), old(Value()), Decided(op, signaturesOk))
    {
      var taken;
      match op {
        case Consensus1 => taken := consensus1.ProcessEvent(false, signaturesOk);
        case Consensus2 => taken := consensus2.ProcessEvent(false, signaturesOk);
        case ConsensusCommit => taken := consensusCommit.ProcessEvent(true, signaturesOk);
      }
    }

    method NotePhase(op: SbacOp, accept: bool, sender: nat)
      requires Valid()
      modifies phase1, phase2, commit
      ensures Valid() && Value() == Note(top, Others(), old(Value()), Heard(op, accept, sender))
    {
      var taken;
      match op {
        case Phase1 => taken := phase1.ProcessEvent(top, shards, sender, accept);
        case Phase2 => taken := phase2.ProcessEvent(top, shards, sender, accept);
        case CommitPhase => taken := commit.ProcessEvent(top, shards, sender, accept);
      }
    }

    lemma NoOthers()
      ensures Others() == {} <==> shards == []
    {
      if shards != [] { assert shards[0] in Others(); }
    }

    /** Takes note of an event, and moves on unless the transaction has ended. */
    method ConsumeEvent(e: Event, env: Env)
      requires Valid()
      requires state.Succeeded? || state.Aborted? || !Stuck(Note(top, Others(), Value(), e), env, Others() == {})
      modifies this`state, this`sent, this`trace, consensus1, consensus2, consensusCommit, phase1, phase2, commit
      ensures Valid() && Value() == Consume(top, Others(), old(Value()), e, env)
    {
      NoOthers();
      hide Move, Note, Stuck, Others;
      var ended := state == Succeeded || state == Aborted;
      match e {
        case Decided(op, ok) => NoteConsensus(op, ok);
        case Heard(op, accept, sender) => NotePhase(op, accept, sender);
      }
      if !ended { MoveState(env); }
    }
  }

  lemma MoveStays(n: Node, env: Env, local: bool)
    requires n.Valid() && (!HasAction(n.State()) || Act(n, env) == n.State())
    ensures Move(n, env, local) == n
  {
  }

  /** An action leads to a state that the table knows, and the machine gets there. */
  lemma Progresses(n: Node, next: TxState, env: Env, local: bool)
    requires n.Valid() && HasAction(n.State()) && next == Act(n, env) != n.State() && !Loops(n, env, local)
    ensures InTable(n.State(), next) && Rank(n.State()) < Rank(Apply(n, next, env, local).State())
    ensures Move(n, env, local) == Move(Apply(n, next, env, local), env, local) && !Loops(Apply(n, next, env, local), env, local)
  {
  }
}

/** The table that drives a transaction, and what its shape alone implies. */
module TxStates {

  datatype TxState =
    | WaitingForConsensus1
    | ObjectLocked
    | AcceptPhase1Broadcasted
    | RejectPhase1Broadcasted
    | WaitingForPhase1
    | Consensus2Triggered
    | WaitingForConsensus2
    | AcceptPhase2Broadcasted
    | RejectPhase2Broadcasted
    | WaitingForPhase2
    | ObjectsDeactivated
    | ObjectsCreated
    | CommitObjectsBroadcasted
    | WaitingForCommit
    | ConsensusCommitTriggered
    | WaitingForConsensusCommit
    | Aborted
    | Succeeded

  /** The pairs for which `makeStateTable` has a transition. */
  predicate InTable(from: TxState, to: TxState) {
    match from
    case WaitingForConsensus1 => to.RejectPhase1Broadcasted? || to.ObjectLocked?
    case RejectPhase1Broadcasted => to.Aborted?
    case ObjectLocked => to.Aborted? || to.ObjectsDeactivated? || to.AcceptPhase1Broadcasted?
    case AcceptPhase1Broadcasted => to.WaitingForPhase1?
    case WaitingForPhase1 => to.Aborted? || to.Consensus2Triggered?
    case Consensus2Triggered => to.WaitingForConsensus2?
    case WaitingForConsensus2 => to.AcceptPhase2Broadcasted? || to.RejectPhase2Broadcasted?
    case RejectPhase2Broadcasted => to.Aborted?
    case AcceptPhase2Broadcasted => to.WaitingForPhase2?
    case WaitingForPhase2 => to.Aborted? || to.ObjectsDeactivated?
    case ObjectsDeactivated => to.ObjectsCreated?
    case ObjectsCreated => to.Succeeded? || to.CommitObjectsBroadcasted?
    case CommitObjectsBroadcasted => to.Aborted? || to.Succeeded?
    case WaitingForCommit => to.ConsensusCommitTriggered? || to.Aborted?
    case ConsensusCommitTriggered => to.WaitingForConsensusCommit?
    case WaitingForConsensusCommit => to.ObjectsCreated? || to.Aborted?
    case Aborted => false
    case Succeeded => false
  }

  function Rank(s: TxState): (r: nat)
    ensures r <= 12
  {
    match s
    case WaitingForConsensus1 => 0
    case RejectPhase1Broadcasted => 1
    case ObjectLocked => 1
    case AcceptPhase1Broadcasted => 2
    case WaitingForPhase1 => 3
    case Consensus2Triggered => 4
    case WaitingForConsensus2 => 5
    case AcceptPhase2Broadcasted => 6
    case RejectPhase2Broadcasted => 6
    case WaitingForPhase2 => 7
    case ObjectsDeactivated => 8
    case WaitingForCommit => 6
    case ConsensusCommitTriggered => 7
    case WaitingForConsensusCommit => 8
    case ObjectsCreated => 9
    case CommitObjectsBroadcasted => 10
    case Aborted => 11
    case Succeeded => 11
  }

  lemma Climbs(from: TxState, to: TxState)
    requires InTable(from, to)
    ensures Rank(from) < Rank(to)
  {
  }

  /** The states a machine was in, from one of the two it may start in. */
  ghost predicate IsTrace(trace: seq<TxState>) {
    && trace != [] && (trace[0].WaitingForConsensus1? || trace[0].WaitingForCommit?)
    && forall i | 0 < i < |trace| :: InTable(trace[i - 1], trace[i])
  }

  lemma TracePrefix(trace: seq<TxState>, k: nat)
    requires IsTrace(trace) && 0 < k <= |trace|
    ensures IsTrace(trace[..k])
  {
    forall i | 0 < i < k ensures InTable(trace[..k][i - 1], trace[..k][i]) {
      assert InTable(trace[i - 1], trace[i]);
    }
  }

  lemma {:induction false} RanksClimb(trace: seq<TxState>, i: nat, j: nat)
    requires IsTrace(trace) && i < j < |trace|
    ensures Rank(trace[i]) < Rank(trace[j])
    decreases j
  {
    Climbs(trace[j - 1], trace[j]);
    if i < j - 1 { RanksClimb(trace, i, j - 1); }
  }

  /** No state is ever entered twice. */
  lemma NoRepeat(trace: seq<TxState>, i: nat, j: nat)
    requires IsTrace(trace) && i < |trace| && j < |trace| && trace[i] == trace[j]
    ensures i == j
  {
    if i < j { RanksClimb(trace, i, j); } else if j < i { RanksClimb(trace, j, i); }
  }

  // ---------------------------------------------------------------------------
  // How a state is reached.

  const CROSS_SHARD: seq<TxState> := [
    WaitingForConsensus1, ObjectLocked, AcceptPhase1Broadcasted, WaitingForPhase1, Consensus2Triggered,
    WaitingForConsensus2, AcceptPhase2Broadcasted, WaitingForPhase2, ObjectsDeactivated]

  predicate OnTheWay(s: TxState) {
    s in CROSS_SHARD && !s.ObjectsDeactivated?
  }

  /** The only way to a state of the cross-shard path. */
  function WayTo(s: TxState): seq<TxState>
    requires OnTheWay(s)
  {
    CROSS_SHARD[..Rank(s) + 1]
  }

  lemma {:induction false} OnlyWay(trace: seq<TxState>)
    requires IsTrace(trace) && OnTheWay(trace[|trace| - 1])
    ensures trace == WayTo(trace[|trace| - 1])
  {
    var n := |trace|;
    if n > 1 {
      assert InTable(trace[n - 2], trace[n - 1]);
      TracePrefix(trace, n - 1);
      assert trace[..n - 1][n - 2] == trace[n - 2];
      OnlyWay(trace[..n - 1]);
      assert trace == trace[..n - 1] + [trace[n - 1]];
    }
  }

  /** Objects are deactivated only right after they were locked, or after phase 1,
      the second consensus and phase 2, in this order. */
  lemma WaysToDeactivation(trace: seq<TxState>)
    requires IsTrace(trace) && trace[|trace| - 1].ObjectsDeactivated?
    ensures trace == [WaitingForConsensus1, ObjectLocked, ObjectsDeactivated] || trace == CROSS_SHARD
  {
    var n := |trace|;
    assert InTable(trace[n - 2], trace[n - 1]);
    TracePrefix(trace, n - 1);
    assert trace[..n - 1][n - 2] == trace[n - 2];
    OnlyWay(trace[..n - 1]);
    assert trace == trace[..n - 1] + [ObjectsDeactivated];
  }
}

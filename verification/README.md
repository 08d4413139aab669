# Chainspace in Dafny

This project models the parts of Chainspace that decide whether a network of shards
stays consistent, and proves what those parts are for:

* **Consensus** (`blockmania/`). Every node replays a DAG of signed blocks and simulates
  a PBFT-like protocol for every slot, a (node, round) pair. `Messages`, `Protocol`,
  `Worklist`, `Delivery` and `Interpreter` say what the interpreter computes. `History`
  defines block DAGs and runs: any order of admitting own blocks and interpreting blocks
  whose links were interpreted, any expired timers, a restart in between. `Chains`,
  `Agreement`, `HandOver`, `AcrossViews`, `OwnBlocks`, `PruningPoints`, `Rounds`,
  `SameBlocks` and `VoteIds` prove properties of every run. `CalmRuns` and `SideRuns`
  construct runs, and `ClusterSize` says for which clusters all runs agree.
  `ChainStates`, `HashOrder`, `LiveGraph` and `Bitsets` are the same code as the source
  has it, objects updated in place by loops, proved to compute what the functions say.
* **Atomic commit** (`sbac/`, `network/`, `checker/`). `TxStates`, `TxNode` and
  `TxMachine` are the state machine of a transaction, `Stalling` when it never ends,
  `CrossShard` all the nodes of all the shards it involves, `PhaseTwo` a run in which they
  part, `Aborting` when that happens, `ObjectStore` the store, `Shards` and `Involved` who
  takes part, `TypeCheck` the checking of traces.
* **Broadcast** (`broadcast/`, `internal/lexinum/`). `Dependencies`, `Cascade` and
  `Depgraph` are the release of received blocks, `InclusionCache` the cache behind it,
  `Lexinum`, `Keys`, `GapScan` and `Codec` the ordered index and what it stores.

A node that forks has signed two blocks for one round. That is the only thing a faulty
node can do to consensus besides keeping silent, because all messages are computed from
blocks. What states hold is compared for slots that are not yet delivered, and what is
delivered for rounds in which no timer expired. `History.Dag.top` names, for every block,
the latest round in its history, and is determined by the links.

Shared vote maps: the source keeps the view-change votes of a slot in a map that all
clones of a state share. The model keeps these maps in one table, and states refer to
positions in it, so that a vote that one chain adds is seen by all that share the map.

Where code and comments differ, the code is followed. `onSBACEvent` names its threshold
2t+1 but asks for all nodes of the shard. `getMissing` returns up to `limit + 1` rounds.
A transaction's state is set to "objects deactivated" even when the store refused. The
`states.Final` key is looked up but never written, so those look-ups never succeed.

Properties one might expect that are false of the code are settled exactly:

* Agreement fails for cluster sizes that are not of the form 3f + 1.
  `ClusterSize.AgreementExactly` says for which sizes all runs agree, and
  `ClusterSize.SplitDisagrees` gives two runs that do not.
* What one honest node consumes, another of the same shard can abort, as
  `PhaseTwo.Diverges` shows. `Aborting.ConsumedAndAborted` says when: if and only if an
  honest node that had reached the second consensus had it rejected, or one could not
  sign its commit message.
* Counting a vote can be an access out of range, since room is made for as many ids as
  there are nodes, while ids count the nodes of all shards: `VoteIds.PanicsForExample`.
  `VoteIds.NoPanicExactly` says for which ids it is not.
* Moving a transaction on can go on for ever: `Stalling.StallsForExample`.
  `Stalling.LoopsExactly` says when.
* A stored block graph is not always read back as it was, see `Codec.GraphRoundTrip`.

Verify with `dafny verify dfyconfig.toml`.

## Model

| member | source | states |
|---|---|---|
| `Agreement.ViewZeroAgreement` | blockmania/graph.go:254-347 | with n = 3f+1 and at most f forking nodes, two graphs after any runs over one DAG never hold view-0 prepare quorums or commits for different hashes of an undelivered slot |
| `Agreement.RunOk` | blockmania/graph.go:150-252 | in every run, every state and output is backed by votes that the DAG alone determines: who prepared what, who was certified, what a chain met first |
| `Agreement.MessageStep` | blockmania/graph.go:254-411 | interpreting any message keeps a state backed by votes, and what it answers is backed too |
| `Agreement.CertifiedAgree` | blockmania/graph.go:533-554 | no two hashes of a slot can both have 2f+1 voters |
| `Agreement.ChainKeepsFirst` | blockmania/graph.go:266-285 | the chain of a node that never forks keeps the first hash it met for a slot |
| `ClusterSize.AgreementExactly` | blockmania/graph.go:533-554 | for the f and the quorum that the graph computes from n: no two runs over one DAG with at most f forking nodes ever have states with view-0 prepare quorums or commits for different hashes of an undelivered slot, if and only if n is 3f+1 or n is at most 3 |
| `ClusterSize.SplitDisagrees` | blockmania/graph.go:289-323 | for any larger n, a DAG of two rounds in which f nodes fork, and two runs over it whose states hold prepare quorums for different hashes of one slot |
| `SideRuns.SideReached` | blockmania/graph.go:150-323 | a run over any DAG in which 2f+1 nodes answer one proposal and one of them refers to the answers: its second block holds the quorum |
| `CalmRuns.BlockCalm` | blockmania/graph.go:150-252 | a block in which no timer expires and no commit quorum is near decides nothing, counts every node it hears prepare, and answers the proposal it hears |
| `HandOver.NewViewCarriesCommit` | blockmania/graph.go:349-385 | once 2f+1 nodes have said that they commit to h in view 0, a quorum of view-1 votes that is collected during any later block makes a new view with exactly h, and never the exit for several hashes |
| `HandOver.HonestVote` | blockmania/graph.go:208-238 | a node that never forks votes to leave view 0 with the hash it committed to |
| `HandOver.BlockConsistent` | blockmania/graph.go:150-252 | a block commits in view 0 only before leaving it, and its vote to leave carries what its chain had prepared |
| `HandOver.CommitsDecide` | blockmania/graph.go:363-381 | after a view-0 commit quorum for h, every quorum of votes to leave view 0 has h as its only hash |
| `AcrossViews.AgreementAcrossViews` | blockmania/graph.go:254-411 | in every run whose timers for a slot expire only in view 0: once some state counts a view-0 commit quorum for h, every commit, new view, view-1 message, final value and decision handed to delivery for the slot is h |
| `AcrossViews.CountedQuorum` | blockmania/graph.go:325-347 | a commit that a state counts was sent by its sender in some interpreted block |
| `AcrossViews.ProcessVouched` | blockmania/graph.go:254-411 | if all votes in hand were cast and decide for h, interpreting any message speaks of no other hash beyond view 0, and does not exit |
| `Chains.ChainMonotone` | blockmania/state.go:24-88 | along a chain, for every undelivered round, vote bits are only added, prepared, pre-prepared, new-view and final entries never change or vanish, and the view never decreases |
| `Chains.ChainsGrow` | blockmania/graph.go:138-252 | in every run, each block's state extends its parent's and concerns only rounds of its own history, whatever was pruned |
| `Chains.MessageExtends` | blockmania/graph.go:254-411 | interpreting a message only adds, at every slot, hash and view |
| `History.PruningIsSafe` | blockmania/graph.go:101-121 | in every run, `max` bounds the rounds of a block's whole history even when ancestors were pruned, and a missing state is of a block whose history is delivered |
| `History.TopBoundsHistory` | blockmania/graph.go:443-503 | the label used for that bound is at least the round of every block on every path into the history |
| `OwnBlocks.QueueInOrder` | blockmania/graph.go:443-503 | for contiguous own rounds, in every run: bounds never decrease along the queue, reported `Consumed` never decreases and is one less than the next own round, and `blocks[0]` is always in range when a round is delivered |
| `PruningPoints.PrunesExactlyTheDue` | blockmania/graph.go:102-119 | in every run, at every moment in the middle of a step at which a round is delivered: the queue is not empty, and the loop that breaks at the first block removes exactly the blocks whose bound is due |
| `OwnBlocks.ReportsLastRemoved` | blockmania/graph.go:102-131 | what a delivery reports as consumed is the round of the last own block it removed |
| `Rounds.DeliveredInOrder` | blockmania/graph.go:55-136 | in every run, also one that exits, the callback was given rounds LastInterpreted+1, +2, ... with no gap or repeat, each when all configured nodes were decided and with exactly the non-empty hashes; unless it has exited, the next round is still undecided for some node |
| `SameBlocks.SameBlocksDelivered` | blockmania/graph.go:55-136 | with n = 3f+1 and at most f forking nodes, two graphs after any runs over one DAG that have delivered a round none of whose timers expired have delivered the same blocks for it |
| `SameBlocks.RunFirst` | blockmania/graph.go:325-347 | in every run in which no timer of a slot expires, the first decision for it is for a hash with 2f+1 voters, also when the same step delivers it |
| `SameBlocks.SameReports` | blockmania/graph.go:90-136 | and the callbacks of the two were given these blocks in the same order, if different blocks have different hashes |
| `VoteIds.CountedExactly` | blockmania/graph.go:268-347 | the ids whose votes are counted in some run are exactly those of the configured nodes |
| `VoteIds.NoPanicExactly` | blockmania/state.go:90-104 | so counting never panics if and only if every node's id is below the number of nodes rounded up to a multiple of 64 |
| `Delivery.DeliverFollows` | blockmania/graph.go:55-88 | one decision keeps that relation between decisions and deliveries |
| `Worklist.ResponsesBound` | blockmania/graph.go:413-437 | a batch provokes at most four responses per message |
| `Worklist.BatchKeeps` | blockmania/graph.go:413-437 | what interpreting one message keeps, the two loops over a batch and its responses keep |
| `HashOrder.SortedBlocks` | blockmania/graph.go:91-100 | the blocks handed to the callback are those of the round, sorted by hash |
| `HashOrder.OneOrder` | blockmania/graph.go:98-100 | for distinct hashes there is only one such order, however the map was walked |
| `ChainStates.CommonHash` | blockmania/graph.go:371-381 | walking the votes in any order finds their only non-empty hash, or exits if and only if there are several |
| `ChainStates.ChainState.GetView` | blockmania/state.go:113-125 | reads the view of a slot and records the default |
| `ChainStates.ChainState.GetBitset` | blockmania/state.go:90-104 | finds the votes for a ballot, or records none |
| `ChainStates.ChainState.PrePrepare` | blockmania/graph.go:268-287 | updates the state in place as the protocol step says, and nothing else |
| `ChainStates.ChainState.Prepare` | blockmania/graph.go:289-323 | updates the state in place as the protocol step says, and nothing else |
| `ChainStates.ChainState.Commit` | blockmania/graph.go:325-347 | updates the state in place as the protocol step says, and nothing else |
| `ChainStates.ChainState.ViewChange` | blockmania/graph.go:349-385 | updates the state and the shared votes as the protocol step says, and nothing else |
| `ChainStates.ChainState.NewView` | blockmania/graph.go:387-403 | updates the state in place as the protocol step says, and nothing else |
| `LiveGraph.LiveGraph.constructor` | blockmania/graph.go:533-554 | a new graph is the initial one, with quorum 2f+1 |
| `LiveGraph.LiveGraph.Prune` | blockmania/graph.go:102-119 | the loop removes the longest prefix of due blocks with all they refer to, and counts them |
| `LiveGraph.LiveGraph.DeliverRound` | blockmania/graph.go:90-136 | the recursion delivers the current round and every complete one after it, and each report names its blocks once, sorted by hash |
| `LiveGraph.SameOrder` | blockmania/graph.go:91-100 | reports of the same blocks are equal, if different blocks have different hashes |
| `LiveGraph.LiveGraph.DeliverDecision` | blockmania/graph.go:55-88 | records a decision, exits on a mismatch, and delivers what is complete |
| `LiveGraph.LiveGraph.Hear` | blockmania/graph.go:254-411 | interprets one message on the objects, delivering at once |
| `LiveGraph.LiveGraph.ProcessBatch` | blockmania/graph.go:413-437 | delivering in the middle of a batch comes to the same as delivering its decisions at the end, also when the process exits |
| `LiveGraph.HeardSettles` | blockmania/graph.go:254-411 | one message keeps the two in step |
| `LiveGraph.ExitIsFinal` | blockmania/graph.go:64-67 | nothing that comes after an exit would have been reported |
| `LiveGraph.LiveGraph.Fire` | blockmania/graph.go:208-239 | the loop over expired timers raises views and votes for what was prepared |
| `LiveGraph.LiveGraph.ProcessBlock` | blockmania/graph.go:150-252 | interpreting a block in place reaches the graph that `Interpreter.Process` defines |
| `LiveGraph.LiveGraph.AdmitBlock` | blockmania/graph.go:442-505 | the loops over dependencies and links compute the bounds that `Interpreter.Admit` defines |
| `Bitsets.Count` | blockmania/bitset.go:22-28 | counting bits word by word counts the members of the set |
| `Bitsets.CountBits` | blockmania/bitset.go:22-44 | the one bits of a word are as many as the positions they stand for |
| `Bitsets.Set` | blockmania/bitset.go:46-52 | setting a bit adds exactly that id, and fails exactly beyond the capacity |
| `Bitsets.Has` | blockmania/bitset.go:30-36 | testing a bit is membership, and fails exactly beyond the capacity |
| `Bitsets.Bitset.constructor` | blockmania/bitset.go:54-60 | an empty vote set has room for exactly the ids below the size rounded up to words |
| `Bitsets.Bitset.Clone` | blockmania/bitset.go:12-20 | a clone holds the same votes and shares no words |
| `Bitsets.Bitset.SetCommit` | blockmania/bitset.go:46-48 | adds a commit and leaves the prepares alone |
| `Bitsets.Bitset.SetPrepare` | blockmania/bitset.go:50-52 | adds a prepare and leaves the commits alone |
| `Bitsets.Bitset.HasCommit` | blockmania/bitset.go:30-32 | whether an id has committed |
| `Bitsets.Bitset.CommitCount` | blockmania/bitset.go:22-28 | the number of ids that have committed |
| `Bitsets.Bitset.PrepareCount` | blockmania/bitset.go:38-44 | the number of ids that have prepared |
| `CrossShard.Atomicity` | sbac/states.go:97-157 | in every run with inputs in several shards and at most a third of each shard faulty: if an honest node gets to deactivate its objects, every honest node of every involved shard sent a phase-1 accept, and none refused, failed to lock, or aborted in phase 1 |
| `Aborting.AbortsExactly` | sbac/states.go:148-221 | after that, an honest node aborts if and only if it reached the second consensus and had it rejected, or reached phase 2 and heard it refused, or could not sign its commit message |
| `Aborting.ConsumedAndAborted` | sbac/states.go:148-221 | some honest node aborts what an honest node has consumed if and only if the second consensus was rejected at an honest node that had reached it, or an honest node could not sign its commit message |
| `Aborting.ConsumeRests` | sbac/state_machine.go:133-215 | every event leaves a machine with no refusal that it has not acted upon |
| `CrossShard.ConsumeOk` | sbac/state_machine.go:190-215 | every event keeps a node's history explained: each step has its verdicts and messages, and verdicts are final |
| `CrossShard.EveryoneAccepted` | sbac/sbac_sm.go:99-182 | accepts of the own shard are known through a node elsewhere that went on to phase 2 |
| `PhaseTwo.Diverges` | sbac/states.go:202-210 | a run of honest nodes in which one has consumed its inputs and another of the same shard has aborted, the second consensus having been rejected there alone |
| `TxStates.NoRepeat` | sbac/state_machine.go:103-170 | no state of a transaction is entered twice |
| `TxStates.WaysToDeactivation` | sbac/states.go:97-132 | objects are deactivated only right after locking, or after phase 1, the second consensus and phase 2 in this order |
| `TxNode.CountShard` | sbac/sbac_sm.go:107-120 | the loop counts the shard's accepts and rejects |
| `TxNode.OnSbacEvent` | sbac/sbac_sm.go:99-182 | rejected if and only if some shard has t+1 rejects, else accepted if and only if all nodes of all other shards accept; independent of the order of shards |
| `TxMachine.ConsensusMachine.ProcessEvent` | sbac/consensus_sm.go:41-89 | the first event decides, and later ones are refused |
| `TxMachine.PhaseMachine.ProcessEvent` | sbac/sbac_sm.go:47-63 | counts a decision and judges, until the verdict is final |
| `TxMachine.StateMachine.constructor` | sbac/state_machine.go:221-247 | a new machine waits in its initial state and has heard nothing |
| `TxMachine.StateMachine.ApplyTransition` | sbac/state_machine.go:103-131 | the loop follows the table as far as it goes, or to the first error |
| `TxMachine.StateMachine.Action` | sbac/states.go:137-221 | the action of a waiting state, from the verdicts |
| `TxMachine.StateMachine.MoveState` | sbac/state_machine.go:133-170 | unless it would go on for ever, the loop acts until there is nothing to do |
| `Stalling.LoopsExactly` | sbac/state_machine.go:133-170 | the loop goes on for ever if and only if the verdicts in hand lead to a waiting state out of which the next consensus cannot be triggered or the objects cannot be created; which these are |
| `TxMachine.StateMachine.ConsumeEvent` | sbac/state_machine.go:190-215 | takes note of an event and moves on unless the transaction has ended |
| `TxMachine.Progresses` | sbac/states.go:137-221 | an action of a waiting state has a transition, and the machine leaves the state for one of higher rank |
| `ObjectStore.ConsumedOnce` | sbac/store.go:97-117 | over any operations of any transactions, an object is deactivated successfully exactly as often as it turned inactive: at most once |
| `ObjectStore.InactiveForGood` | sbac/store.go:97-141 | inactive is permanent, and nothing consumes the object again |
| `ObjectStore.MarkAll` | sbac/store.go:182-204 | a batch that sets statuses goes through exactly when all keys have an allowed status, counting keys that occur twice with their new status |
| `ObjectStore.CreateAll` | sbac/store.go:119-141 | objects are created exactly when all ids are new and distinct |
| `ObjectStore.Store.LockObjects` | sbac/store.go:182-204 | locks all, exactly when all are active and distinct, or changes nothing |
| `ObjectStore.Store.UnlockObjects` | sbac/store.go:208-232 | unlocks all, exactly when none is inactive or unknown, or changes nothing |
| `ObjectStore.Store.DeactivateObjects` | sbac/store.go:336-340 | deactivates all, exactly when none is inactive, unknown or named twice, or changes nothing |
| `ObjectStore.Store.CreateObjects` | sbac/store.go:343-347 | creates all or changes nothing |
| `ObjectStore.Store.CommitTransaction` | sbac/store.go:167-178 | consumes, creates and commits in one, or changes nothing |
| `ObjectStore.Store.AddTransaction` | sbac/store.go:236-258 | stores a transaction that was never seen, as not committed, or changes nothing |
| `Shards.NodesInShard` | network/network.go:258-268 | for a shard that exists, exactly the nodes that belong to it, in order and as many as a shard has |
| `Shards.ShardsPartition` | network/network.go:299-310 | every node is in exactly one shard, and all shards are of the configured size |
| `Involved.InputObjectsForShard` | sbac/common.go:14-36 | the own inputs in order, and whether no other shard is involved |
| `Involved.ShardsInvolved` | sbac/common.go:116-131 | every shard with an input or reference, once |
| `Involved.ShardsInvolvedWithoutSelf` | sbac/common.go:133-142 | the same without the own shard |
| `TypeCheck.CheckTransaction` | checker/typecheck.go:85-87 | accepts exactly when, over the whole nested forest, inputs are pairwise distinct, none is also a reference, and every trace is well formed |
| `TypeCheck.Checker.Check` | checker/typecheck.go:30-83 | the same for traces after what the shared map has seen, and what the map holds then |
| `TypeCheck.OrderIndependent` | checker/typecheck.go:30-83 | permuting traces does not change the verdict |
| `TypeCheck.OrderIndependentWithin` | checker/typecheck.go:30-83 | nor does permuting traces and, at every depth, the dependencies of traces |
| `Depgraph.Depgraph.constructor` | broadcast/broadcast.go:616-626 | an idle graph whose base is what the database has as included |
| `Depgraph.Depgraph.IsIncluded` | broadcast/depgraph.go:85-103 | answers whether a block is included, through caches and database |
| `Depgraph.Depgraph.MarkIncluded` | broadcast/depgraph.go:105-110 | includes a block and keeps the caches in agreement |
| `Depgraph.Depgraph.AddPending` | broadcast/depgraph.go:47-66 | registers a block once under each block it misses |
| `Depgraph.Depgraph.ProcessBlock` | broadcast/depgraph.go:177-212 | includes and queues a block exactly when it misses nothing, and otherwise registers it |
| `Depgraph.Depgraph.Release` | broadcast/depgraph.go:149-174 | the worklist loop ends with nothing left that could be released; whoever is looked up is pending |
| `Depgraph.Depgraph.Process` | broadcast/depgraph.go:143-174 | after every iteration, included is the least set that has the base and every received block whose needs it has |
| `Depgraph.Depgraph.GetBlocks` | broadcast/depgraph.go:68-83 | hands over the longest prefix of the queue that fits the limit |
| `Depgraph.Depgraph.SetOwnBlock` | broadcast/store.go:676-743 | stores exactly the references as included, besides what was stored, and keeps the caches in agreement |
| `Depgraph.Depgraph.ActuallyIncluded` | broadcast/depgraph.go:34-38 | removes a block from the temporary cache and keeps the answers |
| `Dependencies.IdleIsClosure` | broadcast/depgraph.go:143-174 | between iterations, the incremental result is the simple fixpoint |
| `Dependencies.ReleasedExactly` | broadcast/depgraph.go:177-212 | a received block has been queued if and only if its previous block and its dependencies of other nodes are included |
| `Cascade.Release` | broadcast/depgraph.go:158-168 | including a waiter makes all that this completes due, in an order in which dependencies come first |
| `Cascade.Finish` | broadcast/depgraph.go:169-173 | when a block's waiters were looked at, it can be forgotten: nobody waits for it and nobody will look it up |
| `InclusionCache.CacheAgrees` | broadcast/depgraph.go:85-110 | under any interleaving of marking, pruning, look-ups that miss, read and fill in separate steps, own-block writes, clearing and receiving, every look-up answers whether the block was ever marked or stored as included |
| `InclusionCache.StepSound` | broadcast/store.go:556-624 | each step keeps every layer in agreement |
| `Lexinum.Pow` | internal/lexinum/lexinum.go:11-21 | the power modulo 2^64, although the squares wrap |
| `Lexinum.CountDigits` | internal/lexinum/lexinum.go:74-81 | the number of base-253 digits; none of the powers tried exceeds 64 bits |
| `Lexinum.Encode` | internal/lexinum/lexinum.go:57-102 | the loops compute the encoding |
| `Lexinum.DecodeBytes` | internal/lexinum/lexinum.go:25-53 | the loop decodes any bytes, with errors, the out-of-range access and wrap-around |
| `Lexinum.RoundTrip` | internal/lexinum/lexinum.go:23-102 | every 64-bit number is read back from its encoding |
| `Lexinum.NoZero` | internal/lexinum/lexinum.go:57-102 | no encoding contains a zero byte |
| `Lexinum.OrderEmbedding` | internal/lexinum/lexinum.go:55-102 | a < b if and only if the encoding of a is below that of b |
| `Keys.KeyOrder` | broadcast/store.go:786-802 | keys sort like (node, round, hash) |
| `Keys.IdRoundTrip` | broadcast/store.go:804-839 | every id is read back from its key, whatever its hash contains |
| `Keys.DecodeBlockId` | broadcast/store.go:804-839 | the loop finds the two separators in any bytes |
| `GapScan.DecodeBlockRound` | broadcast/store.go:841-854 | the loop reads the round of any key, or fails |
| `GapScan.RoundOfBlock` | broadcast/store.go:841-854 | the round of a block's key is the block's |
| `GapScan.Visited` | broadcast/store.go:354-364 | a key that the walk visits is of a block of that node after `since` |
| `GapScan.Within` | broadcast/store.go:354-364 | every such block is visited |
| `GapScan.GetMissing` | broadcast/store.go:342-381 | exactly the rounds after `since` with no block, in order, up to the latest stored round or the first limit+1 of them; after the largest number, where adding one wraps, all rounds |
| `GapScan.GapsExactly` | broadcast/store.go:368-377 | that list is strictly ascending and has exactly those rounds |
| `Codec.EncodeBlockGraph` | broadcast/store.go:856-896 | the nested loops compute the encoding |
| `Codec.DecodeBlockGraph` | broadcast/store.go:102-162 | the nested loops read any bytes, or fail with the error of an id or with an access out of range |
| `Codec.GraphRoundTrip` | broadcast/store.go:81-170 | for ids shorter than 65536 bytes, a stored block graph is read back as it was if and only if each link to a previous block is valid or zero |

## Left out

- Views 2 and above: agreement across them is not claimed, since a vote carries only what was prepared in the view before, and votes are kept under the receiver's view.
- `AcrossViews.AgreementAcrossViews`: is about one interpreter and timers that expire in view 0; across interpreters only view 0 is covered, by `Agreement.ViewZeroAgreement` and `SameBlocks.SameBlocksDelivered`.
- How delays and timeouts are computed, and slices of timers shared between clones: which timers expire is left open, within the rounds of a block's history.
- Wrap-around of 32-bit views and 64-bit rounds in the interpreter: these are unbounded numbers.
- `ChainStates.ChainState.GetBitset`: keeps votes as sets; that the words of `Bitsets` hold such sets, and for which ids, is proved apart, by `Bitsets` and `VoteIds`.
- `ChainStates.ChainState.NewView`: does not set the timer of the new view, as timers are left open.
- `LiveGraph.LiveGraph.ProcessBlock`: is given the timers that expire.
- Liveness of consensus, and equality of pruned and unpruned interpretation.
- `TxMachine.StateMachine.MoveState`: asks that the loop of the source ends; `Stalling.LoopsExactly` says when it does.
- `TxMachine.StateMachine.ConsumeEvent`: asks the same of the event that it handles.
- `TxNode.OnSbacEvent`: does not verify signatures; the source only logs the outcome.
- Who holds a lock: aborting unlocks inputs also after a failed lock, so ownership is not claimed.
- `GapScan.GetMissing`: asks that a node has at most one block for the largest 64-bit round, after which the inner loop wraps.
- `Depgraph.Depgraph.SetOwnBlock`: models which blocks are stored as included, not the block's own contents.
- `Codec.EncodeBlockGraph`: asks that node ids and rounds fit 64 bits, as their types in the source say.
- Paging of stored block graphs, replay, and tracking of received and sent rounds.
- Framing of transactions in the broadcast buffer and its iterator, which would add only simple copying.
- Sockets, TLS, discovery, REST, publishing, contracts, configuration, logging.
- Hashes, signatures, protocol buffers and the database: ids stand for contents, senders are not forged, database transactions are atomic.
- Locks and threads: regions under a lock are single steps.

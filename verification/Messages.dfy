/** Identifiers and consensus messages of the Blockmania interpreter. */
module Messages {
  import opened Bytes

  type Hash = Bytes

  datatype Option<+T> = None | Some(value: T)

  /** A block of one node for one round; the zero value has the empty hash. */
  datatype BlockID = BlockID(hash: Hash, node: nat, round: nat) {
    predicate Valid() { hash != [] }

    function AsSlot(): Slot { Slot(node, round) }
  }

  const NO_BLOCK := BlockID([], 0, 0)

  /** The (node, round) pair that one consensus instance decides. */
  datatype Slot = Slot(node: nat, round: nat)

  datatype Message =
    | PrePrepare(hash: Hash, slot: Slot, view: nat)
    | Prepare(hash: Hash, slot: Slot, sender: nat, view: nat)
    | Commit(hash: Hash, slot: Slot, sender: nat, view: nat)
    | ViewChange(hash: Hash, slot: Slot, sender: nat, view: nat)
    | NewView(hash: Hash, slot: Slot, sender: nat, view: nat)
  {
    /** Position in the order ViewChange, NewView, PrePrepare, Prepare, Commit. */
    function Rank(): (r: nat) {
      match this
      case Commit(_, _, _, _) => 0
      case Prepare(_, _, _, _) => 1
      case PrePrepare(_, _, _) => 2
      case NewView(_, _, _, _) => 3
      case ViewChange(_, _, _, _) => 4
    }
  }
}

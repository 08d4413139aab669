/** The layered answer to whether a block is included: a temporary cache for blocks
    that the database does not know of yet, a cache that is pruned at will, and the
    database. Another thread writes own blocks and clears the temporary cache while
    a look-up is under way. */
module InclusionCache {
  import opened Messages

  datatype Caches = Caches(temporary: map<BlockID, bool>, cached: map<BlockID, bool>, stored: map<BlockID, bool>)

  predicate Stored(c: Caches, id: BlockID) {
    id in c.stored && c.stored[id]
  }

  function Answer(c: Caches, id: BlockID): bool {
    if id in c.temporary then c.temporary[id]
    else if id in c.cached then c.cached[id]
    else Stored(c, id)
  }

  /** What keeps every layer in agreement with the set of included blocks. */
  ghost predicate Agrees(c: Caches, included: set<BlockID>) {
    && (forall id | id in c.temporary :: c.temporary[id] && id in included)
    && (forall id | id in c.cached :: c.cached[id] == (id in included))
    && (forall id | Stored(c, id) :: id in included)
    && (forall id | id in included :: id in c.temporary || Stored(c, id))
  }

  lemma MarkAgrees(c: Caches, included: set<BlockID>, id: BlockID)
    requires Agrees(c, included)
    ensures Agrees(c.(temporary := c.temporary[id := true], cached := c.cached[id := true]), included + {id})
  {
  }

  lemma AnswerIsMembership(c: Caches, included: set<BlockID>, id: BlockID)
    requires Agrees(c, included)
    ensures Answer(c, id) == (id in included)
  {
  }

  function Mark(c: Caches, id: BlockID): Caches {
    c.(temporary := c.temporary[id := true], cached := c.cached[id := true])
  }

  function Keep(c: Caches, ids: set<BlockID>): Caches {
    c.(cached := map id | id in c.cached && id in ids :: c.cached[id])
  }

  function Write(c: Caches, ids: set<BlockID>): Caches {
    c.(stored := map id | id in c.stored.Keys + ids :: id in ids || c.stored[id])
  }

  lemma WriteNone(c: Caches)
    ensures Write(c, {}) == c
  {
  }

  lemma WriteOne(c: Caches, ids: set<BlockID>, id: BlockID, included: set<BlockID>)
    requires Agrees(c.(stored := Write(c, ids).stored), included) && id in included
    ensures Write(c, ids).stored[id := true] == Write(c, ids + {id}).stored
    ensures Agrees(c.(stored := Write(c, ids).stored[id := true]), included)
  {
    assert forall x | Stored(Write(c, ids), x) :: Stored(c.(stored := Write(c, ids).stored[id := true]), x);
  }

  function Receive(c: Caches, id: BlockID): Caches {
    if id in c.stored then c else c.(stored := c.stored[id := false])
  }

  function Clear(c: Caches, id: BlockID): Caches {
    c.(temporary := c.temporary - {id})
  }

  // ---------------------------------------------------------------------------
  // Any interleaving.

  /** `reading` is a look-up that has not found the block in a cache. */
  datatype System = System(caches: Caches, reading: Option<Reading>, included: set<BlockID>)

  /** What the database has answered, if it was asked already. */
  datatype Reading = Reading(id: BlockID, inc: Option<bool>)

  datatype Step =
    | Marks(id: BlockID)
    | Prunes(keep: set<BlockID>)
    | Misses(id: BlockID)
    | Reads
    | Fills
    | WritesOwn(refs: set<BlockID>)
    | Clears(id: BlockID)
    | Receives(id: BlockID)

  /** One thread marks, prunes and looks up; the other writes the blocks that were
      marked and then clears them; a third stores what is received. */
  predicate May(s: System, step: Step) {
    match step
    case Marks(_) => s.reading.None?
    case Prunes(_) => s.reading.None?
    case Misses(id) => s.reading.None? && id !in s.caches.temporary && id !in s.caches.cached
    case Reads => s.reading.Some? && s.reading.value.inc.None?
    case Fills => s.reading.Some? && s.reading.value.inc.Some?
    case WritesOwn(refs) => refs <= s.included
    case Clears(id) => Stored(s.caches, id)
    case Receives(_) => true
  }

  function Take(s: System, step: Step): System
    requires May(s, step)
  {
    match step
    case Marks(id) => s.(caches := Mark(s.caches, id), included := s.included + {id})
    case Prunes(keep) => s.(caches := Keep(s.caches, keep))
    case Misses(id) => s.(reading := Some(Reading(id, None)))
    case Reads => s.(reading := Some(Reading(s.reading.value.id, Some(Stored(s.caches, s.reading.value.id)))))
    case Fills =>
      s.(caches := s.caches.(cached := s.caches.cached[s.reading.value.id := s.reading.value.inc.value]), reading := None)
    case WritesOwn(refs) => s.(caches := Write(s.caches, refs))
    case Clears(id) => s.(caches := Clear(s.caches, id))
    case Receives(id) => s.(caches := Receive(s.caches, id))
  }

  /** Starts with what the database holds. */
  ghost predicate Runs(stored: map<BlockID, bool>, steps: seq<Step>, s: System) {
    if steps == [] then
      s == System(Caches(map[], map[], stored), None, set id | id in stored && stored[id])
    else
      exists s0: System :: Runs(stored, steps[..|steps| - 1], s0) && Leads(s0, Last(steps), s)
  }

  function Last(steps: seq<Step>): Step
    requires steps != []
  {
    steps[|steps| - 1]
  }

  predicate Leads(s0: System, step: Step, s: System) {
    May(s0, step) && s == Take(s0, step)
  }

  ghost predicate Sound(s: System) {
    && Agrees(s.caches, s.included)
    && (s.reading.Some? ==> var r := s.reading.value;
         if r.inc.None? then r.id !in s.caches.temporary else r.inc.value == (r.id in s.included))
  }

  lemma StepSound(s: System, step: Step)
    requires Sound(s) && May(s, step)
    ensures Sound(Take(s, step))
  {
    match step
    case Clears(id) =>
      assert forall x | x in s.included :: x in s.caches.temporary || Stored(s.caches, x);
    case WritesOwn(refs) =>
      assert forall x | Stored(s.caches, x) :: Stored(Write(s.caches, refs), x);
    case Receives(id) =>
      assert forall x | Stored(s.caches, x) :: Stored(Receive(s.caches, id), x);
    case _ =>
  }

  /** Those stored as included at the start, or marked since. */
  function EverMarked(stored: map<BlockID, bool>, steps: seq<Step>): set<BlockID> {
    (set id | id in stored && stored[id]) + (set s | s in steps && s.Marks? :: s.id)
  }

  /** At every moment of every interleaving, every look-up answers whether the block
      was ever marked or was stored as included to begin with. */
  lemma {:induction false} CacheAgrees(stored: map<BlockID, bool>, steps: seq<Step>, s: System)
    requires Runs(stored, steps, s)
    ensures Sound(s) && s.included == EverMarked(stored, steps)
    ensures forall id :: Answer(s.caches, id) == (id in EverMarked(stored, steps))
    ensures s.reading.Some? && s.reading.value.inc.Some? ==> s.reading.value.inc.value == (s.reading.value.id in EverMarked(stored, steps))
  {
    if steps != [] {
      var init := steps[..|steps| - 1];
      var s0: System :| Runs(stored, init, s0) && Leads(s0, Last(steps), s);
      CacheAgrees(stored, init, s0);
      StepSound(s0, Last(steps));
      assert steps == init + [Last(steps)];
      MarkedMore(stored, init, Last(steps));
    }
    forall id ensures Answer(s.caches, id) == (id in s.included) { AnswerIsMembership(s.caches, s.included, id); }
  }

  lemma MarkedMore(stored: map<BlockID, bool>, steps: seq<Step>, step: Step)
    ensures EverMarked(stored, steps + [step]) == EverMarked(stored, steps) + if step.Marks? then {step.id} else {}
  {
    assert step in steps + [step] && forall s | s in steps :: s in steps + [step];
  }
}

/** When received blocks may be referred to: the cascade that releases a block once
    everything it links to is included, as facts about its data. */
module Dependencies {
  import opened Messages

  datatype BlockData = BlockData(id: BlockID, prev: BlockID, deps: seq<BlockID>)

  /** What must be included before `b`; a node's own blocks need not wait. */
  function Needs(self: nat, b: BlockData): set<BlockID> {
    (if b.prev.Valid() then {b.prev} else {}) + set d | d in b.deps && d.node != self
  }

  /** `await` and `pending` are the source's maps. The rest is what they are about:
      the blocks received, those included, and how they came to be so: `base` from
      the start, `released` since, in this order. */
  datatype Dg = Dg(
    await: map<BlockID, seq<BlockID>>,
    pending: map<BlockID, BlockData>,
    received: map<BlockID, BlockData>,
    included: set<BlockID>,
    base: set<BlockID>,
    released: seq<BlockData>)

  function Ids(bs: seq<BlockData>): set<BlockID> {
    set b | b in bs :: b.id
  }

  function Missing(self: nat, dg: Dg, b: BlockData): set<BlockID> {
    Needs(self, b) - dg.included
  }

  // ---------------------------------------------------------------------------
  // What holds at all times.

  /** Each block was released once, after all that it needs. */
  ghost predicate ReleasedInOrder(self: nat, base: set<BlockID>, released: seq<BlockData>) {
    forall i | 0 <= i < |released| ::
      released[i].id !in base + Ids(released[..i]) && Needs(self, released[i]) <= base + Ids(released[..i])
  }

  ghost predicate History(self: nat, dg: Dg) {
    && dg.included == dg.base + Ids(dg.released)
    && (forall b | b in dg.released :: b.id in dg.received && dg.received[b.id] == b)
    && ReleasedInOrder(self, dg.base, dg.released)
  }

  ghost predicate Records(dg: Dg) {
    && (forall id | id in dg.received :: dg.received[id].id == id && (id in dg.pending || id in dg.included))
    && (forall id | id in dg.pending :: id in dg.received && dg.pending[id] == dg.received[id] && id !in dg.base)
  }

  predicate Awaits(dg: Dg, d: BlockID, id: BlockID) {
    d in dg.await && id in dg.await[d]
  }

  /** Whoever waits is pending, and whoever is pending waits for all it misses. */
  ghost predicate Waiting(self: nat, dg: Dg) {
    && (forall d, id | Awaits(dg, d, id) :: id in dg.pending && d in Needs(self, dg.pending[id]))
    && (forall id, d | id in dg.pending && id !in dg.included && d in Missing(self, dg, dg.pending[id]) :: Awaits(dg, d, id))
  }

  ghost predicate Linked(self: nat, dg: Dg) {
    Records(dg) && Waiting(self, dg) && History(self, dg)
  }

  // ---------------------------------------------------------------------------
  // What holds between iterations.

  ghost predicate Idle(self: nat, dg: Dg) {
    && Linked(self, dg)
    && (forall d | d in dg.await :: d !in dg.included)
    && (forall id | id in dg.pending :: id !in dg.included && Missing(self, dg, dg.pending[id]) != {})
  }

  /** The simple form: what may be released at all. */
  ghost predicate Closed(self: nat, received: map<BlockID, BlockData>, s: set<BlockID>) {
    forall id | id in received && Needs(self, received[id]) <= s :: id in s
  }

  /** Included is exactly the least set that has the base and is closed. */
  ghost predicate IsClosure(self: nat, dg: Dg) {
    && dg.base <= dg.included && Closed(self, dg.received, dg.included)
    && forall s: set<BlockID> | dg.base <= s && Closed(self, dg.received, s) :: dg.included <= s
  }

  lemma {:induction false} ReleasedWithin(self: nat, dg: Dg, s: set<BlockID>, n: nat)
    requires History(self, dg) && dg.base <= s && Closed(self, dg.received, s) && n <= |dg.released|
    ensures Ids(dg.released[..n]) <= s
  {
    if n > 0 {
      ReleasedWithin(self, dg, s, n - 1);
      var b := dg.released[n - 1];
      assert b in dg.released;
      assert dg.released[..n] == dg.released[..n - 1] + [b];
      assert Needs(self, b) <= s;
      assert dg.received[b.id] == b;
    }
  }

  /** Between iterations the cascade has computed the simple fixpoint. */
  lemma IdleIsClosure(self: nat, dg: Dg)
    requires Idle(self, dg)
    ensures IsClosure(self, dg)
  {
    forall id | id in dg.received && Needs(self, dg.received[id]) <= dg.included ensures id in dg.included {
      assert Missing(self, dg, dg.received[id]) == {};
    }
    forall s: set<BlockID> | dg.base <= s && Closed(self, dg.received, s) ensures dg.included <= s {
      ReleasedWithin(self, dg, s, |dg.released|);
      assert dg.released[..|dg.released|] == dg.released;
    }
  }

  lemma ReleasedNeeds(self: nat, dg: Dg, id: BlockID)
    requires History(self, dg) && id in dg.included && id !in dg.base
    ensures id in Ids(dg.released) && id in dg.received && Needs(self, dg.received[id]) <= dg.included
  {
    var b :| b in dg.released && b.id == id;
    var i :| 0 <= i < |dg.released| && dg.released[i] == b;
    assert Needs(self, b) <= dg.base + Ids(dg.released[..i]);
    assert forall x | x in dg.released[..i] :: x in dg.released;
  }

  /** A received block has been released exactly when all it needs is included,
      unless it was included to begin with. */
  lemma ReleasedExactly(self: nat, dg: Dg, id: BlockID)
    requires Idle(self, dg) && id in dg.received && id !in dg.base
    ensures id in Ids(dg.released) <==> Needs(self, dg.received[id]) <= dg.included
  {
    if id in dg.included { ReleasedNeeds(self, dg, id); }
    assert Needs(self, dg.received[id]) <= dg.included ==> Missing(self, dg, dg.received[id]) == {};
  }

  // ---------------------------------------------------------------------------
  // The two things that happen to a block.

  function Include(dg: Dg, b: BlockData): Dg {
    dg.(received := dg.received[b.id := b], included := dg.included + {b.id}, released := dg.released + [b])
  }

  function Registered(await: map<BlockID, seq<BlockID>>, id: BlockID, deps: set<BlockID>): map<BlockID, seq<BlockID>> {
    map d | d in await.Keys + deps ::
      if d !in await then [id] else if d in deps && id !in await[d] then await[d] + [id] else await[d]
  }

  function Wait(dg: Dg, b: BlockData, deps: set<BlockID>): Dg {
    dg.(received := dg.received[b.id := b], pending := dg.pending[b.id := b], await := Registered(dg.await, b.id, deps))
  }

  /** An id stands for one block. */
  predicate Known(dg: Dg, b: BlockData) {
    b.id in dg.received ==> dg.received[b.id] == b
  }

  lemma IdsAppend(bs: seq<BlockData>, b: BlockData)
    ensures Ids(bs + [b]) == Ids(bs) + {b.id}
  {
    assert b in bs + [b] && forall x | x in bs :: x in bs + [b];
  }

  lemma InOrderAppend(self: nat, base: set<BlockID>, released: seq<BlockData>, b: BlockData)
    requires ReleasedInOrder(self, base, released) && b.id !in base + Ids(released) && Needs(self, b) <= base + Ids(released)
    ensures ReleasedInOrder(self, base, released + [b])
  {
    hide Ids, Needs;
    var all := released + [b];
    forall i | 0 <= i < |all| ensures all[i].id !in base + Ids(all[..i]) && Needs(self, all[i]) <= base + Ids(all[..i]) {
      assert all[..i] == released[..i];
      if i == |released| { assert released[..i] == released; }
    }
  }

  lemma NothingMissing(needs: set<BlockID>, included: set<BlockID>)
    requires needs - included == {}
    ensures needs <= included
  {
    forall x | x in needs ensures x in included { assert x !in needs - included; }
  }

  lemma IncludeHistory(self: nat, dg: Dg, b: BlockData)
    requires History(self, dg) && Known(dg, b) && b.id !in dg.included && Missing(self, dg, b) == {}
    ensures History(self, Include(dg, b))
  {
    NothingMissing(Needs(self, b), dg.included);
    InOrderAppend(self, dg.base, dg.released, b);
    IdsAppend(dg.released, b);
    hide ReleasedInOrder, Ids, Needs;
  }

  lemma IncludeLinked(self: nat, dg: Dg, b: BlockData)
    requires Linked(self, dg) && Known(dg, b) && b.id !in dg.included && Missing(self, dg, b) == {}
    ensures Linked(self, Include(dg, b))
  {
    IncludeHistory(self, dg, b);
    hide History;
    var dg' := Include(dg, b);
    forall id, d | id in dg'.pending && id !in dg'.included && d in Missing(self, dg', dg'.pending[id]) ensures Awaits(dg', d, id) {
      assert Awaits(dg, d, id);
    }
    forall d, id | Awaits(dg', d, id) ensures id in dg'.pending && d in Needs(self, dg'.pending[id]) {
      assert Awaits(dg, d, id);
    }
  }

  lemma WaitAwaits(dg: Dg, b: BlockData, deps: set<BlockID>, d: BlockID, id: BlockID)
    ensures Awaits(Wait(dg, b, deps), d, id) <==> Awaits(dg, d, id) || (d in deps && id == b.id)
  {
  }

  lemma WaitRecords(self: nat, dg: Dg, b: BlockData)
    requires Linked(self, dg) && Known(dg, b) && b.id !in dg.included
    ensures Records(Wait(dg, b, Missing(self, dg, b)))
  {
    hide Missing, Waiting, Registered, ReleasedInOrder, Ids;
  }

  lemma WaitWaiting(self: nat, dg: Dg, b: BlockData)
    requires Records(dg) && Waiting(self, dg) && Known(dg, b)
    ensures Waiting(self, Wait(dg, b, Missing(self, dg, b)))
  {
    var deps := Missing(self, dg, b);
    var dg' := Wait(dg, b, deps);
    forall d, id ensures Awaits(dg', d, id) <==> Awaits(dg, d, id) || (d in deps && id == b.id) {
      WaitAwaits(dg, b, deps, d, id);
    }
    hide Awaits, Registered, Needs;
  }

  /** A block that misses something is registered under all it misses. */
  lemma WaitLinked(self: nat, dg: Dg, b: BlockData)
    requires Linked(self, dg) && Known(dg, b) && b.id !in dg.included && Missing(self, dg, b) != {}
    ensures Linked(self, Wait(dg, b, Missing(self, dg, b)))
  {
    WaitRecords(self, dg, b);
    WaitWaiting(self, dg, b);
    hide Records, Waiting, Missing, Registered, ReleasedInOrder, Ids;
  }

  lemma IdleWaits(self: nat, dg: Dg, b: BlockData)
    requires Idle(self, dg) && Known(dg, b) && b.id !in dg.included && Missing(self, dg, b) != {}
    ensures Idle(self, Wait(dg, b, Missing(self, dg, b)))
  {
    WaitLinked(self, dg, b);
    hide Linked;
    var dg' := Wait(dg, b, Missing(self, dg, b));
    assert forall id | id in dg'.pending :: Missing(self, dg', dg'.pending[id]) == Missing(self, dg, dg'.pending[id]);
  }
}

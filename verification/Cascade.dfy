/** Steps of the cascade: from one idle moment to the next. */
module Cascade {
  import opened Messages
  import opened Dependencies

  predicate Ready(self: nat, dg: Dg, id: BlockID) {
    id in dg.pending && id !in dg.included && Missing(self, dg, dg.pending[id]) == {}
  }

  /** `id` will be looked at: it waits for a block that is included, and if that is
      `next`, it is among the `rest`. */
  ghost predicate Due(dg: Dg, next: Option<BlockID>, rest: seq<BlockID>, id: BlockID) {
    exists d :: Awaits(dg, d, id) && d in dg.included && (next == Some(d) ==> id in rest)
  }

  predicate Queued(work: seq<BlockID>, p: nat, d: BlockID) {
    exists q :: 0 <= q < p && q < |work| && work[q] == d
  }

  /** A block in the queue waits only for blocks before it in the queue. */
  ghost predicate Ordered(dg: Dg, work: seq<BlockID>, next: Option<BlockID>) {
    forall p, d | 0 <= p < |work| && Awaits(dg, d, work[p]) :: next == Some(d) || Queued(work, p, d)
  }

  ghost predicate Handled(dg: Dg, work: seq<BlockID>, next: Option<BlockID>) {
    && (forall w | w in work :: w in dg.included)
    && (forall d | d in dg.await && d in dg.included :: d in work || next == Some(d))
    && (forall id | id in dg.pending && id in dg.included :: id in work || next == Some(id))
  }

  ghost predicate Current(dg: Dg, next: Option<BlockID>, rest: seq<BlockID>) {
    next.Some? ==>
      && next.value in dg.included
      && (forall id | id in rest :: Awaits(dg, next.value, id))
      && (forall d :: !Awaits(dg, d, next.value))
  }

  /** During the cascade: `work` is the queue of blocks just included, `next` the one
      whose waiters are being looked at, `rest` those of them still to be looked at. */
  ghost predicate Busy(self: nat, dg: Dg, work: seq<BlockID>, next: Option<BlockID>, rest: seq<BlockID>) {
    && Linked(self, dg) && Handled(dg, work, next) && Ordered(dg, work, next) && Current(dg, next, rest)
    && (forall id | Ready(self, dg, id) :: Due(dg, next, rest, id))
  }

  /** The first block of a cascade. */
  lemma Begin(self: nat, dg: Dg, b: BlockData)
    requires Idle(self, dg) && Known(dg, b) && b.id !in dg.included && Missing(self, dg, b) == {}
    ensures Busy(self, Include(dg, b), [b.id], None, []) && b.id !in dg.pending
  {
    IncludeLinked(self, dg, b);
    var dg' := Include(dg, b);
    hide History;
    assert b.id !in dg.pending;
    forall d ensures !Awaits(dg', d, b.id) { assert Awaits(dg, d, b.id) ==> b.id in dg.pending; }
    forall id | Ready(self, dg', id) ensures Due(dg', None, [], id) {
      assert Missing(self, dg, dg.pending[id]) == {b.id};
      assert Awaits(dg, b.id, id) && Awaits(dg', b.id, id);
    }
  }

  /** A block that was included before starts an empty cascade. */
  lemma BeginAgain(self: nat, dg: Dg, b: BlockData)
    requires Idle(self, dg) && Known(dg, b) && b.id in dg.included
    ensures Busy(self, dg.(received := dg.received[b.id := b]), [b.id], None, []) && b.id !in dg.pending
  {
    var dg' := dg.(received := dg.received[b.id := b]);
    assert History(self, dg');
    hide History;
    assert forall d, id :: Awaits(dg', d, id) <==> Awaits(dg, d, id);
    forall d ensures !Awaits(dg', d, b.id) { assert Awaits(dg, d, b.id) ==> b.id in dg.pending; }
    forall id ensures !Ready(self, dg', id) {
      assert id in dg.pending ==> Missing(self, dg', dg'.pending[id]) == Missing(self, dg, dg.pending[id]);
    }
  }

  function Waiters(dg: Dg, d: BlockID): seq<BlockID> {
    if d in dg.await then dg.await[d] else []
  }

  lemma Pop(self: nat, dg: Dg, work: seq<BlockID>)
    requires Busy(self, dg, work, None, []) && work != []
    ensures Busy(self, dg, work[1..], Some(work[0]), Waiters(dg, work[0]))
  {
    hide Linked;
    var next, tail := work[0], work[1..];
    forall d ensures !Awaits(dg, d, next) {
      assert Awaits(dg, d, work[0]) ==> Queued(work, 0, d);
    }
    forall p, d | 0 <= p < |tail| && Awaits(dg, d, tail[p]) ensures Some(next) == Some(d) || Queued(tail, p, d) {
      assert Awaits(dg, d, work[p + 1]) && Queued(work, p + 1, d);
      var q :| 0 <= q < p + 1 && q < |work| && work[q] == d;
      if q > 0 { assert tail[q - 1] == d; }
    }
    forall id | Ready(self, dg, id) ensures Due(dg, Some(next), Waiters(dg, next), id) {
      assert Due(dg, None, [], id);
    }
  }

  /** A waiter that is not ready is passed over. */
  lemma Pass(self: nat, dg: Dg, work: seq<BlockID>, next: BlockID, rest: seq<BlockID>)
    requires Busy(self, dg, work, Some(next), rest) && rest != [] && !Ready(self, dg, rest[0])
    ensures Busy(self, dg, work, Some(next), rest[1..])
  {
    hide Linked, Handled, Ordered;
    forall id | Ready(self, dg, id) ensures Due(dg, Some(next), rest[1..], id) {
      assert Due(dg, Some(next), rest, id);
      var d :| Awaits(dg, d, id) && d in dg.included && (Some(next) == Some(d) ==> id in rest);
      assert rest == [rest[0]] + rest[1..];
    }
  }

  /** One more at the end of the queue, which waits only for those in it. */
  lemma AppendOrdered(dg: Dg, work: seq<BlockID>, next: BlockID, r: BlockID)
    requires Ordered(dg, work, Some(next)) && forall d | Awaits(dg, d, r) :: d in work || d == next
    ensures Ordered(dg, work + [r], Some(next))
  {
    hide Awaits;
    var work' := work + [r];
    forall p, d | 0 <= p < |work'| && Awaits(dg, d, work'[p]) ensures Some(next) == Some(d) || Queued(work', p, d) {
      if d != next {
        if p < |work| {
          assert Awaits(dg, d, work[p]) && Queued(work, p, d);
          var q :| 0 <= q < p && q < |work| && work[q] == d;
          assert work'[q] == d;
        } else {
          assert d in work;
          var q :| 0 <= q < |work| && work[q] == d;
          assert work'[q] == d;
        }
      }
    }
  }

  lemma Append(self: nat, dg: Dg, work: seq<BlockID>, next: BlockID, rest: seq<BlockID>, r: BlockID)
    requires Busy(self, dg, work, Some(next), rest) && r in dg.pending && r in dg.included
    ensures Busy(self, dg, work + [r], Some(next), rest)
  {
    ReleasedNeeds(self, dg, r);
    hide History;
    forall d | Awaits(dg, d, r) ensures d in work || d == next {
      assert d in Needs(self, dg.pending[r]) && d in dg.included;
    }
    hide Linked, Waiting, Records, Ordered, Due;
    AppendOrdered(dg, work, next, r);
  }

  lemma ReleaseHandled(self: nat, dg: Dg, work: seq<BlockID>, next: BlockID, rest: seq<BlockID>)
    requires Busy(self, dg, work, Some(next), rest) && rest != [] && Ready(self, dg, rest[0])
    ensures var r := rest[0]; var dg' := Include(dg, dg.pending[r]);
            Handled(dg', work + [r], Some(next)) && Current(dg', Some(next), rest[1..]) && dg.pending[r].id == r
  {
    hide History;
    var dg' := Include(dg, dg.pending[rest[0]]);
    assert forall d, id :: Awaits(dg', d, id) <==> Awaits(dg, d, id);
  }

  lemma ReleaseOrdered(self: nat, dg: Dg, work: seq<BlockID>, next: BlockID, rest: seq<BlockID>)
    requires Busy(self, dg, work, Some(next), rest) && rest != [] && Ready(self, dg, rest[0])
    ensures Ordered(Include(dg, dg.pending[rest[0]]), work + [rest[0]], Some(next))
  {
    var r := rest[0];
    var dg' := Include(dg, dg.pending[r]);
    hide History;
    forall d | Awaits(dg, d, r) ensures d in work || d == next {
      assert d in Needs(self, dg.pending[r]) && d in dg.included;
    }
    AppendOrdered(dg, work, next, r);
    hide Linked, Queued, Due;
    assert forall d, id :: Awaits(dg', d, id) <==> Awaits(dg, d, id);
  }

  lemma ReleaseDue(self: nat, dg: Dg, work: seq<BlockID>, next: BlockID, rest: seq<BlockID>, id: BlockID)
    requires Busy(self, dg, work, Some(next), rest) && rest != [] && Ready(self, dg, rest[0])
    requires Ready(self, Include(dg, dg.pending[rest[0]]), id)
    ensures Due(Include(dg, dg.pending[rest[0]]), Some(next), rest[1..], id)
  {
    hide History, Handled, Ordered;
    var r := rest[0];
    var dg' := Include(dg, dg.pending[r]);
    if r in Missing(self, dg, dg.pending[id]) {
      assert Awaits(dg, r, id) && Awaits(dg', r, id);
      assert r != next;
    } else {
      assert Missing(self, dg', dg'.pending[id]) == Missing(self, dg, dg.pending[id]);
      assert Ready(self, dg, id) && Due(dg, Some(next), rest, id);
      var d :| Awaits(dg, d, id) && d in dg.included && (Some(next) == Some(d) ==> id in rest);
      assert rest == [r] + rest[1..] && id != r;
      assert Awaits(dg', d, id);
    }
  }

  /** A waiter that is ready is included, and its own waiters become due. */
  lemma Release(self: nat, dg: Dg, work: seq<BlockID>, next: BlockID, rest: seq<BlockID>)
    requires Busy(self, dg, work, Some(next), rest) && rest != [] && Ready(self, dg, rest[0])
    ensures Busy(self, Include(dg, dg.pending[rest[0]]), work + [rest[0]], Some(next), rest[1..])
  {
    var r := rest[0];
    var dg' := Include(dg, dg.pending[r]);
    ReleaseHandled(self, dg, work, next, rest);
    ReleaseOrdered(self, dg, work, next, rest);
    IncludeLinked(self, dg, dg.pending[r]);
    hide Linked, Missing, Due;
    forall id | Ready(self, dg', id) ensures Due(dg', Some(next), rest[1..], id) { ReleaseDue(self, dg, work, next, rest, id); }
  }

  function Drop(dg: Dg, next: BlockID): Dg {
    dg.(await := dg.await - {next}, pending := dg.pending - {next})
  }

  lemma DropAwaits(dg: Dg, next: BlockID, d: BlockID, id: BlockID)
    ensures Awaits(Drop(dg, next), d, id) <==> Awaits(dg, d, id) && d != next
  {
  }

  lemma DropLinked(self: nat, dg: Dg, next: BlockID)
    requires Linked(self, dg) && next in dg.included && forall d :: !Awaits(dg, d, next)
    ensures Linked(self, Drop(dg, next))
  {
    var dg' := Drop(dg, next);
    assert History(self, dg');
    hide History;
    forall d, id ensures Awaits(dg', d, id) <==> Awaits(dg, d, id) && d != next { DropAwaits(dg, next, d, id); }
    hide Awaits;
    assert Records(dg');
    hide Records;
  }

  /** All waiters have been looked at. */
  lemma Finish(self: nat, dg: Dg, work: seq<BlockID>, next: BlockID)
    requires Busy(self, dg, work, Some(next), [])
    ensures Busy(self, Drop(dg, next), work, None, [])
  {
    var dg' := Drop(dg, next);
    DropLinked(self, dg, next);
    forall d, id ensures Awaits(dg', d, id) <==> Awaits(dg, d, id) && d != next { DropAwaits(dg, next, d, id); }
    hide Linked, Awaits;
    forall id | Ready(self, dg', id) ensures Due(dg', None, [], id) {
      assert Ready(self, dg, id) && Due(dg, Some(next), [], id);
      var d :| Awaits(dg, d, id) && d in dg.included && (Some(next) == Some(d) ==> id in []);
      assert Awaits(dg', d, id);
    }
  }

  /** An empty queue: everything that could be released has been. */
  lemma End(self: nat, dg: Dg)
    requires Busy(self, dg, [], None, [])
    ensures Idle(self, dg)
  {
    forall id | id in dg.pending ensures id !in dg.included && Missing(self, dg, dg.pending[id]) != {} {
      assert Ready(self, dg, id) ==> Due(dg, None, [], id);
    }
  }

  /** Being looked at and not ready changes nothing. */
  lemma StillWaits(self: nat, dg: Dg, id: BlockID)
    requires Linked(self, dg) && id in dg.pending && id !in dg.included && Missing(self, dg, dg.pending[id]) != {}
    ensures Wait(dg, dg.pending[id], Missing(self, dg, dg.pending[id])) == dg
  {
    var b := dg.pending[id];
    var deps := Missing(self, dg, b);
    assert forall d | d in deps :: Awaits(dg, d, id);
    assert Registered(dg.await, id, deps) == dg.await;
  }
}

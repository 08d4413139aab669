/** The dependency graph as an object: `processBlock`, `addPending` and the worklist
    loop of `process`, over the layered inclusion cache. */
module Depgraph {
  import opened Messages
  import opened Dependencies
  import opened Cascade
  import opened InclusionCache
  import opened Sets

  function Total(size: BlockData -> nat, bs: seq<BlockData>): nat {
    if bs == [] then 0 else Total(size, bs[..|bs| - 1]) + size(bs[|bs| - 1])
  }

  function Named(bs: seq<BlockData>): set<BlockID> {
    set b | b in bs :: b.id
  }

  lemma NamedMore(bs: seq<BlockData>, i: nat)
    requires i < |bs|
    ensures Named(bs[..i + 1]) == Named(bs[..i]) + {bs[i].id}
  {
    assert bs[..i + 1] == bs[..i] + [bs[i]];
  }

  class Depgraph {
    const self: nat
    var await: map<BlockID, seq<BlockID>>
    var pending: map<BlockID, BlockData>
    var blocks: seq<BlockData>
    var tcache: map<BlockID, bool>
    var icache: map<BlockID, bool>
    var stored: map<BlockID, bool>
    ghost var received: map<BlockID, BlockData>
    ghost var included: set<BlockID>
    ghost var base: set<BlockID>
    ghost var released: seq<BlockData>

    ghost function Value(): Dg
      reads this
    {
      Dg(await, pending, received, included, base, released)
    }

    ghost predicate Valid()
      reads this
    {
      Agrees(Caches(tcache, icache, stored), included)
    }

    /** Released blocks are also queued for the next own block. */
    ghost predicate Grown(queue: seq<BlockData>, before: seq<BlockData>)
      reads this
    {
      before <= released && blocks == queue + released[|before|..]
    }

    /** Opens the graph on what the database says is included. */
    constructor (self: nat, stored: map<BlockID, bool>)
      ensures Valid() && Idle(self, Value()) && blocks == released == [] && this.self == self
      ensures base == set id | id in stored && stored[id]
    {
      this.self, this.stored := self, stored;
      await, pending, blocks, tcache, icache := map[], map[], [], map[], map[];
      received, released := map[], [];
      base := set id | id in stored && stored[id];
      included := set id | id in stored && stored[id];
    }

    method IsIncluded(id: BlockID) returns (inc: bool)
      requires Valid()
      modifies this`icache
      ensures Valid() && inc == (id in included)
    {
      AnswerIsMembership(Caches(tcache, icache, stored), included, id);
      if id in tcache { return tcache[id]; }
      if id in icache { return icache[id]; }
      inc := id in stored && stored[id];
      icache := icache[id := inc];
    }

    method MarkIncluded(b: BlockData)
      requires Valid()
      modifies this`icache, this`tcache, this`included, this`received, this`released
      ensures Valid() && Value() == Include(old(Value()), b)
    {
      MarkAgrees(Caches(tcache, icache, stored), included, b.id);
      hide Agrees;
      icache := icache[b.id := true];
      tcache := tcache[b.id := true];
      received, included, released := received[b.id := b], included + {b.id}, released + [b];
    }

    /** Registers a block under the blocks it misses, once under each. */
    method AddPending(b: BlockData, deps: seq<BlockID>)
      modifies this`pending, this`await, this`received
      ensures Value() == Wait(old(Value()), b, Elements(deps))
    {
      pending := pending[b.id := b];
      received := received[b.id := b];
      var i := 0;
      assert Elements(deps[..0]) == {} && Registered(await, b.id, {}) == await;
      while i < |deps|
        invariant i <= |deps| && await == Registered(old(await), b.id, Elements(deps[..i]))
        invariant pending == old(pending)[b.id := b] && received == old(received)[b.id := b]
      {
        var d := deps[i];
        assert deps[..i + 1] == deps[..i] + [d];
        assert Elements(deps[..i + 1]) == Elements(deps[..i]) + {d};
        RegisteredMore(old(await), b.id, Elements(deps[..i]), d);
        if d in await {
          var exists_ := Contains(await[d], b.id);
          if !exists_ { await := await[d := await[d] + [b.id]]; }
        } else {
          await := await[d := [b.id]];
        }
        i := i + 1;
      }
      assert deps[..|deps|] == deps;
    }

    /** Collects what a block misses, in the order of its links. */
    method Collect(b: BlockData) returns (deps: seq<BlockID>)
      requires Valid()
      modifies this`icache
      ensures Valid() && Elements(deps) == Missing(self, Value(), b)
    {
      deps := [];
      if b.prev.Valid() {
        var inc := IsIncluded(b.prev);
        if !inc { deps := deps + [b.prev]; }
      }
      ghost var first := deps;
      var i := 0;
      while i < |b.deps|
        invariant i <= |b.deps| && Valid()
        invariant forall d :: d in deps <==> d in first || (d in b.deps[..i] && d.node != self && d !in included)
      {
        var d := b.deps[i];
        if d.node != self {
          var inc := IsIncluded(d);
          if !inc { deps := deps + [d]; }
        }
        i := i + 1;
      }
    }

    /** Whether the block is included, after including it if that is possible now. */
    method ProcessBlock(b: BlockData) returns (ok: bool)
      requires Valid()
      modifies this`icache, this`tcache, this`included, this`received, this`released, this`pending, this`await, this`blocks
      ensures Valid()
      ensures ok == (b.id in old(included) || Missing(self, old(Value()), b) == {})
      ensures Value() == (if b.id in old(included) then old(Value())
                          else if ok then Include(old(Value()), b)
                          else Wait(old(Value()), b, Missing(self, old(Value()), b)))
      ensures blocks == if ok && b.id !in old(included) then old(blocks) + [b] else old(blocks)
    {
      var inc := IsIncluded(b.id);
      if inc { return true; }
      var deps := Collect(b);
      if |deps| > 0 {
        assert deps[0] in Elements(deps);
        AddPending(b, deps);
        return false;
      }
      MarkIncluded(b);
      blocks := blocks + [b];
      ok := true;
    }

    /** Looks at everyone who waits for `next`, which has just been included. */
    method Look(next: BlockID, work: seq<BlockID>, seen: set<BlockID>) returns (work': seq<BlockID>, seen': set<BlockID>)
      requires Valid() && Busy(self, Value(), work, Some(next), Waiters(Value(), next))
      requires forall id | id in seen :: !Ready(self, Value(), id)
      modifies this`icache, this`tcache, this`included, this`received, this`released, this`pending, this`await, this`blocks
      ensures Valid() && Busy(self, Value(), work', Some(next), []) && await == old(await) && pending == old(pending)
      ensures forall id | id in seen' :: !Ready(self, Value(), id)
      ensures next !in await ==> work' == work
      ensures Same(old(Value()), Value()) && received == old(received) && Grown(old(blocks), old(released))
    {
      hide Busy, Ready, Agrees;
      work', seen' := work, seen;
      var waiters := if next in await then await[next] else [];
      var i := 0;
      assert waiters[0..] == waiters;
      while i < |waiters|
        invariant i <= |waiters| && Valid() && await == old(await) && pending == old(pending) && received == old(received) && (waiters == [] ==> work' == work)
        invariant Busy(self, Value(), work', Some(next), waiters[i..])
        invariant forall id | id in seen' :: !Ready(self, Value(), id)
        invariant Same(old(Value()), Value()) && Grown(old(blocks), old(released))
      {
        assert waiters[i..][0] == waiters[i] && waiters[i..][1..] == waiters[i + 1..];
        work', seen' := LookAt(next, waiters[i], work', seen', waiters[i..]);
        i := i + 1;
      }
    }

    /** One waiter: skipped when nothing was included since it was last looked at. */
    method LookAt(next: BlockID, r: BlockID, work: seq<BlockID>, seen: set<BlockID>, ghost rest: seq<BlockID>)
      returns (work': seq<BlockID>, seen': set<BlockID>)
      requires Valid() && rest != [] && rest[0] == r && Busy(self, Value(), work, Some(next), rest)
      requires forall id | id in seen :: !Ready(self, Value(), id)
      modifies this`icache, this`tcache, this`included, this`received, this`released, this`pending, this`await, this`blocks
      ensures Valid() && Busy(self, Value(), work', Some(next), rest[1..]) && await == old(await) && pending == old(pending) && received == old(received)
      ensures forall id | id in seen' :: !Ready(self, Value(), id)
      ensures Same(old(Value()), Value()) && Grown(old(blocks), old(released))
    {
      hide Busy, Missing, Wait, Agrees;
      ghost var dg := Value();
      LookStep(self, dg, work, next, rest);
      if r in seen {
        Pass(self, dg, work, next, rest);
        return work, seen;
      }
      var ok := ProcessBlock(pending[r]);
      if ok { return work + [r], {}; }
      work', seen' := work, seen + {r};
    }

    /** One round of the loop: the waiters of `next`, which then waits for nothing. */
    method Turn(next: BlockID, work: seq<BlockID>, seen: set<BlockID>, first: bool) returns (work': seq<BlockID>, seen': set<BlockID>)
      requires Valid() && Busy(self, Value(), work, Some(next), Waiters(Value(), next)) && (first ==> next !in pending)
      requires forall id | id in seen :: !Ready(self, Value(), id)
      modifies this`icache, this`tcache, this`included, this`received, this`released, this`pending, this`await, this`blocks
      ensures Valid() && Busy(self, Value(), work', None, []) && received == old(received)
      ensures forall id | id in seen' :: !Ready(self, Value(), id)
      ensures Same(old(Value()), Value()) && Grown(old(blocks), old(released))
      ensures |await| < |old(await)| || (await == old(await) && work' == work)
    {
      hide Busy, Ready, Agrees, Missing;
      work', seen' := Look(next, work, seen);
      Finish(self, Value(), work', next);
      NoneReady(self, Value(), next, seen');
      Fewer(await, next);
      Forget(next, first);
    }

    /** Nobody waits for `next` any more, and it is no longer pending itself. */
    method Forget(next: BlockID, first: bool)
      requires first ==> next !in pending
      modifies this`await, this`pending
      ensures Value() == Drop(old(Value()), next)
    {
      await := await - {next};
      if first {
        assert pending - {next} == pending;
      } else {
        pending := pending - {next};
      }
    }

    /** The loop of `process` over the blocks that were just included. */
    method Release(start: BlockID)
      requires Valid() && Busy(self, Value(), [start], None, []) && start !in pending && start in included
      modifies this`icache, this`tcache, this`included, this`received, this`released, this`pending, this`await, this`blocks
      ensures Valid() && Idle(self, Value()) && received == old(received) && Same(old(Value()), Value()) && Grown(old(blocks), old(released))
    {
      hide Busy, Idle;
      var first, work, seen := true, [start], {start};
      while |work| > 0
        invariant Valid() && Busy(self, Value(), work, None, []) && received == old(received)
        invariant Same(old(Value()), Value()) && Grown(old(blocks), old(released))
        invariant forall id | id in seen :: !Ready(self, Value(), id)
        invariant first ==> work == [start] && start !in pending
        decreases |await|, |work|
      {
        Pop(self, Value(), work);
        work, seen := Turn(work[0], work[1..], seen, first);
        first := false;
      }
      End(self, Value());
    }

    /** One iteration of `process`: a block arrives, and with it all that it lets go. */
    method Process(info: BlockData)
      requires Valid() && Idle(self, Value()) && Known(Value(), info)
      modifies this`icache, this`tcache, this`included, this`received, this`released, this`pending, this`await, this`blocks
      ensures Valid() && Idle(self, Value()) && IsClosure(self, Value())
      ensures received == old(received)[info.id := info] && base == old(base) && Grown(old(blocks), old(released))
    {
      hide Idle, Busy, Missing, IsClosure;
      ghost var dg := Value();
      Arrive(self, dg, info);
      var ok := ProcessBlock(info);
      if info.id in dg.included { received := received[info.id := info]; }
      assert Value() == if info.id in dg.included then dg.(received := dg.received[info.id := info])
                        else if ok then Include(dg, info)
                        else Wait(dg, info, Missing(self, dg, info));
      if ok { Release(info.id); }
      IdleIsClosure(self, Value());
    }

    /** Writes an own block: what it refers to is stored as included. */
    method SetOwnBlock(refs: seq<BlockData>)
      requires Valid() && forall b | b in refs :: b.id in included
      modifies this`stored
      ensures Valid() && stored == Write(Caches(tcache, icache, old(stored)), Named(refs)).stored
    {
      WriteNone(Caches(tcache, icache, stored));
      assert Named(refs[..0]) == {};
      hide Write, Agrees, Named;
      var i := 0;
      while i < |refs|
        invariant i <= |refs| && Valid() && stored == Write(Caches(tcache, icache, old(stored)), Named(refs[..i])).stored
      {
        var id := refs[i].id;
        assert refs[i] in refs;
        NamedMore(refs, i);
        WriteOne(Caches(tcache, icache, old(stored)), Named(refs[..i]), id, included);
        stored := stored[id := true];
        i := i + 1;
      }
      assert refs[..|refs|] == refs;
    }

    /** Forgets the temporary note of a block that the database knows of. */
    method ActuallyIncluded(id: BlockID)
      requires Valid() && id in stored && stored[id]
      modifies this`tcache
      ensures Valid() && tcache == old(tcache) - {id}
    {
      assert forall x | x in included :: x in tcache || Stored(Caches(tcache, icache, stored), x);
      ghost var before := Caches(tcache, icache, stored);
      tcache := tcache - {id};
      assert forall x :: Stored(Caches(tcache, icache, stored), x) <==> Stored(before, x);
    }

    /** Hands over the longest prefix of the released blocks that fits the limit. */
    method GetBlocks(limit: nat, size: BlockData -> nat) returns (taken: seq<BlockData>)
      modifies this`blocks
      ensures old(blocks) == taken + blocks && Total(size, taken) <= limit
      ensures blocks != [] ==> Total(size, taken + [blocks[0]]) > limit
    {
      var idx, total := 0, 0;
      while idx < |blocks|
        invariant idx <= |blocks| && total == Total(size, blocks[..idx]) && total <= limit
      {
        assert blocks[..idx + 1][..idx] == blocks[..idx];
        assert blocks[..idx + 1] == blocks[..idx] + [blocks[idx]];
        if total + size(blocks[idx]) > limit { break; }
        total := total + size(blocks[idx]);
        idx := idx + 1;
      }
      taken := blocks[..idx];
      blocks := blocks[idx..];
    }
  }

  lemma NoneReady(self: nat, dg: Dg, next: BlockID, seen: set<BlockID>)
    requires forall id | id in seen :: !Ready(self, dg, id)
    ensures forall id | id in seen :: !Ready(self, Drop(dg, next), id)
  {
    forall id | id in seen ensures !Ready(self, Drop(dg, next), id) {
      assert !Ready(self, dg, id);
    }
  }

  lemma Fewer(await: map<BlockID, seq<BlockID>>, next: BlockID)
    ensures if next in await then |await - {next}| < |await| else await - {next} == await
  {
    assert (await - {next}).Keys == await.Keys - {next};
    if next in await { assert |(await - {next}).Keys| < |await.Keys|; }
  }

  /** What the arrival of a block comes to. */
  lemma Arrive(self: nat, dg: Dg, info: BlockData)
    requires Idle(self, dg) && Known(dg, info)
    ensures if info.id in dg.included then
              Busy(self, dg.(received := dg.received[info.id := info]), [info.id], None, []) && info.id !in dg.pending
            else if Missing(self, dg, info) == {} then
              Busy(self, Include(dg, info), [info.id], None, []) && info.id !in dg.pending
            else Idle(self, Wait(dg, info, Missing(self, dg, info)))
  {
    if info.id in dg.included {
      BeginAgain(self, dg, info);
    } else if Missing(self, dg, info) == {} {
      Begin(self, dg, info);
    } else {
      IdleWaits(self, dg, info);
    }
  }

  /** What looking at the first waiter comes to. */
  lemma LookStep(self: nat, dg: Dg, work: seq<BlockID>, next: BlockID, rest: seq<BlockID>)
    requires Busy(self, dg, work, Some(next), rest) && rest != []
    ensures var r := rest[0];
            && r in dg.pending && dg.pending[r].id == r && dg.received[r := dg.pending[r]] == dg.received
            && (if r in dg.included then Busy(self, dg, work + [r], Some(next), rest[1..])
                else if Missing(self, dg, dg.pending[r]) == {} then Busy(self, Include(dg, dg.pending[r]), work + [r], Some(next), rest[1..])
                else Busy(self, dg, work, Some(next), rest[1..]) && Wait(dg, dg.pending[r], Missing(self, dg, dg.pending[r])) == dg)
  {
    var r := rest[0];
    assert Awaits(dg, next, r);
    assert r in dg.pending && r in dg.received;
    if r in dg.included {
      Pass(self, dg, work, next, rest);
      Append(self, dg, work, next, rest[1..], r);
    } else if Missing(self, dg, dg.pending[r]) == {} {
      Release(self, dg, work, next, rest);
    } else {
      Pass(self, dg, work, next, rest);
      StillWaits(self, dg, r);
    }
  }

  /** What never changes once the graph is open. */
  predicate Same(dg: Dg, dg': Dg) {
    dg'.base == dg.base
  }

  method Contains(ids: seq<BlockID>, id: BlockID) returns (found: bool)
    ensures found == (id in ids)
  {
    found := false;
    var i := 0;
    while i < |ids|
      invariant i <= |ids| && !found && id !in ids[..i]
    {
      if ids[i] == id { return true; }
      i := i + 1;
    }
  }

  lemma RegisteredMore(await: map<BlockID, seq<BlockID>>, id: BlockID, deps: set<BlockID>, d: BlockID)
    ensures var r := Registered(await, id, deps);
            Registered(await, id, deps + {d}) ==
            if d !in r then r[d := [id]] else if id !in r[d] then r[d := r[d] + [id]] else r
  {
  }
}
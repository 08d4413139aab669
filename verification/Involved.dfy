/** Which shards a transaction involves, and which of its inputs are a node's own. */
module Involved {
  import opened Bytes
  import opened Sets

  type Id = Bytes

  /** A trace as far as it concerns shards: its inputs and its references. */
  datatype Inputs = Inputs(objects: seq<Id>, references: seq<Id>)

  function AllObjects(traces: seq<Inputs>): seq<Id> {
    if traces == [] then [] else AllObjects(traces[..|traces| - 1]) + traces[|traces| - 1].objects
  }

  function AllReferences(traces: seq<Inputs>): seq<Id> {
    if traces == [] then [] else AllReferences(traces[..|traces| - 1]) + traces[|traces| - 1].references
  }

  function ShardsOf(shardOf: Id -> nat, ids: seq<Id>): set<nat> {
    set id | id in ids :: shardOf(id)
  }

  /** The shards that hold an input or a reference. */
  function Shards(shardOf: Id -> nat, traces: seq<Inputs>): set<nat> {
    ShardsOf(shardOf, AllObjects(traces)) + ShardsOf(shardOf, AllReferences(traces))
  }

  /** The ids of one shard, in their order. */
  function Own(shardOf: Id -> nat, self: nat, ids: seq<Id>): seq<Id> {
    if ids == [] then []
    else
      var init, last := Own(shardOf, self, ids[..|ids| - 1]), ids[|ids| - 1];
      if shardOf(last) == self then init + [last] else init
  }

  lemma {:induction false} OwnAppend(shardOf: Id -> nat, self: nat, a: seq<Id>, b: seq<Id>)
    ensures Own(shardOf, self, a + b) == Own(shardOf, self, a) + Own(shardOf, self, b)
  {
    if b == [] {
      assert a + b == a;
    } else {
      OwnAppend(shardOf, self, a, b[..|b| - 1]);
      assert (a + b)[..|a + b| - 1] == a + b[..|b| - 1];
    }
  }

  lemma ShardsAppend(shardOf: Id -> nat, a: seq<Id>, b: seq<Id>)
    ensures ShardsOf(shardOf, a + b) == ShardsOf(shardOf, a) + ShardsOf(shardOf, b)
  {
  }

  method Select(shardOf: Id -> nat, self: nat, ids: seq<Id>) returns (own: seq<Id>, all: bool)
    ensures own == Own(shardOf, self, ids) && (all <==> ShardsOf(shardOf, ids) <= {self})
  {
    own, all := [], true;
    var i := 0;
    while i < |ids|
      invariant i <= |ids| && own == Own(shardOf, self, ids[..i]) && (all <==> ShardsOf(shardOf, ids[..i]) <= {self})
    {
      assert ids[..i + 1] == ids[..i] + [ids[i]];
      ShardsAppend(shardOf, ids[..i], [ids[i]]);
      assert ShardsOf(shardOf, [ids[i]]) == {shardOf(ids[i])};
      if shardOf(ids[i]) == self { own := own + [ids[i]]; } else { all := false; }
      i := i + 1;
    }
    assert ids[..|ids|] == ids;
  }

  /** The inputs to lock, and whether the whole transaction is in this shard. */
  method InputObjectsForShard(shardOf: Id -> nat, self: nat, traces: seq<Inputs>) returns (objects: seq<Id>, allInShard: bool)
    ensures objects == Own(shardOf, self, AllObjects(traces))
    ensures allInShard <==> Shards(shardOf, traces) - {self} == {}
  {
    objects, allInShard := [], true;
    var i := 0;
    while i < |traces|
      invariant i <= |traces| && objects == Own(shardOf, self, AllObjects(traces[..i]))
      invariant allInShard <==> Shards(shardOf, traces[..i]) <= {self}
    {
      assert traces[..i + 1][..i] == traces[..i];
      OwnAppend(shardOf, self, AllObjects(traces[..i]), traces[i].objects);
      ShardsAppend(shardOf, AllObjects(traces[..i]), traces[i].objects);
      ShardsAppend(shardOf, AllReferences(traces[..i]), traces[i].references);
      var own, all := Select(shardOf, self, traces[i].objects);
      var _, allRefs := Select(shardOf, self, traces[i].references);
      objects := objects + own;
      allInShard := allInShard && all && allRefs;
      i := i + 1;
    }
    assert traces[..|traces|] == traces;
  }

  /** The elements of a map's key set, in whatever order it gives them. */
  method ListOf(uniq: set<nat>) returns (ids: seq<nat>)
    ensures Distinct(ids) && Elements(ids) == uniq
  {
    ids := [];
    var rest := uniq;
    while rest != {}
      invariant Distinct(ids) && rest <= uniq && (forall s :: s in ids <==> s in uniq && s !in rest)
      decreases |rest|
    {
      var s :| s in rest;
      ids := ids + [s];
      rest := rest - {s};
    }
  }

  method ShardsInvolved(shardOf: Id -> nat, traces: seq<Inputs>) returns (ids: seq<nat>)
    ensures Distinct(ids) && Elements(ids) == Shards(shardOf, traces)
  {
    var uniq: set<nat> := {};
    var i := 0;
    while i < |traces|
      invariant i <= |traces| && uniq == Shards(shardOf, traces[..i])
    {
      assert traces[..i + 1][..i] == traces[..i];
      ShardsAppend(shardOf, AllObjects(traces[..i]), traces[i].objects);
      ShardsAppend(shardOf, AllReferences(traces[..i]), traces[i].references);
      uniq := uniq + ShardsOf(shardOf, traces[i].objects) + ShardsOf(shardOf, traces[i].references);
      i := i + 1;
    }
    assert traces[..|traces|] == traces;
    ids := ListOf(uniq);
  }

  /** Removes the own shard from the list, which names it at most once. */
  method ShardsInvolvedWithoutSelf(shardOf: Id -> nat, self: nat, traces: seq<Inputs>) returns (others: seq<nat>)
    ensures Distinct(others) && Elements(others) == Shards(shardOf, traces) - {self}
  {
    var shards := ShardsInvolved(shardOf, traces);
    var i := 0;
    while i < |shards| && shards[i] != self
      invariant i <= |shards| && self !in shards[..i]
    {
      i := i + 1;
    }
    if i == |shards| {
      assert shards[..i] == shards;
      return shards;
    }
    others := shards[..i] + shards[i + 1..];
    forall s ensures s in others <==> s in shards && s != self {
      assert shards == shards[..i] + [self] + shards[i + 1..];
    }
  }
}

/** The order in which a round's blocks are handed to the callback. */
module HashOrder {
  import opened Bytes
  import opened Messages
  import opened Delivery

  predicate ByHash(bs: seq<BlockID>) {
    forall i, j | 0 <= i < j < |bs| :: !LexLess(bs[j].hash, bs[i].hash)
  }

  predicate DistinctHashes(bs: seq<BlockID>) {
    forall i, j | 0 <= i < j < |bs| :: bs[i].hash != bs[j].hash
  }

  /** Not below is transitive, as the order is total. */
  lemma NotBelow(a: Hash, b: Hash, c: Hash)
    requires !LexLess(b, a) && !LexLess(c, b)
    ensures !LexLess(c, a)
  {
    LexTotal(a, b);
    LexTotal(b, c);
    LexIrreflexive(a);
    if a != b && b != c {
      LexTransitive(a, b, c);
      LexAsymmetric(a, c);
    }
  }

  method Insert(bs: seq<BlockID>, b: BlockID) returns (r: seq<BlockID>)
    requires ByHash(bs)
    ensures ByHash(r) && multiset(r) == multiset(bs) + multiset{b}
  {
    var i := 0;
    while i < |bs| && LexLess(bs[i].hash, b.hash)
      invariant i <= |bs|
      invariant forall k | 0 <= k < i :: LexLess(bs[k].hash, b.hash)
    {
      i := i + 1;
    }
    r := bs[..i] + [b] + bs[i..];
    hide LexLess;
    assert multiset(r) == multiset(bs) + multiset{b} by { assert bs == bs[..i] + bs[i..]; }
    forall j, k | 0 <= j < k < |r| ensures !LexLess(r[k].hash, r[j].hash) {
      if k == i {
        LexAsymmetric(bs[j].hash, b.hash);
      } else if j == i {
        LexIrreflexive(bs[i].hash);
        NotBelow(b.hash, bs[i].hash, bs[k - 1].hash);
      }
    }
  }

  function Part(hashes: map<nat, Hash>, nodes: set<nat>): map<nat, Hash> {
    map n | n in nodes && n in hashes :: hashes[n]
  }

  lemma OneMoreBlock(hashes: map<nat, Hash>, done: set<nat>, n: nat, round: nat)
    requires n in hashes && n !in done
    ensures multiset(RoundBlocks(Part(hashes, done + {n}), round)) ==
            multiset(RoundBlocks(Part(hashes, done), round)) + if hashes[n] != [] then multiset{BlockID(hashes[n], n, round)} else multiset{}
  {
    var before, b := RoundBlocks(Part(hashes, done), round), BlockID(hashes[n], n, round);
    assert b !in before;
    if hashes[n] != [] {
      forall x | x in before + {b} ensures x in RoundBlocks(Part(hashes, done + {n}), round) {
        assert x.node in Part(hashes, done + {n}) && x == BlockID(hashes[x.node], x.node, round);
      }
      assert RoundBlocks(Part(hashes, done + {n}), round) == before + {b};
      assert multiset(before + {b}) == multiset(before) + multiset{b};
    } else {
      assert RoundBlocks(Part(hashes, done + {n}), round) == before;
    }
  }

  /** The round's blocks, taken from the map in any order and sorted by hash. */
  method SortedBlocks(hashes: map<nat, Hash>, round: nat) returns (bs: seq<BlockID>)
    ensures ByHash(bs) && multiset(bs) == multiset(RoundBlocks(hashes, round))
  {
    bs := [];
    var rest := hashes.Keys;
    assert RoundBlocks(Part(hashes, hashes.Keys - rest), round) == {};
    while rest != {}
      invariant rest <= hashes.Keys && ByHash(bs)
      invariant multiset(bs) == multiset(RoundBlocks(Part(hashes, hashes.Keys - rest), round))
      decreases |rest|
    {
      var n :| n in rest;
      OneMoreBlock(hashes, hashes.Keys - rest, n, round);
      assert hashes.Keys - (rest - {n}) == (hashes.Keys - rest) + {n};
      if hashes[n] != [] {
        bs := Insert(bs, BlockID(hashes[n], n, round));
      }
      rest := rest - {n};
    }
    assert Part(hashes, hashes.Keys - {}) == hashes;
  }

  lemma SameFirst(a: seq<BlockID>, b: seq<BlockID>)
    requires ByHash(a) && ByHash(b) && multiset(a) == multiset(b) && DistinctHashes(a) && a != [] && b != []
    ensures a[0] == b[0]
  {
    assert b[0] in multiset(a) && a[0] in multiset(b);
    var i :| 0 <= i < |a| && a[i] == b[0];
    var j :| 0 <= j < |b| && b[j] == a[0];
    LexTotal(a[0].hash, a[i].hash);
  }

  lemma Shorter(a: seq<BlockID>)
    requires a != []
    ensures (ByHash(a) ==> ByHash(a[1..])) && (DistinctHashes(a) ==> DistinctHashes(a[1..]))
  {
    hide LexLess;
  }

  /** With distinct hashes there is only one such order, however the map is walked. */
  lemma {:induction false} OneOrder(a: seq<BlockID>, b: seq<BlockID>)
    requires ByHash(a) && ByHash(b) && multiset(a) == multiset(b) && DistinctHashes(a)
    ensures a == b
  {
    hide LexLess;
    assert |a| == |multiset(a)| && |b| == |multiset(b)|;
    if a != [] {
      SameFirst(a, b);
      Shorter(a);
      Shorter(b);
      hide *;
      assert a == [a[0]] + a[1..] && b == [b[0]] + b[1..];
      assert multiset(a[1..]) == multiset(a) - multiset{a[0]};
      assert multiset(b[1..]) == multiset(b) - multiset{b[0]};
      OneOrder(a[1..], b[1..]);
    }
  }
}

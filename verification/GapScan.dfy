/** Finding the rounds of a node for which no block is stored, by walking the
    database's keys in byte order. */
module GapScan {
  import opened Bytes
  import opened Messages
  import opened Lexinum
  import opened Keys

  const BLOCK_PREFIX: byte := 1

  function BlockKey(id: BlockID): Bytes
    requires Fits(id)
  {
    [BLOCK_PREFIX] + IdBytes(id)
  }

  function NodePrefix(node: uint64): Bytes {
    [BLOCK_PREFIX] + (Encoded(node) + [0])
  }

  /** The keys of the database in their order; those of blocks are of `stored`. */
  ghost predicate DbOk(keys: seq<Bytes>, stored: set<BlockID>) {
    && (forall i, j | 0 <= i < j < |keys| :: LexLess(keys[i], keys[j]))
    && (forall id | id in stored :: Fits(id) && BlockKey(id) in keys)
    && (forall k | k in keys && [BLOCK_PREFIX] <= k :: exists id :: id in stored && Fits(id) && k == BlockKey(id))
  }

  // ---------------------------------------------------------------------------
  // Prefixes.

  lemma {:induction false} PrefixOrder(p: Bytes, a: Bytes)
    requires p <= a
    ensures !LexLess(a, p)
  {
    if p == [] {
    } else {
      assert p[1..] <= a[1..] by { assert a[1..][..|p| - 1] == a[..|p|][1..]; }
      PrefixOrder(p[1..], a[1..]);
    }
  }

  /** What lies between two strings with a prefix has the prefix. */
  lemma {:induction false} BetweenPrefix(p: Bytes, a: Bytes, b: Bytes, c: Bytes)
    requires p <= a && p <= c && !LexLess(b, a) && LexLess(b, c)
    ensures p <= b
  {
    if p != [] {
      assert a[0] == c[0] == p[0];
      if b != [] {
        assert p[1..] <= a[1..] by { assert a[1..][..|p| - 1] == a[..|p|][1..]; }
        assert p[1..] <= c[1..] by { assert c[1..][..|p| - 1] == c[..|p|][1..]; }
        assert b[0] == p[0];
        BetweenPrefix(p[1..], a[1..], b[1..], c[1..]);
        assert b == [b[0]] + b[1..] && p == [p[0]] + p[1..];
      }
    }
  }

  lemma SameNumber(m: uint64, n: uint64, s: Bytes, t: Bytes)
    requires Encoded(m) + ([0] + s) == Encoded(n) + ([0] + t)
    ensures m == n
  {
    NoZero(m);
    NoZero(n);
    hide Encoded, FirstZero;
    ZeroAt(Encoded(m), s);
    ZeroAt(Encoded(n), t);
    assert Encoded(m) == Encoded(n);
    RoundTrip(m);
    RoundTrip(n);
  }

  /** A key has a node's prefix exactly when it is of that node. */
  lemma NodeOfKey(id: BlockID, node: uint64)
    requires Fits(id)
    ensures NodePrefix(node) <= BlockKey(id) <==> id.node == node
  {
    hide Encoded;
    var rest := Encoded(id.round) + ([0] + id.hash);
    if id.node == node {
      assert BlockKey(id) == NodePrefix(node) + rest;
    }
    if NodePrefix(node) <= BlockKey(id) {
      var tail := BlockKey(id)[|NodePrefix(node)|..];
      assert BlockKey(id) == NodePrefix(node) + tail;
      assert BlockKey(id)[1..] == Encoded(node) + ([0] + tail);
      assert BlockKey(id)[1..] == Encoded(id.node) + ([0] + rest);
      SameNumber(node, id.node, tail, rest);
    }
  }

  /** A node's key is before the start of the scan exactly when its round is. */
  lemma RoundOfKey(id: BlockID, from: uint64)
    requires Fits(id)
    ensures LexLess(BlockKey(id), NodePrefix(id.node) + Encoded(from)) <==> id.round < from
  {
    var p, e := NodePrefix(id.node), Encoded(id.round) + ([0] + id.hash);
    assert BlockKey(id) == p + e;
    CommonPrefix(p, e, Encoded(from));
    NoZero(id.round);
    NoZero(from);
    OrderEmbedding(id.round, from);
    OrderEmbedding(from, id.round);
    if id.round < from {
      Separated(Encoded(id.round), Encoded(from), [0] + id.hash, []);
      Separated(Encoded(id.round), Encoded(from), id.hash, []);
    } else if id.round == from {
      PrefixOrder(Encoded(from), e);
    } else {
      Extended(Encoded(from), Encoded(id.round), [0] + id.hash);
      LexAsymmetric(Encoded(from), e);
    }
  }

  lemma {:induction false} Extended(a: Bytes, b: Bytes, s: Bytes)
    requires LexLess(a, b)
    ensures LexLess(a, b + s)
  {
    if a != [] && a[0] == b[0] {
      Extended(a[1..], b[1..], s);
      assert (b + s)[1..] == b[1..] + s;
    }
  }

  // ---------------------------------------------------------------------------
  // Reading the round of a key.

  /** What `decodeBlockRound` makes of a key: without both separators it fails. */
  function RoundOf(d: Bytes): Result<nat>
    requires d != []
  {
    var body := d[1..];
    var i := FirstZero(body);
    if i == |body| then Number([])
    else
      var rest := body[i + 1..];
      var j := FirstZero(rest);
      if j == |rest| then Err(Panic) else Number(rest[..j])
  }

  lemma RoundOfBlock(id: BlockID)
    requires Fits(id)
    ensures RoundOf(BlockKey(id)) == Ok(id.round)
  {
    NoZero(id.node);
    NoZero(id.round);
    RoundTrip(id.round);
    hide Encoded, FirstZero;
    assert BlockKey(id)[1..] == Encoded(id.node) + ([0] + (Encoded(id.round) + ([0] + id.hash)));
    ZeroAt(Encoded(id.node), Encoded(id.round) + ([0] + id.hash));
    ZeroAt(Encoded(id.round), id.hash);
  }

  method DecodeBlockRound(d: Bytes) returns (r: Result<nat>)
    requires d != []
    ensures r == RoundOf(d)
  {
    hide FirstZero, Decode;
    var i := FindZero(d, 1);
    if i == |d| {
      var none := DecodeBytes([]);
      assert none == Decode([]);
      return if none.Value? then Ok(none.v) else Err(none);
    }
    var start := i + 1;
    assert d[1..][i..] == d[start..];
    i := FindZero(d, start);
    if i == |d| { return Err(Panic); }
    assert d[start..][..i - start] == d[start..i];
    var n := DecodeBytes(d[start..i]);
    r := if n.Value? then Ok(n.v) else Err(n);
  }

  // ---------------------------------------------------------------------------
  // The scan.

  /** The rounds of a node for which a block is stored. */
  function Rounds(stored: set<BlockID>, node: nat): set<nat> {
    set id | id in stored && id.node == node :: id.round
  }

  /** A round, or one before the first: the 64-bit word that adding one turns to 0. */
  type Mark = r: int | -1 <= r witness -1

  function Word(r: Mark): nat {
    if r < 0 then LIMIT - 1 else r
  }

  /** The rounds after `since` and up to `upto` with no block, in order. */
  function Gaps(have: set<nat>, since: Mark, upto: Mark): seq<nat> {
    if upto <= since then []
    else Gaps(have, since, upto - 1) + if upto in have then [] else [upto]
  }

  lemma {:induction false} GapsExactly(have: set<nat>, since: Mark, upto: Mark)
    ensures forall r :: r in Gaps(have, since, upto) <==> since < r <= upto && r !in have
    ensures forall i, j | 0 <= i < j < |Gaps(have, since, upto)| :: Gaps(have, since, upto)[i] < Gaps(have, since, upto)[j]
  {
    if upto > since {
      GapsExactly(have, since, upto - 1);
      var g := Gaps(have, since, upto - 1);
      forall i | 0 <= i < |g| ensures g[i] < upto { assert g[i] in g; }
    }
  }

  /** The iterator's `Seek`: the first key not below `start`. */
  function Seek(keys: seq<Bytes>, start: Bytes): (i: nat)
    ensures i <= |keys| && (forall j | 0 <= j < i :: LexLess(keys[j], start)) && (i < |keys| ==> !LexLess(keys[i], start))
  {
    if keys == [] || !LexLess(keys[0], start) then 0 else 1 + Seek(keys[1..], start)
  }

  function StartKey(node: uint64, since: Mark): Bytes
    requires since + 1 < LIMIT
  {
    NodePrefix(node) + Encoded(since + 1)
  }

  /** `id` is one that the scan is after. */
  predicate Sought(stored: set<BlockID>, node: nat, since: Mark, id: BlockID) {
    id in stored && id.node == node && id.round > since
  }

  lemma {:induction false} NotBelow(keys: seq<Bytes>, start: Bytes, i: nat, j: nat)
    requires forall i, j | 0 <= i < j < |keys| :: LexLess(keys[i], keys[j])
    requires i <= j < |keys| && !LexLess(keys[i], start)
    ensures !LexLess(keys[j], start)
  {
    if i < j && LexLess(keys[j], start) { LexTransitive(keys[i], keys[j], start); }
  }

  /** A key of the walk belongs to a block that is sought. */
  lemma Visited(keys: seq<Bytes>, stored: set<BlockID>, node: uint64, since: Mark, idx: nat) returns (id: BlockID)
    requires DbOk(keys, stored) && since + 1 < LIMIT && Seek(keys, StartKey(node, since)) <= idx < |keys| && NodePrefix(node) <= keys[idx]
    ensures Sought(stored, node, since, id) && Fits(id) && keys[idx] == BlockKey(id)
  {
    var k := keys[idx];
    assert k in keys && [BLOCK_PREFIX] <= k;
    id :| id in stored && Fits(id) && k == BlockKey(id);
    NodeOfKey(id, node);
    RoundOfKey(id, since + 1);
    NotBelow(keys, StartKey(node, since), Seek(keys, StartKey(node, since)), idx);
  }

  /** Keys further on are of the same or of later rounds. */
  lemma Later(keys: seq<Bytes>, idx: nat, j: nat, id: BlockID, id': BlockID)
    requires forall i, j | 0 <= i < j < |keys| :: LexLess(keys[i], keys[j])
    requires idx <= j < |keys| && Fits(id) && Fits(id') && keys[idx] == BlockKey(id) && keys[j] == BlockKey(id') && id.node == id'.node
    ensures id.round <= id'.round
  {
    if idx < j {
      CommonPrefix([BLOCK_PREFIX], IdBytes(id), IdBytes(id'));
      KeyOrder(id, id');
    } else {
      RoundOfBlock(id);
      RoundOfBlock(id');
    }
  }

  /** A block that is sought is found from the start on, and before the walk ends. */
  lemma Within(keys: seq<Bytes>, stored: set<BlockID>, node: uint64, since: Mark, id: BlockID, end: nat) returns (j: nat)
    requires DbOk(keys, stored) && since + 1 < LIMIT && Sought(stored, node, since, id)
    requires Seek(keys, StartKey(node, since)) <= end <= |keys| && (end < |keys| ==> !(NodePrefix(node) <= keys[end]))
    ensures Seek(keys, StartKey(node, since)) <= j < end && Fits(id) && keys[j] == BlockKey(id)
  {
    assert BlockKey(id) in keys;
    j :| 0 <= j < |keys| && keys[j] == BlockKey(id);
    var start := StartKey(node, since);
    RoundOfKey(id, since + 1);
    NodeOfKey(id, node);
    if end <= j {
      assert NodePrefix(node) <= start;
      NotBelow(keys, start, Seek(keys, start), end);
      if end < j { BetweenPrefix(NodePrefix(node), start, keys[end], keys[j]); }
    }
  }

  /** The walk has come to `idx`, and to round `latest`. */
  ghost predicate At(keys: seq<Bytes>, stored: set<BlockID>, node: nat, since: Mark, idx: nat, latest: Mark) {
    forall id, j | Sought(stored, node, since, id) && Fits(id) && 0 <= j < |keys| && keys[j] == BlockKey(id) ::
      (j < idx ==> id.round <= latest) && (idx <= j ==> latest <= id.round)
  }

  lemma AtStart(keys: seq<Bytes>, stored: set<BlockID>, node: uint64, since: Mark)
    requires DbOk(keys, stored) && since + 1 < LIMIT
    ensures At(keys, stored, node, since, Seek(keys, StartKey(node, since)), since)
    ensures Gaps(Rounds(stored, node), since, since) == []
  {
    var start := StartKey(node, since);
    forall id, j | Sought(stored, node, since, id) && Fits(id) && 0 <= j < |keys| && keys[j] == BlockKey(id)
      ensures Seek(keys, start) <= j
    {
      RoundOfKey(id, since + 1);
    }
  }

  lemma AtNext(keys: seq<Bytes>, stored: set<BlockID>, node: uint64, since: Mark, idx: nat, latest: Mark, id0: BlockID)
    requires DbOk(keys, stored) && At(keys, stored, node, since, idx, latest) && idx < |keys|
    requires Sought(stored, node, since, id0) && Fits(id0) && keys[idx] == BlockKey(id0)
    ensures latest <= id0.round && At(keys, stored, node, since, idx + 1, id0.round)
  {
    forall id, j | Sought(stored, node, since, id) && Fits(id) && 0 <= j < |keys| && keys[j] == BlockKey(id)
      ensures (j < idx + 1 ==> id.round <= id0.round) && (idx + 1 <= j ==> id0.round <= id.round)
    {
      if idx <= j { Later(keys, idx, j, id0, id); }
      if j == idx { Later(keys, idx, j, id, id0); }
    }
  }

  /** No block is stored for the rounds that the walk has jumped over. */
  lemma Skipped(keys: seq<Bytes>, stored: set<BlockID>, node: uint64, since: Mark, idx: nat, latest: Mark, id0: BlockID, r: nat)
    requires DbOk(keys, stored) && At(keys, stored, node, since, idx, latest) && idx < |keys|
    requires Sought(stored, node, since, id0) && Fits(id0) && keys[idx] == BlockKey(id0) && since <= latest < r < id0.round
    ensures r !in Rounds(stored, node)
  {
    if r in Rounds(stored, node) {
      var id :| id in stored && id.node == node && id.round == r;
      assert BlockKey(id) in keys;
      var j :| 0 <= j < |keys| && keys[j] == BlockKey(id);
      if idx <= j { Later(keys, idx, j, id0, id); }
      assert Sought(stored, node, since, id);
    }
  }

  /** The node has at most one block for the largest round, after which rounds wrap. */
  ghost predicate OneLast(stored: set<BlockID>, node: nat) {
    forall id, id' | id in stored && id' in stored && id.node == id'.node == node && id.round == id'.round == LIMIT - 1 :: id == id'
  }

  /** `latest` is of the key before `idx`, if any was visited. */
  ghost predicate CameFrom(keys: seq<Bytes>, stored: set<BlockID>, node: nat, since: Mark, idx: nat, latest: Mark) {
    latest == since || (0 < idx <= |keys| && exists id :: Sought(stored, node, since, id) && Fits(id) && keys[idx - 1] == BlockKey(id) && id.round == latest)
  }

  lemma Come(keys: seq<Bytes>, stored: set<BlockID>, node: nat, since: Mark, idx: nat)
    ensures CameFrom(keys, stored, node, since, idx, since)
  {
  }

  lemma Came(keys: seq<Bytes>, stored: set<BlockID>, node: nat, since: Mark, idx: nat, id: BlockID)
    requires idx < |keys| && Sought(stored, node, since, id) && Fits(id) && keys[idx] == BlockKey(id)
    ensures CameFrom(keys, stored, node, since, idx + 1, id.round)
  {
  }

  /** So whenever there is a next key, adding one to `latest` does not wrap. */
  lemma NotLast(keys: seq<Bytes>, stored: set<BlockID>, node: uint64, since: Mark, idx: nat, latest: Mark, id: BlockID)
    requires DbOk(keys, stored) && OneLast(stored, node) && since + 1 < LIMIT && CameFrom(keys, stored, node, since, idx, latest)
    requires idx < |keys| && Sought(stored, node, since, id) && Fits(id) && keys[idx] == BlockKey(id) && latest <= id.round
    ensures latest + 1 < LIMIT
  {
    hide BlockKey;
    if latest != since && latest == LIMIT - 1 {
      var id0 :| Sought(stored, node, since, id0) && Fits(id0) && keys[idx - 1] == BlockKey(id0) && id0.round == latest;
      assert id0 == id;
      LexIrreflexive(keys[idx]);
    }
  }

  /** The inner loop: the rounds before `next` are missing. */
  method FillGaps(next: nat, limit: int, rounds0: seq<nat>, latest0: Mark, ghost have: set<nat>, ghost since: Mark)
    returns (rounds: seq<nat>, latest: Mark, full: bool)
    requires since <= latest0 <= next && latest0 + 1 < LIMIT && rounds0 == Gaps(have, since, latest0) && (0 <= limit ==> |rounds0| <= limit)
    requires forall r | latest0 < r < next :: r !in have
    ensures since <= latest <= next && rounds == Gaps(have, since, latest)
    ensures if full then 0 <= limit && |rounds| == limit + 1 && rounds[limit] == latest
            else latest <= next <= latest + 1 && (0 <= limit ==> |rounds| <= limit)
  {
    rounds, latest, full := rounds0, latest0, false;
    var added := |rounds0|;
    while latest + 1 < next
      invariant latest0 <= latest <= next && rounds == Gaps(have, since, latest) && added == |rounds| && (0 <= limit ==> added <= limit)
    {
      latest := latest + 1;
      rounds := rounds + [latest];
      if added == limit { return rounds, latest, true; }
      added := added + 1;
    }
  }

  /** `getMissing`: all missing rounds up to the latest stored one, or the first
      `limit + 1` of them. Adding one to the largest number gives 0, so that after it
      all rounds are sought. */
  method GetMissing(keys: seq<Bytes>, node: uint64, since: uint64, limit: int, ghost stored: set<BlockID>)
    returns (rounds: seq<nat>, latest: uint64, failed: bool, ghost after: Mark, ghost upto: Mark)
    requires DbOk(keys, stored) && OneLast(stored, node)
    ensures since == Word(after) && after + 1 < LIMIT && latest == Word(upto)
    ensures !failed && after <= upto && rounds == Gaps(Rounds(stored, node), after, upto)
    ensures if 0 <= limit < |rounds| then |rounds| == limit + 1 && rounds[limit] == upto
            else (forall r | r in Rounds(stored, node) :: r <= after || r <= upto) && (upto == after || upto in Rounds(stored, node))
  {
    var from: Mark := if since + 1 == LIMIT then -1 else since;
    var come: Mark;
    come, rounds, failed := Walk(keys, node, from, limit, stored);
    after, upto := from, come;
    latest := Word(come);
  }

  /** The walk over the node's keys, from the round after `since` on. */
  method Walk(keys: seq<Bytes>, node: uint64, since: Mark, limit: int, ghost stored: set<BlockID>)
    returns (latest: Mark, rounds: seq<nat>, failed: bool)
    requires DbOk(keys, stored) && OneLast(stored, node) && since + 1 < LIMIT
    ensures !failed && since <= latest < LIMIT && rounds == Gaps(Rounds(stored, node), since, latest)
    ensures if 0 <= limit < |rounds| then |rounds| == limit + 1 && rounds[limit] == latest
            else (forall r | r in Rounds(stored, node) :: r <= since || r <= latest) && (latest == since || latest in Rounds(stored, node))
  {
    hide *;
    ghost var have := Rounds(stored, node);
    rounds, latest, failed := [], since, false;
    var idx := Seek(keys, StartKey(node, since));
    ghost var from := idx;
    AtStart(keys, stored, node, since);
    Come(keys, stored, node, since, idx);
    while idx < |keys| && NodePrefix(node) <= keys[idx]
      invariant from <= idx <= |keys| && since <= latest < LIMIT && At(keys, stored, node, since, idx, latest)
      invariant rounds == Gaps(have, since, latest) && (0 <= limit ==> |rounds| <= limit)
      invariant (latest == since || latest in have) && CameFrom(keys, stored, node, since, idx, latest)
    {
      ghost var id := Visited(keys, stored, node, since, idx);
      FoundNext(keys, stored, node, since, idx, latest, id);
      NotLast(keys, stored, node, since, idx, latest, id);
      Came(keys, stored, node, since, idx, id);
      var round := DecodeBlockRound(keys[idx]);
      if round.Err? { return latest, rounds, true; }
      var full;
      rounds, latest, full := FillGaps(round.value, limit, rounds, latest, have, since);
      if full { return; }
      if latest < round.value { GapsMore(have, since, round.value); }
      latest := round.value;
      idx := idx + 1;
    }
    AllFound(keys, stored, node, since, idx, latest);
  }

  /** What the next key of the walk means. */
  lemma FoundNext(keys: seq<Bytes>, stored: set<BlockID>, node: uint64, since: Mark, idx: nat, latest: Mark, id: BlockID)
    requires DbOk(keys, stored) && At(keys, stored, node, since, idx, latest) && idx < |keys| && since <= latest
    requires Sought(stored, node, since, id) && Fits(id) && keys[idx] == BlockKey(id)
    ensures keys[idx] != [] && RoundOf(keys[idx]) == Ok(id.round) && id.round in Rounds(stored, node)
    ensures since < id.round < LIMIT && latest <= id.round && At(keys, stored, node, since, idx + 1, id.round)
    ensures forall r | latest < r < id.round :: r !in Rounds(stored, node)
  {
    RoundOfBlock(id);
    AtNext(keys, stored, node, since, idx, latest, id);
    forall r | latest < r < id.round ensures r !in Rounds(stored, node) {
      Skipped(keys, stored, node, since, idx, latest, id, r);
    }
  }

  lemma GapsMore(have: set<nat>, since: Mark, upto: Mark)
    requires since < upto
    ensures Gaps(have, since, upto) == Gaps(have, since, upto - 1) + if upto in have then [] else [upto]
  {
  }

  lemma AllFound(keys: seq<Bytes>, stored: set<BlockID>, node: uint64, since: Mark, end: nat, latest: Mark)
    requires DbOk(keys, stored) && since + 1 < LIMIT && At(keys, stored, node, since, end, latest)
    requires Seek(keys, StartKey(node, since)) <= end <= |keys| && (end < |keys| ==> !(NodePrefix(node) <= keys[end]))
    ensures forall r | r in Rounds(stored, node) :: r <= since || r <= latest
  {
    hide DbOk, Seek, StartKey, NodePrefix, BlockKey, LexLess;
    forall r | r in Rounds(stored, node) ensures r <= since || r <= latest {
      var id :| id in stored && id.node == node && id.round == r;
      if r > since {
        var j := Within(keys, stored, node, since, id, end);
        assert Sought(stored, node, since, id) && keys[j] == BlockKey(id);
      }
    }
  }
}

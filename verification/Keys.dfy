/** Database keys of blocks: they sort by node, then round, then hash, and can be
    taken apart again. */
module Keys {
  import opened Bytes
  import opened Messages
  import opened Lexinum

  /** Ids whose numbers fit 64 bits. */
  predicate Fits(id: BlockID) {
    id.node < LIMIT && id.round < LIMIT
  }

  function IdBytes(id: BlockID): Bytes
    requires Fits(id)
  {
    Encoded(id.node) + ([0] + (Encoded(id.round) + ([0] + id.hash)))
  }

  predicate IdLess(a: BlockID, b: BlockID) {
    a.node < b.node || (a.node == b.node && (a.round < b.round || (a.round == b.round && LexLess(a.hash, b.hash))))
  }

  /** A separator of zero keeps the order of what it ends. */
  lemma {:induction false} Separated(a: Bytes, b: Bytes, s: Bytes, t: Bytes)
    requires LexLess(a, b) && 0 !in a && 0 !in b
    ensures LexLess(a + ([0] + s), b + ([0] + t)) && LexLess(a + ([0] + s), b)
  {
    var x, y := a + ([0] + s), b + ([0] + t);
    assert b[0] in b && y[0] == b[0];
    if a == [] {
      assert x[0] == 0;
    } else {
      assert x[0] == a[0];
      if a[0] == b[0] {
        assert forall c | c in a[1..] :: c in a;
        assert forall c | c in b[1..] :: c in b;
        Separated(a[1..], b[1..], s, t);
        assert x[1..] == a[1..] + ([0] + s) && y[1..] == b[1..] + ([0] + t);
      }
    }
  }

  lemma NumberOrder(m: uint64, n: uint64, s: Bytes, t: Bytes)
    ensures m < n ==> LexLess(Encoded(m) + ([0] + s), Encoded(n) + ([0] + t))
    ensures m == n ==> (LexLess(Encoded(m) + ([0] + s), Encoded(n) + ([0] + t)) <==> LexLess(s, t))
  {
    if m < n {
      OrderEmbedding(m, n);
      NoZero(m);
      NoZero(n);
      Separated(Encoded(m), Encoded(n), s, t);
    } else if m == n {
      CommonPrefix(Encoded(m), [0] + s, [0] + t);
      CommonPrefix([0], s, t);
    }
  }

  lemma KeyIncreases(a: BlockID, b: BlockID)
    requires Fits(a) && Fits(b) && IdLess(a, b)
    ensures LexLess(IdBytes(a), IdBytes(b))
  {
    var s, t := Encoded(a.round) + ([0] + a.hash), Encoded(b.round) + ([0] + b.hash);
    NumberOrder(a.node, b.node, s, t);
    NumberOrder(a.round, b.round, a.hash, b.hash);
  }

  /** Keys sort like (node, round, hash). */
  lemma KeyOrder(a: BlockID, b: BlockID)
    requires Fits(a) && Fits(b)
    ensures IdLess(a, b) <==> LexLess(IdBytes(a), IdBytes(b))
  {
    if IdLess(a, b) {
      KeyIncreases(a, b);
    } else if IdLess(b, a) {
      KeyIncreases(b, a);
      LexAsymmetric(IdBytes(b), IdBytes(a));
    } else {
      LexTotal(a.hash, b.hash);
      assert a == b;
      LexIrreflexive(IdBytes(a));
    }
  }

  // ---------------------------------------------------------------------------
  // Taking keys apart.

  datatype Result<T> = Ok(value: T) | Err(error: Decoded)

  function FirstZero(d: Bytes): (i: nat)
    ensures i <= |d| && 0 !in d[..i] && (i < |d| ==> d[i] == 0)
  {
    if d == [] || d[0] == 0 then 0
    else
      var i := 1 + FirstZero(d[1..]);
      assert d[..i] == [d[0]] + d[1..][..i - 1];
      i
  }

  function Number(d: Bytes): Result<nat> {
    match Decode(d)
    case Value(v) => Ok(v)
    case e => Err(e)
  }

  /** What `decodeBlockID` makes of any bytes: fields that are missing stay zero. */
  function DecodeId(d: Bytes): Result<BlockID> {
    var i := FirstZero(d);
    if i == |d| then Ok(NO_BLOCK)
    else
      match Number(d[..i])
      case Err(e) => Err(e)
      case Ok(node) =>
        var rest := d[i + 1..];
        var j := FirstZero(rest);
        if j == |rest| then Ok(BlockID([], node, 0))
        else
          match Number(rest[..j])
          case Err(e) => Err(e)
          case Ok(round) => Ok(BlockID(rest[j + 1..], node, round))
  }

  lemma {:induction false} ZeroAt(a: Bytes, s: Bytes)
    requires 0 !in a
    ensures FirstZero(a + ([0] + s)) == |a| && (a + ([0] + s))[..|a|] == a && (a + ([0] + s))[|a| + 1..] == s
  {
    if a != [] {
      assert a[0] in a && forall c | c in a[1..] :: c in a;
      ZeroAt(a[1..], s);
      assert (a + ([0] + s))[1..] == a[1..] + ([0] + s);
    }
  }

  lemma DecodeParts(a: Bytes, b: Bytes, hash: Bytes, node: nat, round: nat)
    requires 0 !in a && 0 !in b && Number(a) == Ok(node) && Number(b) == Ok(round)
    ensures DecodeId(a + ([0] + (b + ([0] + hash)))) == Ok(BlockID(hash, node, round))
  {
    ZeroAt(a, b + ([0] + hash));
    ZeroAt(b, hash);
    hide FirstZero, Number;
  }

  lemma IdRoundTrip(id: BlockID)
    requires Fits(id)
    ensures DecodeId(IdBytes(id)) == Ok(id)
  {
    hide Encoded, Decode, DecodeId;
    NoZero(id.node);
    NoZero(id.round);
    RoundTrip(id.node);
    RoundTrip(id.round);
    DecodeParts(Encoded(id.node), Encoded(id.round), id.hash, id.node, id.round);
  }

  /** The first zero from `start` on. */
  method FindZero(d: Bytes, start: nat) returns (i: nat)
    requires start <= |d|
    ensures start <= i <= |d| && i == start + FirstZero(d[start..])
  {
    i := start;
    while i < |d| && d[i] != 0
      invariant start <= i <= |d| && FirstZero(d[start..]) == i - start + FirstZero(d[i..])
    {
      assert d[i..][1..] == d[i + 1..];
      i := i + 1;
    }
  }

  /** Looks for the two separators. */
  method DecodeBlockId(d: Bytes) returns (r: Result<BlockID>)
    ensures r == DecodeId(d)
  {
    hide FirstZero, Decode;
    assert d[0..] == d;
    var i := FindZero(d, 0);
    if i == |d| { return Ok(NO_BLOCK); }
    var node := DecodeBytes(d[..i]);
    if !node.Value? { return Err(node); }
    var start := i + 1;
    ghost var rest := d[start..];
    i := FindZero(d, start);
    if i == |d| { return Ok(BlockID([], node.v, 0)); }
    assert rest[..i - start] == d[start..i] && rest[i - start + 1..] == d[i + 1..];
    var round := DecodeBytes(d[start..i]);
    if !round.Value? { return Err(round); }
    r := Ok(BlockID(d[i + 1..], node.v, round.v));
  }
}

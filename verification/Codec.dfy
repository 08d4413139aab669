/** Block graphs as stored in the database: encoded, and read back. */
module Codec {
  import opened Bytes
  import opened Messages
  import opened Delivery
  import opened Lexinum
  import opened Keys

  // ---------------------------------------------------------------------------
  // Encoding. Lengths take two bytes and counts four, as far as those reach.

  function U16(n: nat): Bytes {
    [n % 256, n / 256 % 256]
  }

  function U32(n: nat): Bytes {
    U16(n) + U16(n / 65536)
  }

  function IdField(id: BlockID): Bytes
    requires Fits(id)
  {
    U16(|IdBytes(id)|) + IdBytes(id)
  }

  /** A link that is not valid leaves only a length of zero. */
  function PrevField(prev: BlockID): Bytes
    requires Fits(prev)
  {
    if prev.Valid() then IdField(prev) else [0, 0]
  }

  predicate AllFit(ids: seq<BlockID>) {
    forall id | id in ids :: Fits(id)
  }

  function LinksField(links: seq<BlockID>): Bytes
    requires AllFit(links)
  {
    if links == [] then [] else IdField(links[0]) + LinksField(links[1..])
  }

  predicate DepFits(dep: Dep) {
    Fits(dep.block) && Fits(dep.prev) && AllFit(dep.deps)
  }

  function DepField(dep: Dep): Bytes
    requires DepFits(dep)
  {
    IdField(dep.block) + (PrevField(dep.prev) + (U32(|dep.deps|) + LinksField(dep.deps)))
  }

  function DepsField(deps: seq<Dep>): Bytes
    requires forall dep | dep in deps :: DepFits(dep)
  {
    if deps == [] then [] else DepField(deps[0]) + DepsField(deps[1..])
  }

  predicate GraphFits(g: BlockGraph) {
    Fits(g.block) && Fits(g.prev) && forall dep | dep in g.deps :: DepFits(dep)
  }

  function GraphBytes(g: BlockGraph): Bytes
    requires GraphFits(g)
  {
    PrevField(g.prev) + (U32(|g.deps|) + DepsField(g.deps))
  }

  // ---------------------------------------------------------------------------
  // Reading. Anything cut short is an access out of range, which panics.

  datatype Parsed<T> = Parsed(value: T, rest: Bytes) | Failed(error: Decoded)

  function N16(low: byte, high: byte): nat {
    low as nat + 256 * (high as nat)
  }

  function ReadId(d: Bytes): Parsed<BlockID> {
    if |d| < 2 then Failed(Panic)
    else
      var k := N16(d[0], d[1]);
      if |d| < 2 + k then Failed(Panic)
      else
        match DecodeId(d[2..2 + k])
        case Ok(id) => Parsed(id, d[2 + k..])
        case Err(e) => Failed(e)
  }

  function ReadPrev(d: Bytes): Parsed<BlockID> {
    if |d| >= 2 && d[0] == 0 && d[1] == 0 then Parsed(NO_BLOCK, d[2..]) else ReadId(d)
  }

  function ReadCount(d: Bytes): Parsed<nat> {
    if |d| < 4 then Failed(Panic) else Parsed(N16(d[0], d[1]) + 65536 * N16(d[2], d[3]), d[4..])
  }

  function ReadLinks(n: nat, d: Bytes): Parsed<seq<BlockID>> {
    if n == 0 then Parsed([], d)
    else
      var first := ReadId(d);
      if first.Failed? then Failed(first.error)
      else
        var more := ReadLinks(n - 1, first.rest);
        if more.Failed? then Failed(more.error) else Parsed([first.value] + more.value, more.rest)
  }

  function ReadDep(d: Bytes): Parsed<Dep> {
    var block := ReadId(d);
    if block.Failed? then Failed(block.error)
    else
      var prev := ReadPrev(block.rest);
      if prev.Failed? then Failed(prev.error)
      else
        var count := ReadCount(prev.rest);
        if count.Failed? then Failed(count.error)
        else
          var links := ReadLinks(count.value, count.rest);
          if links.Failed? then Failed(links.error) else Parsed(Dep(block.value, links.value, prev.value), links.rest)
  }

  function ReadDeps(n: nat, d: Bytes): Parsed<seq<Dep>> {
    if n == 0 then Parsed([], d)
    else
      var first := ReadDep(d);
      if first.Failed? then Failed(first.error)
      else
        var more := ReadDeps(n - 1, first.rest);
        if more.Failed? then Failed(more.error) else Parsed([first.value] + more.value, more.rest)
  }

  function ReadGraph(block: BlockID, d: Bytes): Parsed<BlockGraph> {
    var prev := ReadPrev(d);
    if prev.Failed? then Failed(prev.error)
    else
      var count := ReadCount(prev.rest);
      if count.Failed? then Failed(count.error)
      else
        var deps := ReadDeps(count.value, count.rest);
        if deps.Failed? then Failed(deps.error) else Parsed(BlockGraph(block, deps.value, prev.value), deps.rest)
  }

  // ---------------------------------------------------------------------------
  // Round trips.

  /** Short enough for its length field. */
  predicate Short(id: BlockID) {
    Fits(id) && |IdBytes(id)| < 65536
  }

  lemma Low16(n: nat)
    ensures N16(n % 256, n / 256 % 256) == n % 65536
  {
    var q := n / 256;
    assert n == 256 * q + n % 256 && q == 256 * (q / 256) + q % 256;
    assert n == 65536 * (q / 256) + (256 * (q % 256) + n % 256);
  }

  /** What a length field says is read next. */
  lemma ReadField(b: Bytes, t: Bytes)
    requires |b| < 65536
    ensures ReadId(U16(|b|) + (b + t)) == match DecodeId(b) case Ok(id) => Parsed(id, t) case Err(e) => Failed(e)
  {
    hide DecodeId;
    var n := |b|;
    var d := U16(n) + (b + t);
    Low16(n);
    assert n % 65536 == n;
    hide N16;
    assert d[0] == n % 256 && d[1] == n / 256 % 256 && d[2..] == b + t;
    assert d[2..2 + n] == d[2..][..n] == b && d[2 + n..] == d[2..][n..] == t;
  }

  lemma ReadBackId(id: BlockID, t: Bytes)
    requires Short(id)
    ensures ReadId(IdField(id) + t) == Parsed(id, t)
  {
    hide DecodeId, IdBytes, ReadId, U16;
    IdRoundTrip(id);
    var b := IdBytes(id);
    assert IdField(id) == U16(|b|) + b;
    hide IdField;
    ReadField(b, t);
    assert (U16(|b|) + b) + t == U16(|b|) + (b + t);
  }

  lemma IdNotEmpty(id: BlockID)
    requires Fits(id)
    ensures |IdBytes(id)| >= 2
  {
  }

  /** Whether a link survives depends on it being valid or zero. */
  function Kept(prev: BlockID): BlockID {
    if prev.Valid() then prev else NO_BLOCK
  }

  lemma ReadBackPrev(prev: BlockID, t: Bytes)
    requires Short(prev)
    ensures ReadPrev(PrevField(prev) + t) == Parsed(Kept(prev), t)
  {
    if prev.Valid() {
      IdNotEmpty(prev);
      ReadBackId(prev, t);
      var n := |IdBytes(prev)|;
      hide IdBytes, ReadId;
      var d := PrevField(prev) + t;
      assert d[0] == n % 256 && d[1] == n / 256 % 256;
    } else {
      assert ([0, 0] + t)[2..] == t;
    }
  }

  lemma ReadBackCount(n: nat, t: Bytes)
    requires n < 0x1_0000_0000
    ensures ReadCount(U32(n) + t) == Parsed(n, t)
  {
    var d := U32(n) + t;
    var hi := n / 65536;
    Low16(n);
    Low16(hi);
    assert hi % 65536 == hi;
    hide N16;
    assert d[0] == n % 256 && d[1] == n / 256 % 256 && d[2] == hi % 256 && d[3] == hi / 256 % 256;
    assert d[4..] == t;
  }

  predicate AllShort(ids: seq<BlockID>) {
    |ids| < 0x1_0000_0000 && AllFit(ids) && forall id | id in ids :: Short(id)
  }

  lemma {:induction false} ReadBackLinks(links: seq<BlockID>, t: Bytes)
    requires AllFit(links) && forall id | id in links :: Short(id)
    ensures ReadLinks(|links|, LinksField(links) + t) == Parsed(links, t)
  {
    hide ReadId, IdField, Short, Fits;
    if links == [] {
      assert LinksField(links) + t == t;
    } else {
      ReadBackId(links[0], LinksField(links[1..]) + t);
      ReadBackLinks(links[1..], t);
      assert LinksField(links) + t == IdField(links[0]) + (LinksField(links[1..]) + t);
      assert links == [links[0]] + links[1..];
    }
  }

  predicate DepShort(dep: Dep) {
    Short(dep.block) && Short(dep.prev) && AllShort(dep.deps)
  }

  function KeptDep(dep: Dep): Dep {
    dep.(prev := Kept(dep.prev))
  }

  lemma ReadBackDep(dep: Dep, t: Bytes)
    requires DepShort(dep)
    ensures ReadDep(DepField(dep) + t) == Parsed(KeptDep(dep), t)
  {
    hide IdField, PrevField, U32, LinksField, ReadId, ReadPrev, ReadCount, ReadLinks;
    var links := LinksField(dep.deps) + t;
    var count := U32(|dep.deps|) + links;
    var prev := PrevField(dep.prev) + count;
    assert DepField(dep) + t == IdField(dep.block) + prev;
    ReadBackId(dep.block, prev);
    ReadBackPrev(dep.prev, count);
    ReadBackCount(|dep.deps|, links);
    ReadBackLinks(dep.deps, t);
  }

  function KeptDeps(deps: seq<Dep>): seq<Dep> {
    seq(|deps|, i requires 0 <= i < |deps| => KeptDep(deps[i]))
  }

  lemma {:induction false} ReadBackDeps(deps: seq<Dep>, t: Bytes)
    requires (forall dep | dep in deps :: DepFits(dep)) && forall dep | dep in deps :: DepShort(dep)
    ensures ReadDeps(|deps|, DepsField(deps) + t) == Parsed(KeptDeps(deps), t)
  {
    hide ReadDep, DepField, DepShort, KeptDep, DepFits;
    if deps == [] {
      assert DepsField(deps) + t == t;
    } else {
      ReadBackDep(deps[0], DepsField(deps[1..]) + t);
      ReadBackDeps(deps[1..], t);
      assert DepsField(deps) + t == DepField(deps[0]) + (DepsField(deps[1..]) + t);
      assert KeptDeps(deps) == [KeptDep(deps[0])] + KeptDeps(deps[1..]);
    }
  }

  predicate GraphShort(g: BlockGraph) {
    Short(g.block) && Short(g.prev) && |g.deps| < 0x1_0000_0000 && GraphFits(g) && forall dep | dep in g.deps :: DepShort(dep)
  }

  /** Reading back gives the graph, but for links that were neither valid nor zero. */
  lemma GraphReadBack(g: BlockGraph)
    requires GraphShort(g)
    ensures ReadGraph(g.block, GraphBytes(g)) == Parsed(BlockGraph(g.block, KeptDeps(g.deps), Kept(g.prev)), [])
  {
    var deps := DepsField(g.deps) + [];
    assert deps == DepsField(g.deps);
    ReadBackPrev(g.prev, U32(|g.deps|) + deps);
    ReadBackCount(|g.deps|, deps);
    ReadBackDeps(g.deps, []);
  }

  predicate CleanLink(prev: BlockID) {
    prev.Valid() || prev == NO_BLOCK
  }

  predicate Clean(g: BlockGraph) {
    CleanLink(g.prev) && forall dep | dep in g.deps :: CleanLink(dep.prev)
  }

  lemma KeptIfClean(g: BlockGraph)
    ensures BlockGraph(g.block, KeptDeps(g.deps), Kept(g.prev)) == g <==> Clean(g)
  {
    if Clean(g) {
      assert KeptDeps(g.deps) == g.deps;
    } else if KeptDeps(g.deps) == g.deps {
      forall dep | dep in g.deps ensures CleanLink(dep.prev) {
        var i :| 0 <= i < |g.deps| && g.deps[i] == dep;
        assert KeptDeps(g.deps)[i] == KeptDep(dep);
      }
    }
  }

  /** A stored block graph is read back as it was exactly when each link to a
      previous block is valid or zero. */
  lemma GraphRoundTrip(g: BlockGraph)
    requires GraphShort(g)
    ensures DecodeId(IdBytes(g.block)) == Ok(g.block)
    ensures ReadGraph(g.block, GraphBytes(g)) == Parsed(g, []) <==> Clean(g)
  {
    assert Fits(g.block);
    hide *;
    IdRoundTrip(g.block);
    GraphReadBack(g);
    KeptIfClean(g);
  }

  // ---------------------------------------------------------------------------
  // The loops.

  method EncodeId(id: BlockID) returns (out: Bytes)
    requires Fits(id)
    ensures out == IdBytes(id)
  {
    var node := Encode(id.node);
    var round := Encode(id.round);
    out := node + [0] + round + [0] + id.hash;
    assert out == node + ([0] + (round + ([0] + id.hash)));
  }

  method AppendId(out0: Bytes, id: BlockID) returns (out: Bytes)
    requires Fits(id)
    ensures out == out0 + IdField(id)
  {
    var b := EncodeId(id);
    out := out0 + U16(|b|) + b;
    assert out == out0 + (U16(|b|) + b);
  }

  method AppendPrev(out0: Bytes, prev: BlockID) returns (out: Bytes)
    requires Fits(prev)
    ensures out == out0 + PrevField(prev)
  {
    if prev.Valid() {
      out := AppendId(out0, prev);
    } else {
      out := out0 + [0, 0];
    }
  }

  lemma LinksFrom(links: seq<BlockID>, j: nat, out: Bytes)
    requires AllFit(links) && j < |links|
    ensures out + LinksField(links[j..]) == (out + IdField(links[j])) + LinksField(links[j + 1..])
  {
    hide IdField, Fits;
    assert links[j..][0] == links[j] && links[j..][1..] == links[j + 1..];
  }

  method AppendLinks(out0: Bytes, links: seq<BlockID>) returns (out: Bytes)
    requires AllFit(links)
    ensures out == out0 + LinksField(links)
  {
    hide IdField, Fits;
    out := out0;
    var j := 0;
    assert links[0..] == links;
    while j < |links|
      invariant j <= |links| && out + LinksField(links[j..]) == out0 + LinksField(links)
    {
      LinksFrom(links, j, out);
      out := AppendId(out, links[j]);
      j := j + 1;
    }
    assert out + [] == out;
  }

  method AppendDep(out0: Bytes, dep: Dep) returns (out: Bytes)
    requires DepFits(dep)
    ensures out == out0 + DepField(dep)
  {
    hide LinksField, IdField, PrevField, U32;
    out := AppendId(out0, dep.block);
    out := AppendPrev(out, dep.prev);
    out := out + U32(|dep.deps|);
    out := AppendLinks(out, dep.deps);
    assert out == out0 + (IdField(dep.block) + (PrevField(dep.prev) + (U32(|dep.deps|) + LinksField(dep.deps))));
  }

  method EncodeBlockGraph(g: BlockGraph) returns (out: Bytes)
    requires GraphFits(g)
    ensures out == GraphBytes(g)
  {
    hide DepField, PrevField, U32;
    out := AppendPrev([], g.prev);
    out := out + U32(|g.deps|);
    assert out + DepsField(g.deps) == GraphBytes(g);
    var i := 0;
    assert g.deps[0..] == g.deps;
    while i < |g.deps|
      invariant i <= |g.deps| && out + DepsField(g.deps[i..]) == GraphBytes(g)
    {
      var rest := g.deps[i..];
      assert rest[0] == g.deps[i] && rest[1..] == g.deps[i + 1..];
      assert out + DepsField(rest) == (out + DepField(g.deps[i])) + DepsField(g.deps[i + 1..]);
      out := AppendDep(out, g.deps[i]);
      i := i + 1;
    }
    assert out + [] == out;
  }

  /** An id at `idx`, and where the bytes after it start. */
  method IdAt(d: Bytes, idx: nat) returns (r: Result<BlockID>, idx': nat)
    requires idx <= |d|
    ensures idx' <= |d|
    ensures ReadId(d[idx..]) == if r.Ok? then Parsed(r.value, d[idx'..]) else Failed(r.error)
  {
    idx' := idx;
    if |d| < idx + 2 { return Err(Panic), idx; }
    var k := N16(d[idx], d[idx + 1]);
    if |d| < idx + 2 + k { return Err(Panic), idx; }
    assert d[idx..][2..2 + k] == d[idx + 2..idx + 2 + k] && d[idx..][2 + k..] == d[idx + 2 + k..];
    var id := DecodeBlockId(d[idx + 2..idx + 2 + k]);
    if id.Err? { return Err(id.error), idx; }
    return Ok(id.value), idx + 2 + k;
  }

  method PrevAt(d: Bytes, idx: nat) returns (r: Result<BlockID>, idx': nat)
    requires idx <= |d|
    ensures idx' <= |d|
    ensures ReadPrev(d[idx..]) == if r.Ok? then Parsed(r.value, d[idx'..]) else Failed(r.error)
  {
    if idx + 2 <= |d| && N16(d[idx], d[idx + 1]) == 0 {
      assert d[idx..][2..] == d[idx + 2..];
      return Ok(NO_BLOCK), idx + 2;
    }
    r, idx' := IdAt(d, idx);
  }

  method CountAt(d: Bytes, idx: nat) returns (r: Result<nat>, idx': nat)
    requires idx <= |d|
    ensures idx' <= |d|
    ensures ReadCount(d[idx..]) == if r.Ok? then Parsed(r.value, d[idx'..]) else Failed(r.error)
  {
    if |d| < idx + 4 { return Err(Panic), idx; }
    assert d[idx..][4..] == d[idx + 4..];
    return Ok(N16(d[idx], d[idx + 1]) + 65536 * N16(d[idx + 2], d[idx + 3])), idx + 4;
  }

  /** A list that was begun with `first`. */
  function After<T>(first: seq<T>, more: Parsed<seq<T>>): Parsed<seq<T>> {
    if more.Failed? then Failed(more.error) else Parsed(first + more.value, more.rest)
  }

  lemma LinksMore(n: nat, d: Bytes)
    requires n > 0
    ensures var first := ReadId(d);
            ReadLinks(n, d) == if first.Failed? then Failed(first.error) else After([first.value], ReadLinks(n - 1, first.rest))
  {
  }

  method LinksAt(d: Bytes, idx0: nat, n: nat) returns (r: Result<seq<BlockID>>, idx: nat)
    requires idx0 <= |d|
    ensures idx <= |d|
    ensures ReadLinks(n, d[idx0..]) == if r.Ok? then Parsed(r.value, d[idx..]) else Failed(r.error)
  {
    hide ReadId;
    idx := idx0;
    var links := [];
    var j := 0;
    AfterNone(ReadLinks(n, d[idx0..]));
    while j < n
      invariant j <= n && idx <= |d| && ReadLinks(n, d[idx0..]) == After(links, ReadLinks(n - j, d[idx..]))
    {
      var link;
      LinksMore(n - j, d[idx..]);
      hide ReadLinks;
      link, idx := IdAt(d, idx);
      if link.Err? { return Err(link.error), idx; }
      AfterTwice(links, [link.value], ReadLinks(n - j - 1, d[idx..]));
      links := links + [link.value];
      j := j + 1;
    }
    assert links + [] == links;
    r := Ok(links);
  }

  lemma AfterNone<T>(more: Parsed<seq<T>>)
    ensures After([], more) == more
  {
    if more.Parsed? { assert [] + more.value == more.value; }
  }

  lemma AfterTwice<T>(a: seq<T>, b: seq<T>, more: Parsed<seq<T>>)
    ensures After(a, After(b, more)) == After(a + b, more)
  {
    if more.Parsed? { assert a + (b + more.value) == a + b + more.value; }
  }

  method DepAt(d: Bytes, idx0: nat) returns (r: Result<Dep>, idx: nat)
    requires idx0 <= |d|
    ensures idx <= |d|
    ensures ReadDep(d[idx0..]) == if r.Ok? then Parsed(r.value, d[idx..]) else Failed(r.error)
  {
    hide ReadId, ReadPrev, ReadCount, ReadLinks;
    var block, prev, count, links;
    block, idx := IdAt(d, idx0);
    if block.Err? { return Err(block.error), idx; }
    prev, idx := PrevAt(d, idx);
    if prev.Err? { return Err(prev.error), idx; }
    count, idx := CountAt(d, idx);
    if count.Err? { return Err(count.error), idx; }
    links, idx := LinksAt(d, idx, count.value);
    if links.Err? { return Err(links.error), idx; }
    r := Ok(Dep(block.value, links.value, prev.value));
  }

  /** The part of `getBlockGraphs` that reads one value. */
  method DecodeBlockGraph(block: BlockID, d: Bytes) returns (r: Result<BlockGraph>)
    ensures r == match ReadGraph(block, d) case Parsed(g, _) => Ok(g) case Failed(e) => Err(e)
  {
    hide ReadPrev, ReadCount, ReadDep;
    assert d[0..] == d;
    var prev, idx := PrevAt(d, 0);
    if prev.Err? { return Err(prev.error); }
    var count;
    count, idx := CountAt(d, idx);
    if count.Err? { return Err(count.error); }
    var n, deps, i := count.value, [], 0;
    ghost var start := d[idx..];
    AfterNone(ReadDeps(n, start));
    while i < n
      invariant i <= n && idx <= |d| && ReadDeps(n, start) == After(deps, ReadDeps(n - i, d[idx..]))
    {
      var dep;
      ghost var before := d[idx..];
      dep, idx := DepAt(d, idx);
      if dep.Err? { return Err(dep.error); }
      assert ReadDeps(n - i, before) == After([dep.value], ReadDeps(n - i - 1, d[idx..]));
      AfterTwice(deps, [dep.value], ReadDeps(n - i - 1, d[idx..]));
      deps := deps + [dep.value];
      i := i + 1;
    }
    assert deps + [] == deps;
    r := Ok(BlockGraph(block, deps, prev.value));
  }
}

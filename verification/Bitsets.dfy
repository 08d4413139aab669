/** The vote sets as words of 64 bits, and why counting bits counts voters. */
module Bitsets {
  import opened Messages
  import opened Protocol

  type Word = w: nat | w < 0x1_0000_0000_0000_0000

  function Pow2(k: nat): nat {
    if k == 0 then 1 else 2 * Pow2(k - 1)
  }

  predicate Bit(w: nat, k: nat) {
    if k == 0 then w % 2 == 1 else Bit(w / 2, k - 1)
  }

  function Or(a: nat, b: nat): nat {
    if a == 0 && b == 0 then 0 else 2 * Or(a / 2, b / 2) + if a % 2 == 1 || b % 2 == 1 then 1 else 0
  }

  function And(a: nat, b: nat): nat {
    if a == 0 || b == 0 then 0 else 2 * And(a / 2, b / 2) + if a % 2 == 1 && b % 2 == 1 then 1 else 0
  }

  /** The number of one bits of a word. */
  function OnesCount(w: nat): nat {
    if w == 0 then 0 else w % 2 + OnesCount(w / 2)
  }

  // ---------------------------------------------------------------------------
  // Single words.

  lemma {:induction false} ZeroBits(k: nat)
    ensures !Bit(0, k)
  {
    if k > 0 { ZeroBits(k - 1); }
  }

  lemma {:induction false} OrBits(a: nat, b: nat, k: nat)
    ensures Bit(Or(a, b), k) <==> Bit(a, k) || Bit(b, k)
    decreases k
  {
    if a == 0 && b == 0 {
      ZeroBits(k);
    } else {
      var rest, low := Or(a / 2, b / 2), if a % 2 == 1 || b % 2 == 1 then 1 else 0;
      assert Or(a, b) == 2 * rest + low;
      hide Or;
      assert (2 * rest + low) / 2 == rest && (2 * rest + low) % 2 == low;
      if k > 0 { OrBits(a / 2, b / 2, k - 1); }
    }
  }

  lemma {:induction false} MaskBits(k: nat, j: nat)
    ensures Bit(Pow2(k), j) <==> j == k
  {
    if k == 0 {
      if j > 0 { ZeroBits(j - 1); }
    } else if j > 0 {
      assert Pow2(k) / 2 == Pow2(k - 1);
      MaskBits(k - 1, j - 1);
    }
  }

  lemma {:induction false} PowGrows(k: nat, n: nat)
    requires k <= n
    ensures 0 < Pow2(k) <= Pow2(n)
  {
    if k < n { PowGrows(k, n - 1); } else if k > 0 { PowGrows(k - 1, k - 1); }
  }

  lemma {:induction false} AndMask(w: nat, k: nat)
    ensures And(w, Pow2(k)) != 0 <==> Bit(w, k)
    decreases k
  {
    if w == 0 {
      ZeroBits(k);
    } else if k > 0 {
      PowGrows(k, k);
      assert Pow2(k) / 2 == Pow2(k - 1) && Pow2(k) % 2 == 0;
      AndMask(w / 2, k - 1);
    } else {
      assert And(w / 2, 0) == 0;
    }
  }

  lemma {:induction false} OrFits(a: nat, b: nat, n: nat)
    requires a < Pow2(n) && b < Pow2(n)
    ensures Or(a, b) < Pow2(n)
    decreases n
  {
    if n > 0 { OrFits(a / 2, b / 2, n - 1); }
  }

  lemma WordLimit()
    ensures Pow2(64) == 0x1_0000_0000_0000_0000
  {
    assert Pow2(8) == 256 by { PowSplit(4, 4); }
    assert Pow2(16) == 0x1_0000 by { PowSplit(8, 8); }
    assert Pow2(32) == 0x1_0000_0000 by { PowSplit(16, 16); }
    PowSplit(32, 32);
  }

  lemma Regroup(x: nat, y: nat)
    ensures 2 * (x * y) == 2 * x * y
  {
  }

  lemma {:induction false} PowSplit(a: nat, b: nat)
    ensures Pow2(a + b) == Pow2(a) * Pow2(b)
  {
    if a > 0 {
      PowSplit(a - 1, b);
      assert Pow2(a + b) == 2 * Pow2(a - 1 + b) && Pow2(a) == 2 * Pow2(a - 1);
      hide Pow2;
      Regroup(Pow2(a - 1), Pow2(b));
    }
  }

  /** Setting a bit stays within the word. */
  lemma SetFits(w: Word, k: nat)
    requires k < 64
    ensures Or(w, Pow2(k)) < 0x1_0000_0000_0000_0000
  {
    WordLimit();
    PowGrows(k, 63);
    OrFits(w, Pow2(k), 64);
  }

  // ---------------------------------------------------------------------------
  // Counting.

  /** The positions below `n` of the one bits of `w`, moved up by `from`. */
  function Positions(w: nat, n: nat, from: nat): set<nat> {
    set k | 0 <= k < n && Bit(w, k) :: from + k
  }

  lemma {:induction false} CountBits(w: nat, n: nat, from: nat)
    requires w < Pow2(n)
    ensures |Positions(w, n, from)| == OnesCount(w)
    decreases n
  {
    if n == 0 {
      assert Positions(w, 0, from) == {};
    } else {
      CountBits(w / 2, n - 1, from + 1);
      var rest := Positions(w / 2, n - 1, from + 1);
      var low: set<nat> := if w % 2 == 1 then {from} else {};
      forall v | v in Positions(w, n, from) ensures v in low + rest {
        var k :| 0 <= k < n && Bit(w, k) && v == from + k;
        if k > 0 { assert Bit(w / 2, k - 1) && v == (from + 1) + (k - 1); }
      }
      forall v | v in rest ensures v in Positions(w, n, from) {
        var k :| 0 <= k < n - 1 && Bit(w / 2, k) && v == (from + 1) + k;
        assert Bit(w, k + 1) && v == from + (k + 1);
      }
      assert w % 2 == 1 ==> Bit(w, 0) && from == from + 0;
      assert Positions(w, n, from) == low + rest;
      assert low !! rest;
      if w == 0 { assert OnesCount(w) == OnesCount(w / 2) && low == {}; }
    }
  }

  /** The set that a list of words stands for. */
  function Marked(words: seq<Word>): set<nat> {
    set v | 0 <= v < 64 * |words| && Bit(words[v / 64], v % 64)
  }

  lemma MarkedAppend(words: seq<Word>, w: Word)
    ensures Marked(words + [w]) == Marked(words) + Positions(w, 64, 64 * |words|)
    ensures Marked(words) !! Positions(w, 64, 64 * |words|)
  {
    forall v | v in Marked(words + [w]) ensures v in Marked(words) + Positions(w, 64, 64 * |words|) {
      if v >= 64 * |words| {
        var k := v - 64 * |words|;
        assert v / 64 == |words| && v % 64 == k;
      }
    }
    forall v | v in Positions(w, 64, 64 * |words|) ensures v in Marked(words + [w]) {
      var k :| 0 <= k < 64 && Bit(w, k) && v == 64 * |words| + k;
      assert v / 64 == |words| && v % 64 == k;
    }
  }

  method Count(a: array<Word>) returns (c: nat)
    ensures c == |Marked(a[..])|
  {
    c := 0;
    var i := 0;
    while i < a.Length
      invariant i <= a.Length && c == |Marked(a[..i])|
    {
      assert a[..i + 1] == a[..i] + [a[i]];
      MarkedAppend(a[..i], a[i]);
      WordLimit();
      CountBits(a[i], 64, 64 * i);
      c := c + OnesCount(a[i]);
      i := i + 1;
    }
    assert a[..a.Length] == a[..];
  }

  method Set(a: array<Word>, v: nat) returns (ok: bool)
    modifies a
    ensures ok <==> v < 64 * a.Length
    ensures Marked(a[..]) == old(Marked(a[..])) + if ok then {v} else {}
  {
    if v / 64 >= a.Length { return false; }
    var i, k := v / 64, v % 64;
    SetFits(a[i], k);
    ghost var w := a[i];
    a[i] := Or(a[i], Pow2(k));
    forall u | 0 <= u < 64 * a.Length ensures Bit(a[u / 64], u % 64) <==> u == v || old(Bit(a[u / 64], u % 64)) {
      OrBits(w, Pow2(k), u % 64);
      MaskBits(k, u % 64);
    }
    ok := true;
  }

  method Has(a: array<Word>, v: nat) returns (r: Option<bool>)
    ensures r == if v < 64 * a.Length then Some(v in Marked(a[..])) else None
  {
    if v / 64 >= a.Length { return None; }
    AndMask(a[v / 64], v % 64);
    r := Some(And(a[v / 64], Pow2(v % 64)) != 0);
  }

  /** How many ids there is room for, when asked for `size`. */
  function Room(size: nat): nat {
    64 * ((size + 63) / 64)
  }

  /** A vote set that holds ids below its capacity; any other id is a panic. */
  class Bitset {
    const commits: array<Word>
    const prepares: array<Word>

    ghost predicate Valid() {
      commits != prepares && commits.Length == prepares.Length
    }

    ghost function Value(): Votes
      reads commits, prepares
    {
      Votes(Marked(commits[..]), Marked(prepares[..]))
    }

    function Capacity(): nat {
      64 * commits.Length
    }

    constructor (size: nat)
      ensures Valid() && fresh(commits) && fresh(prepares) && Value() == Votes({}, {}) && Capacity() == Room(size)
    {
      var words := (size + 63) / 64;
      commits := new Word[words](_ => 0);
      prepares := new Word[words](_ => 0);
      new;
      forall k ensures !Bit(0, k) { ZeroBits(k); }
    }

    method SetCommit(v: nat) returns (ok: bool)
      requires Valid()
      modifies commits
      ensures ok <==> v < Capacity()
      ensures Value() == old(Value()).(commits := old(Value()).commits + if ok then {v} else {})
    {
      ok := Set(commits, v);
    }

    method SetPrepare(v: nat) returns (ok: bool)
      requires Valid()
      modifies prepares
      ensures ok <==> v < Capacity()
      ensures Value() == old(Value()).(prepares := old(Value()).prepares + if ok then {v} else {})
    {
      ok := Set(prepares, v);
    }

    method HasCommit(v: nat) returns (r: Option<bool>)
      requires Valid()
      ensures r == if v < Capacity() then Some(v in Value().commits) else None
    {
      r := Has(commits, v);
    }

    method CommitCount() returns (c: nat)
      ensures c == |Value().commits|
    {
      c := Count(commits);
    }

    method PrepareCount() returns (c: nat)
      ensures c == |Value().prepares|
    {
      c := Count(prepares);
    }

    /** A clone holds the same votes and shares no words. */
    constructor Clone(b: Bitset)
      requires b.Valid()
      ensures Valid() && fresh(commits) && fresh(prepares) && Value() == b.Value() && Capacity() == b.Capacity()
    {
      commits := new Word[b.commits.Length](i requires 0 <= i < b.commits.Length reads b.commits => b.commits[i]);
      prepares := new Word[b.prepares.Length](i requires 0 <= i < b.prepares.Length reads b.prepares => b.prepares[i]);
      new;
      assert commits[..] == b.commits[..] && prepares[..] == b.prepares[..];
    }
  }
}

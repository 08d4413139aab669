/** An encoding of 64-bit numbers whose byte order is their numeric order. */
module Lexinum {
  import opened Bytes

  const LIMIT: nat := 0x1_0000_0000_0000_0000

  type uint64 = v: nat | v < LIMIT

  const MAX_SMALL: nat := 8258175

  // ---------------------------------------------------------------------------
  // Powers.

  function Power(a: nat, b: nat): nat {
    if b == 0 then 1 else a * Power(a, b - 1)
  }

  lemma {:induction false} PowerSquare(a: nat, b: nat)
    ensures Power(a * a, b) == Power(a, 2 * b)
  {
    if b > 0 {
      PowerSquare(a, b - 1);
      assert Power(a, 2 * b) == a * Power(a, 2 * b - 1) == a * (a * Power(a, 2 * b - 2));
      assert a * (a * Power(a, 2 * b - 2)) == (a * a) * Power(a, 2 * b - 2);
    }
  }

  lemma ModMul(x: nat, y: nat)
    ensures (x % LIMIT) * y % LIMIT == x * y % LIMIT
  {
    var q := x / LIMIT;
    assert x == q * LIMIT + x % LIMIT;
    assert x * y == (q * y) * LIMIT + (x % LIMIT) * y by {
      assert (q * LIMIT + x % LIMIT) * y == q * LIMIT * y + (x % LIMIT) * y;
      assert q * LIMIT * y == (q * y) * LIMIT;
    }
    ModAdd((x % LIMIT) * y, q * y);
  }

  lemma ModAdd(x: nat, k: nat)
    ensures (k * LIMIT + x) % LIMIT == x % LIMIT
  {
    var y := k * LIMIT + x;
    var d := y / LIMIT - x / LIMIT - k;
    assert y == (y / LIMIT) * LIMIT + y % LIMIT && x == (x / LIMIT) * LIMIT + x % LIMIT;
    assert d * LIMIT == x % LIMIT - y % LIMIT;
  }

  lemma {:induction false} PowerMod(a: nat, b: nat)
    ensures Power(a % LIMIT, b) % LIMIT == Power(a, b) % LIMIT
  {
    if b > 0 {
      PowerMod(a, b - 1);
      var p := Power(a % LIMIT, b - 1);
      ModMul(a, p);
      assert (a % LIMIT) * p % LIMIT == a * p % LIMIT;
      ModMul(p, a);
      ModMul(Power(a, b - 1), a);
      assert a * p == p * a && a * Power(a, b - 1) == Power(a, b - 1) * a;
    }
  }

  /** The loop multiplies and squares modulo 2^64, so the squares may wrap. */
  method Pow(a0: uint64, b0: uint64) returns (n: uint64)
    ensures n == Power(a0, b0) % LIMIT
  {
    n := 1;
    var a: uint64, b: uint64 := a0, b0;
    assert 1 * Power(a, b) == Power(a, b);
    while b > 0
      invariant n * Power(a, b) % LIMIT == Power(a0, b0) % LIMIT
    {
      Halve(n, a, b);
      if b % 2 != 0 { n := n * a % LIMIT; }
      b := b / 2;
      a := a * a % LIMIT;
    }
    assert n * Power(a, 0) == n;
  }

  /** One turn of the loop keeps the product. */
  lemma Halve(n: uint64, a: uint64, b: uint64)
    requires b > 0
    ensures var n' := if b % 2 != 0 then n * a % LIMIT else n;
            n' * Power(a * a % LIMIT, b / 2) % LIMIT == n * Power(a, b) % LIMIT
  {
    var exact := Power(a * a, b / 2);
    PowerMod(a * a, b / 2);
    PowerSquare(a, b / 2);
    if b % 2 == 0 {
      hide Power;
      MulMod(n, Power(a * a % LIMIT, b / 2), exact);
    } else {
      assert Power(a, b) == a * Power(a, b - 1);
      hide Power;
      assert b - 1 == 2 * (b / 2);
      MulMod(n * a % LIMIT, Power(a * a % LIMIT, b / 2), exact);
      ModMul(n * a, exact);
      Regroup(n, a, exact);
    }
  }

  lemma Regroup(x: nat, y: nat, z: nat)
    ensures x * y * z == x * (y * z)
  {
  }

  lemma MulMod(n: nat, x: nat, y: nat)
    requires x % LIMIT == y % LIMIT
    ensures n * x % LIMIT == n * y % LIMIT
  {
    ModMul(x, n);
    ModMul(y, n);
    assert n * x == x * n && n * y == y * n;
  }

  // ---------------------------------------------------------------------------
  // The encoding.

  /** The digits of `x` to base 253, most significant first, each plus two. */
  function Digits(x: nat): Bytes {
    if x == 0 then [] else Digits(x / 253) + [x % 253 + 2]
  }

  function DigitCount(x: nat): nat {
    if |Digits(x)| == 0 then 1 else |Digits(x)|
  }

  function SmallBytes(v: nat): Bytes
    requires v < MAX_SMALL
  {
    [128 + v / 65025, v / 255 % 255 + 1, v % 255 + 1]
  }

  function BigBytes(w: nat): Bytes
    requires w < LIMIT
  {
    DigitBound(w / 255);
    [255, DigitCount(w / 255) + 1] + Digits(w / 255) + if w % 255 > 0 then [1, w % 255] else []
  }

  function Encoded(v: uint64): Bytes {
    if v < MAX_SMALL then SmallBytes(v) else BigBytes(v - MAX_SMALL)
  }

  lemma {:induction false} PowerPositive(n: nat)
    ensures Power(253, n) > 0
  {
    if n > 0 { PowerPositive(n - 1); }
  }

  lemma {:induction false} DigitsBelow(x: nat, n: nat)
    ensures |Digits(x)| <= n <==> x < Power(253, n)
    decreases n
  {
    PowerPositive(n);
    if n > 0 && x > 0 {
      DigitsBelow(x / 253, n - 1);
      var p := Power(253, n - 1);
      assert x / 253 < p <==> x < 253 * p;
    }
  }

  lemma Powers()
    ensures Power(253, 8) < LIMIT && LIMIT / 255 < Power(253, 8)
  {
    assert Power(253, 1) == 253;
    assert Power(253, 2) == 64009;
    assert Power(253, 4) == 253 * Power(253, 3) == 253 * (253 * 64009) == 4097152081;
    assert Power(253, 6) == 253 * Power(253, 5) == 253 * (253 * 4097152081) == 262254607552729;
    assert Power(253, 8) == 253 * Power(253, 7) == 253 * (253 * 262254607552729) == 16786655174842630561;
  }

  lemma DigitBound(lead: nat)
    requires lead <= LIMIT / 255
    ensures DigitCount(lead) <= 8
  {
    Powers();
    DigitsBelow(lead, 8);
  }

  /** No byte of an encoding is zero: zero can separate encodings. */
  lemma NoZero(v: uint64)
    ensures 0 !in Encoded(v)
  {
    if v >= MAX_SMALL { DigitsNotSmall((v - MAX_SMALL) / 255); }
  }

  lemma {:induction false} DigitsNotSmall(x: nat)
    ensures forall c | c in Digits(x) :: c >= 2
  {
    if x > 0 { DigitsNotSmall(x / 253); }
  }

  // ---------------------------------------------------------------------------
  // Decoding.

  datatype Decoded = Value(v: uint64) | TooShort | Negative | Panic

  /** A byte less two, as bytes wrap. */
  function Less(c: byte, k: nat): nat
    requires k <= 256
  {
    (c + 256 - k) % 256
  }

  /** The digits read so far are worth `v`; the remainder follows a 0x01. */
  function Read(v: uint64, chars: Bytes): Decoded
    decreases |chars|
  {
    if chars == [] then Value((v * 255 + MAX_SMALL) % LIMIT)
    else if chars[0] == 1 then
      if |chars| == 1 then Panic else Value((v * 255 + chars[1] + MAX_SMALL) % LIMIT)
    else Read((v * 253 + Less(chars[0], 2)) % LIMIT, chars[1..])
  }

  function Decode(d: Bytes): Decoded {
    if |d| < 2 then TooShort
    else if d[0] < 0x80 then Negative
    else if d[0] == 0xff then Read(0, d[2..])
    else if |d| < 3 then TooShort
    else Value(((d[0] - 128) * 255 + Less(d[1], 1)) * 255 + Less(d[2], 1))
  }

  lemma ReadOne(v: uint64, c: byte, tail: Bytes)
    requires c >= 2 && v * 253 + (c - 2) < LIMIT
    ensures Read(v, [c] + tail) == Read(v * 253 + (c - 2), tail)
  {
    assert ([c] + tail)[1..] == tail;
    assert Less(c, 2) == c - 2;
  }

  lemma {:induction false} ReadDigits(x: uint64, tail: Bytes)
    ensures Read(0, Digits(x) + tail) == Read(x, tail)
  {
    hide Read;
    if x == 0 {
      assert Digits(x) + tail == tail;
    } else {
      var c: byte := x % 253 + 2;
      ReadDigits(x / 253, [c] + tail);
      assert Digits(x) + tail == Digits(x / 253) + ([c] + tail);
      ReadOne(x / 253, c, tail);
    }
  }

  lemma SmallRoundTrip(v: nat)
    requires v < MAX_SMALL
    ensures Decode(SmallBytes(v)) == Value(v)
  {
    hide Read;
    var q := v / 255;
    assert v / 65025 == q / 255;
    assert v == q * 255 + v % 255 && q == q / 255 * 255 + q % 255;
  }

  lemma ReadEnd(x: uint64, rem: nat)
    requires rem < 255 && x * 255 + rem + MAX_SMALL < LIMIT
    ensures Read(x, if rem > 0 then [1, rem] else []) == Value(x * 255 + rem + MAX_SMALL)
  {
  }

  lemma BigRoundTrip(w: nat)
    requires w + MAX_SMALL < LIMIT
    ensures Decode(BigBytes(w)) == Value(w + MAX_SMALL)
  {
    hide Read, Digits;
    var tail: Bytes := if w % 255 > 0 then [1, w % 255] else [];
    assert BigBytes(w)[2..] == Digits(w / 255) + tail;
    ReadDigits(w / 255, tail);
    assert w / 255 * 255 + w % 255 == w;
    ReadEnd(w / 255, w % 255);
  }

  /** Every number is read back from its encoding. */
  lemma RoundTrip(v: uint64)
    ensures Decode(Encoded(v)) == Value(v)
  {
    if v < MAX_SMALL { SmallRoundTrip(v); } else { BigRoundTrip(v - MAX_SMALL); }
  }

  // ---------------------------------------------------------------------------
  // Order.

  lemma {:induction false} CommonPrefix(p: Bytes, a: Bytes, b: Bytes)
    ensures LexLess(p + a, p + b) <==> LexLess(a, b)
  {
    if p == [] {
      assert p + a == a && p + b == b;
    } else {
      assert (p + a)[1..] == p[1..] + a && (p + b)[1..] == p[1..] + b;
      CommonPrefix(p[1..], a, b);
    }
  }

  lemma {:induction false} DigitsOrder(x: nat, y: nat, a: Bytes, b: Bytes)
    requires x < y && |Digits(x)| == |Digits(y)|
    ensures LexLess(Digits(x) + a, Digits(y) + b)
    decreases y
  {
    var c: byte, d: byte := x % 253 + 2, y % 253 + 2;
    assert Digits(x) + a == Digits(x / 253) + ([c] + a);
    assert Digits(y) + b == Digits(y / 253) + ([d] + b);
    if x / 253 < y / 253 {
      DigitsOrder(x / 253, y / 253, [c] + a, [d] + b);
    } else {
      assert x / 253 == y / 253 && c < d;
      CommonPrefix(Digits(x / 253), [c] + a, [d] + b);
    }
  }

  lemma DigitsGrow(x: nat, y: nat)
    requires x <= y
    ensures |Digits(x)| <= |Digits(y)|
  {
    DigitsBelow(y, |Digits(y)|);
    DigitsBelow(x, |Digits(y)|);
  }

  /** Two numbers of equally many digits, by their digits and then by what follows. */
  lemma TailOrder(a: nat, b: nat, s: Bytes, t: Bytes)
    requires a < b < LIMIT && DigitCount(a / 255) == DigitCount(b / 255)
    requires s == (if a % 255 > 0 then [1, a % 255] else []) && t == if b % 255 > 0 then [1, b % 255] else []
    ensures LexLess(Digits(a / 255) + s, Digits(b / 255) + t)
  {
    var x, y := a / 255, b / 255;
    DigitBound(x);
    DigitBound(y);
    if x == y {
      CommonPrefix(Digits(x), s, t);
      assert a % 255 < b % 255;
    } else if |Digits(x)| == |Digits(y)| {
      DigitsOrder(x, y, s, t);
    } else {
      assert x == 0 && Digits(x) + s == s;
      DigitsNotSmall(y);
      assert Digits(y)[0] in Digits(y) && (Digits(y) + t)[0] == Digits(y)[0];
    }
  }

  lemma BigOrder(a: nat, b: nat)
    requires a < b < LIMIT
    ensures LexLess(BigBytes(a), BigBytes(b))
  {
    var x, y := a / 255, b / 255;
    var s: Bytes := if a % 255 > 0 then [1, a % 255] else [];
    var t: Bytes := if b % 255 > 0 then [1, b % 255] else [];
    DigitBound(x);
    DigitBound(y);
    DigitsGrow(x, y);
    var m: byte, n: byte := DigitCount(x) + 1, DigitCount(y) + 1;
    assert BigBytes(a) == [255] + ([m] + (Digits(x) + s));
    assert BigBytes(b) == [255] + ([n] + (Digits(y) + t));
    CommonPrefix([255], [m] + (Digits(x) + s), [n] + (Digits(y) + t));
    if m == n {
      CommonPrefix([m], Digits(x) + s, Digits(y) + t);
      TailOrder(a, b, s, t);
    }
  }

  lemma SmallOrder(a: nat, b: nat)
    requires a < b < MAX_SMALL
    ensures LexLess(SmallBytes(a), SmallBytes(b))
  {
    var p, q := SmallBytes(a), SmallBytes(b);
    assert a / 65025 == a / 255 / 255 && b / 65025 == b / 255 / 255;
    if p[0] == q[0] {
      assert p[1..][0] == p[1] && q[1..][0] == q[1];
      if p[1] == q[1] {
        assert p[1..][1..][0] == p[2] && q[1..][1..][0] == q[2];
      }
    }
  }

  /** Numeric order is byte order, and the other way round. */
  lemma OrderEmbedding(a: uint64, b: uint64)
    ensures a < b <==> LexLess(Encoded(a), Encoded(b))
  {
    if a < b {
      Increasing(a, b);
    } else if b < a {
      Increasing(b, a);
      LexAsymmetric(Encoded(b), Encoded(a));
    } else {
      LexIrreflexive(Encoded(a));
    }
  }

  lemma Increasing(a: uint64, b: uint64)
    requires a < b
    ensures LexLess(Encoded(a), Encoded(b))
  {
    if b < MAX_SMALL {
      SmallOrder(a, b);
    } else if a >= MAX_SMALL {
      BigOrder(a - MAX_SMALL, b - MAX_SMALL);
    } else {
      assert Encoded(b)[0] == 255;
    }
  }

  // ---------------------------------------------------------------------------
  // The loops.

  function Reversed(bs: Bytes): Bytes {
    if bs == [] then [] else [bs[|bs| - 1]] + Reversed(bs[..|bs| - 1])
  }

  /** How many digits to base 253 a number has, by trying powers; none of the
      powers that are tried exceeds 64 bits. */
  method CountDigits(lead: uint64) returns (n: uint64)
    requires lead <= LIMIT / 255
    ensures n == DigitCount(lead) <= 8
  {
    hide Power, Digits;
    n := 1;
    PowerFits(n);
    DigitBound(lead);
    var p := Pow(253, n);
    while lead / p > 0
      invariant 1 <= n <= DigitCount(lead) && p == Power(253, n) && p > 0
      decreases 8 - n
    {
      DivPositive(lead, p);
      DigitsBelow(lead, n);
      n := n + 1;
      PowerFits(n);
      p := Pow(253, n);
    }
    DivPositive(lead, p);
    DigitsBelow(lead, n);
  }

  lemma DivPositive(a: nat, b: nat)
    requires b > 0
    ensures a / b > 0 <==> a >= b
  {
    var q := a / b;
    assert a == q * b + a % b;
    if q > 0 { assert q * b == (q - 1) * b + b && (q - 1) * b >= 0; } else { assert q * b == 0; }
  }

  lemma {:induction false} PowerGrows(m: nat, n: nat)
    requires m <= n
    ensures 0 < Power(253, m) <= Power(253, n)
  {
    PowerPositive(m);
    if m < n { PowerGrows(m, n - 1); }
  }

  lemma PowerFits(n: nat)
    requires n <= 8
    ensures 0 < Power(253, n) < LIMIT
  {
    Powers();
    PowerGrows(n, 8);
  }

  method DigitBytes(lead0: uint64) returns (enc: Bytes)
    ensures enc == Digits(lead0)
  {
    var lead, chars: Bytes := lead0, [];
    assert Digits(lead) + Reversed(chars) == Digits(lead);
    while lead > 0
      invariant Digits(lead0) == Digits(lead) + Reversed(chars)
    {
      var c: byte := lead % 253 + 2;
      assert Reversed(chars + [c]) == [c] + Reversed(chars) by { assert (chars + [c])[..|chars|] == chars; }
      assert Digits(lead) + Reversed(chars) == Digits(lead / 253) + ([c] + Reversed(chars));
      lead, chars := lead / 253, chars + [c];
    }
    enc := [];
    var i := |chars|;
    assert chars[..i] == chars;
    while i > 0
      invariant i <= |chars| && enc + Reversed(chars[..i]) == Digits(lead0)
    {
      i := i - 1;
      assert chars[..i + 1][..i] == chars[..i];
      assert enc + Reversed(chars[..i + 1]) == (enc + [chars[i]]) + Reversed(chars[..i]);
      enc := enc + [chars[i]];
    }
  }

  method Encode(v: uint64) returns (enc: Bytes)
    ensures enc == Encoded(v)
  {
    if v == 0 { return [0x80, 0x01, 0x01]; }
    if v < MAX_SMALL {
      assert v / 65025 == v / 255 / 255;
      enc := [0x80, 0x01, 0x01];
      var div, mod := v / 255, v % 255;
      enc := enc[2 := mod + 1];
      if div > 0 {
        mod := div % 255;
        div := div / 255;
        enc := enc[1 := mod + 1];
        if div > 0 { enc := enc[0 := div + 128]; }
      }
      return;
    }
    var w := v - MAX_SMALL;
    var lead, rem := w / 255, w % 255;
    var n := CountDigits(lead);
    var digits := DigitBytes(lead);
    enc := [0xff, n + 1] + digits;
    if rem > 0 { enc := enc + [0x01, rem]; }
  }

  method DecodeBytes(d: Bytes) returns (r: Decoded)
    ensures r == Decode(d)
  {
    if |d| < 2 { return TooShort; }
    if d[0] < 0x80 { return Negative; }
    if d[0] == 0xff {
      var v: uint64 := 0;
      var i := 2;
      while i < |d|
        invariant 2 <= i <= |d| && Read(0, d[2..]) == Read(v, d[i..])
      {
        assert d[i..][0] == d[i] && d[i..][1..] == d[i + 1..];
        if d[i] == 0x01 {
          if i + 1 == |d| { return Panic; }
          assert d[i..][1] == d[i + 1];
          return Value((v * 255 + d[i + 1] + MAX_SMALL) % LIMIT);
        }
        v := (v + (v * 252 + Less(d[i], 2))) % LIMIT;
        i := i + 1;
      }
      return Value((v * 255 + MAX_SMALL) % LIMIT);
    }
    if |d| < 3 { return TooShort; }
    r := Value(((d[0] - 128) * 255 + Less(d[1], 1)) * 255 + Less(d[2], 1));
  }
}

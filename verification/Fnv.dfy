/**
 64-bit FNV-1a (section 2 of draft-eastlake-fnv), its low 48 bits as a state machine of their own, and
 12-digit hexadecimal.
 */
module Fnv {
  import opened Arith

  type Byte = b: int | 0 <= b < 256

  const OFFSET_BASIS: nat := 14695981039346656037
  const PRIME: nat := 1099511628211
  const M64: nat := 0x1_0000_0000_0000_0000
  const M48: nat := 0x1_0000_0000_0000
  // PRIME * PRIME_INVERSE == 1 modulo M48
  const PRIME_INVERSE: nat := 0x5057_AFF6_957B

  function Pow2(k: nat): (r: nat) ensures r >= 1 { if k == 0 then 1 else 2 * Pow2(k - 1) }

  /** Bitwise exclusive or, on naturals of any width. */
  function Xor(x: nat, y: nat): nat
    decreases x + y
  {
    if x == 0 && y == 0 then 0 else (x + y) % 2 + 2 * Xor(x / 2, y / 2)
  }

  function Step(h: nat, b: Byte): nat { (Xor(h, b) * PRIME) % M64 }

  function Sum64From(h: nat, bytes: seq<Byte>): nat
    decreases |bytes|
  {
    if bytes == [] then h else Sum64From(Step(h, bytes[0]), bytes[1..])
  }

  function Sum64(bytes: seq<Byte>): nat { Sum64From(OFFSET_BASIS, bytes) }

  /** hash.Sum64() & 0xffffffffffff */
  function Sum48(bytes: seq<Byte>): (r: nat) ensures r < M48 { Sum64(bytes) % M48 }

  /** The same step carried out on 48 bits only. */
  function Step48(h: nat, b: Byte): (r: nat) ensures r < M48 { (Xor(h, b) * PRIME) % M48 }

  function Sum48From(h: nat, bytes: seq<Byte>): nat
    decreases |bytes|
  {
    if bytes == [] then h else Sum48From(Step48(h, bytes[0]), bytes[1..])
  }

  /** One bit of the exclusive or, and the rest of it. */
  lemma XorBit(x: nat, y: nat)
    ensures Xor(x, y) % 2 == (x + y) % 2 && Xor(x, y) / 2 == Xor(x / 2, y / 2)
  {
    if x != 0 || y != 0 {
      BitAndRest((x + y) % 2, Xor(x / 2, y / 2), Xor(x, y));
    }
  }

  lemma BitAndRest(b: nat, r: nat, z: nat)
    requires b < 2 && z == b + 2 * r
    ensures z % 2 == b && z / 2 == r
  {
  }

  lemma SameHalves(x: nat, y: nat, z: nat, w: nat)
    requires z % 2 == (x + y) % 2 && w % 2 == (z + y) % 2 && w / 2 == x / 2
    ensures w == x
  {
    assert w % 2 == x % 2;
  }

  lemma {:induction false} XorTwice(x: nat, y: nat)
    ensures Xor(Xor(x, y), y) == x
    decreases x + y
  {
    if x != 0 || y != 0 {
      var z := Xor(x, y);
      XorBit(x, y);
      XorBit(z, y);
      XorTwice(x / 2, y / 2);
      SameHalves(x, y, z, Xor(z, y));
    }
  }

  lemma {:induction false} XorSymmetric(x: nat, y: nat)
    ensures Xor(x, y) == Xor(y, x)
    decreases x + y
  {
    if x != 0 || y != 0 { XorSymmetric(x / 2, y / 2); }
  }

  lemma {:induction false} XorBelow(x: nat, y: nat, k: nat)
    requires x < Pow2(k) && y < Pow2(k)
    ensures Xor(x, y) < Pow2(k)
    decreases k
  {
    if k > 0 { XorBelow(x / 2, y / 2, k - 1); }
  }

  lemma HalfMod(x: nat, m: nat)
    requires m >= 1
    ensures x % (2 * m) == x % 2 + 2 * ((x / 2) % m)
  {
    var q, r := (x / 2) / m, (x / 2) % m;
    assert x / 2 == m * q + r;
    assert x == (2 * m) * q + (x % 2 + 2 * r);
    DivModUnique(x, 2 * m, q, x % 2 + 2 * r);
  }

  lemma LowHalf(x: nat, m: nat)
    requires m >= 1
    ensures x % (2 * m) % 2 == x % 2 && x % (2 * m) / 2 == (x / 2) % m
  {
    HalfMod(x, m);
  }

  lemma SameBits(a: nat, b: nat)
    requires a % 2 == b % 2 && a / 2 == b / 2
    ensures a == b
  {
  }

  lemma SameParity(x: nat, y: nat, v: nat, w: nat)
    requires v % 2 == x % 2 && w % 2 == y % 2
    ensures (v + w) % 2 == (x + y) % 2
  {
  }

  /** The lower bits of an exclusive or, from those of its upper half. */
  lemma XorLowStep(x: nat, y: nat, v: nat, w: nat, u: nat)
    requires v % 2 == x % 2 && w % 2 == y % 2 && u % 2 == Xor(x, y) % 2
    requires u / 2 == Xor(v / 2, w / 2)
    ensures u == Xor(v, w)
  {
    XorBit(x, y);
    XorBit(v, w);
    SameParity(x, y, v, w);
    SameBits(u, Xor(v, w));
  }

  /** Taking low bits commutes with the exclusive or. */
  lemma {:induction false} XorLowBits(x: nat, y: nat, k: nat)
    ensures Xor(x, y) % Pow2(k) == Xor(x % Pow2(k), y % Pow2(k))
    decreases k
  {
    if k > 0 {
      var m := Pow2(k - 1);
      XorLowBits(x / 2, y / 2, k - 1);
      LowHalf(x, m);
      LowHalf(y, m);
      LowHalf(Xor(x, y), m);
      XorBit(x, y);
      XorLowStep(x, y, x % (2 * m), y % (2 * m), Xor(x, y) % (2 * m));
    }
  }

  // ---- a test vector ----

  lemma {:induction false} XorZero(x: nat)
    ensures Xor(x, 0) == x
  {
    if x != 0 { XorZero(x / 2); }
  }

  /** `y` with k zero bits behind it. */
  function Shift(y: nat, k: nat): nat { if k == 0 then y else 2 * Shift(y, k - 1) }

  /** An exclusive or with few bits changes the low bits only. */
  lemma {:induction false} XorLow(k: nat, y: nat, low: nat, b: nat)
    requires low < Pow2(k) && b < Pow2(k)
    ensures Xor(Shift(y, k) + low, b) == Shift(y, k) + Xor(low, b)
    decreases k
  {
    if k == 0 {
      XorZero(y);
    } else {
      XorLow(k - 1, y, low / 2, b / 2);
      XorLowHalf(Shift(y, k - 1), low, b);
    }
  }

  lemma Doubled(p: nat, v: nat)
    ensures (2 * p + v) / 2 == p + v / 2 && (2 * p + v) % 2 == v % 2
  {
  }

  lemma XorLowHalf(p: nat, low: nat, b: nat)
    requires Xor(p + low / 2, b / 2) == p + Xor(low / 2, b / 2)
    ensures Xor(2 * p + low, b) == 2 * p + Xor(low, b)
  {
    var u, v := Xor(2 * p + low, b), Xor(low, b);
    XorBit(2 * p + low, b);
    XorBit(low, b);
    Doubled(p, low);
    Doubled(p, low + b);
    Doubled(p, v);
    SameBits(u, 2 * p + v);
  }

  lemma ByteShift(y: nat)
    ensures Shift(y, 8) == 256 * y
  {
    assert Shift(y, 1) == 2 * y;
    assert Shift(y, 3) == 4 * Shift(y, 1);
    assert Shift(y, 5) == 4 * Shift(y, 3);
    assert Shift(y, 7) == 4 * Shift(y, 5);
  }

  /** One step in numbers: `high` are the bits above the lowest eight, `low` those the byte goes into. */
  lemma StepIs(high: nat, low: nat, b: Byte, mixed: nat)
    requires low < 256 && Xor(low, b) == mixed
    ensures Step(256 * high + low, b) == ((256 * high + mixed) * PRIME) % M64
  {
    Pow2Values();
    ByteShift(high);
    XorLow(8, high, low, b);
  }

  lemma XorUp(x: nat, y: nat, h: nat)
    requires Xor(x / 2, y / 2) == h
    ensures Xor(x, y) == (x + y) % 2 + 2 * h
  {
  }

  lemma LowByteOfA(low: nat, b: Byte)
    requires low == 0x25 && b == 0x61
    ensures Xor(low, b) == 0x44
  {
    XorUp(low / 0x40, b / 0x40, 0);
    XorUp(low / 0x20, b / 0x20, 1);
    XorUp(low / 0x10, b / 0x10, 2);
    XorUp(low / 8, b / 8, 4);
    XorUp(low / 4, b / 4, 8);
    XorUp(low / 2, b / 2, 0x11);
    XorUp(low, b, 0x22);
  }

  lemma ProductOfA(h: nat)
    requires h == 0xcbf2_9ce4_8422_2344
    ensures (h * PRIME) % M64 == 0xaf63_dc4c_8601_ec8c
  {
    DivModUnique(h * PRIME, M64, 0xcbf29ce5de, 0xaf63_dc4c_8601_ec8c);
  }

  /** The published values for no byte, and for "a". */
  lemma HashOfA(b: Byte)
    requires b == 0x61
    ensures Sum64([]) == 0xcbf2_9ce4_8422_2325 && Sum64([b]) == 0xaf63_dc4c_8601_ec8c
  {
    var high, low := 0xcb_f29c_e484_2223, 0x25;
    LowByteOfA(low, b);
    StepIs(high, low, b, 0x44);
    ProductOfA(256 * high + 0x44);
    OneByte(OFFSET_BASIS, b);
  }

  lemma OneByte(h: nat, b: Byte)
    ensures Sum64From(h, [b]) == Step(h, b)
  {
    assert [b][1..] == [];
    assert Sum64From(Step(h, b), []) == Step(h, b);
  }

  lemma Pow2Values()
    ensures Pow2(8) == 256 && Pow2(48) == M48
  {
    assert Pow2(12) == 4096;
    assert Pow2(24) == 4096 * Pow2(12);
    assert Pow2(36) == 4096 * Pow2(24);
    assert Pow2(48) == 4096 * Pow2(36);
  }

  lemma LowProduct(x: nat, p: nat)
    ensures (x * p % M64) % M48 == ((x % M48) * p) % M48
  {
    var q1, r1 := x / M48, x % M48;
    var q2, r2 := (x * p) / M64, (x * p) % M64;
    var q3, r3 := (r1 * p) / M48, (r1 * p) % M48;
    assert x * p == (M48 * q1 + r1) * p == M48 * (q1 * p) + r1 * p;
    assert r2 == M48 * (q1 * p + q3 - 0x1_0000 * q2) + r3 by {
      assert x * p == M64 * q2 + r2;
      assert r1 * p == M48 * q3 + r3;
    }
    DivModUnique(r2, M48, q1 * p + q3 - 0x1_0000 * q2, r3);
  }

  /** The low 48 bits of the next hash depend on the low 48 bits of this one only. */
  lemma LowStep(h: nat, b: Byte)
    ensures Step(h, b) % M48 == Step48(h % M48, b)
  {
    Pow2Values();
    XorLowBits(h, b, 48);
    assert b % M48 == b;
    LowProduct(Xor(h, b), PRIME);
  }

  /** Projection: the masked 64-bit hash is the run of the 48-bit machine. */
  lemma {:induction false} Sum48IsRun(h: nat, bytes: seq<Byte>)
    ensures Sum64From(h, bytes) % M48 == Sum48From(h % M48, bytes)
    decreases |bytes|
  {
    if bytes != [] {
      LowStep(h, bytes[0]);
      Sum48IsRun(Step(h, bytes[0]), bytes[1..]);
    }
  }

  /** Multiplying by the odd prime is undone by multiplying by its inverse. */
  lemma TimesPrimeInverse(x: nat)
    requires x < M48
    ensures (((x * PRIME) % M48) * PRIME_INVERSE) % M48 == x
  {
    var q, r := (x * PRIME) / M48, (x * PRIME) % M48;
    var t := PRIME * PRIME_INVERSE / M48;
    assert PRIME * PRIME_INVERSE == M48 * t + 1;
    assert r * PRIME_INVERSE == M48 * (x * t - q * PRIME_INVERSE) + x by {
      assert r == x * PRIME - M48 * q;
      assert x * PRIME * PRIME_INVERSE == x * (M48 * t + 1) == M48 * (x * t) + x;
      assert r * PRIME_INVERSE == x * PRIME * PRIME_INVERSE - M48 * (q * PRIME_INVERSE);
    }
    DivModUnique(r * PRIME_INVERSE, M48, x * t - q * PRIME_INVERSE, x);
  }

  /** The inverse of a step: which 48-bit state led to `r` on byte `b`. */
  function StepBack48(r: nat, b: Byte): nat { Xor((r * PRIME_INVERSE) % M48, b) }

  /** Each step is a bijection of the 48-bit states, and also tells two bytes apart. */
  lemma StepBijective(h: nat, b: Byte)
    requires h < M48
    ensures StepBack48(Step48(h, b), b) == h
    ensures Xor((Step48(h, b) * PRIME_INVERSE) % M48, h) == b
  {
    Pow2Values();
    XorBelow(h, b, 48);
    TimesPrimeInverse(Xor(h, b));
    XorTwice(h, b);
    XorTwice(b, h);
    XorSymmetric(h, b);
  }

  lemma {:induction false} RunInjective(h: nat, g: nat, bytes: seq<Byte>)
    requires h < M48 && g < M48 && h != g
    ensures Sum48From(h, bytes) != Sum48From(g, bytes)
    decreases |bytes|
  {
    if bytes != [] {
      StepBijective(h, bytes[0]);
      StepBijective(g, bytes[0]);
      RunInjective(Step48(h, bytes[0]), Step48(g, bytes[0]), bytes[1..]);
    }
  }

  lemma {:induction false} RunAppend(h: nat, a: seq<Byte>, b: seq<Byte>)
    ensures Sum48From(h, a + b) == Sum48From(Sum48From(h, a), b)
    decreases |a|
  {
    if a == [] {
      assert a + b == b;
    } else {
      assert (a + b)[1..] == a[1..] + b;
      RunAppend(Step48(h, a[0]), a[1..], b);
    }
  }

  lemma {:induction false} RunBelow(h: nat, a: seq<Byte>)
    requires h < M48
    ensures Sum48From(h, a) < M48
    decreases |a|
  {
    if a != [] { RunBelow(Step48(h, a[0]), a[1..]); }
  }

  /** Two byte strings of equal length that differ in exactly one byte never share their 48-bit hash. */
  lemma OneByteApart(s: seq<Byte>, t: seq<Byte>, i: nat)
    requires |s| == |t| && i < |s| && s[i] != t[i]
    requires forall j :: 0 <= j < |s| && j != i ==> s[j] == t[j]
    ensures Sum48(s) != Sum48(t)
  {
    var start := OFFSET_BASIS % M48;
    var pre, suf := s[..i], s[i + 1..];
    assert s == pre + ([s[i]] + suf) && t == pre + ([t[i]] + suf);
    Sum48IsRun(OFFSET_BASIS, s);
    Sum48IsRun(OFFSET_BASIS, t);
    RunAppend(start, pre, [s[i]] + suf);
    RunAppend(start, pre, [t[i]] + suf);
    var h := Sum48From(start, pre);
    RunBelow(start, pre);
    assert ([s[i]] + suf)[1..] == suf && ([t[i]] + suf)[1..] == suf;
    StepBijective(h, s[i]);
    StepBijective(h, t[i]);
    RunInjective(Step48(h, s[i]), Step48(h, t[i]), suf);
  }

  function HexDigit(d: nat): char
    requires d < 16
  {
    if d < 10 then '0' + d as char else 'a' + (d - 10) as char
  }

  function HexValue(c: char): nat {
    if '0' <= c <= '9' then (c - '0') as nat else if 'a' <= c <= 'f' then (c - 'a') as nat + 10 else 0
  }

  /** The `n` lowest hexadecimal digits of `v`, zero-padded: fmt's %0<n>x for every v below 16^n. */
  function Hex(v: nat, n: nat): (s: string)
    ensures |s| == n
  {
    if n == 0 then "" else Hex(v / 16, n - 1) + [HexDigit(v % 16)]
  }

  function ParseHex(s: string): nat {
    if s == "" then 0 else 16 * ParseHex(s[..|s| - 1]) + HexValue(s[|s| - 1])
  }

  lemma SixteenTimes(k: nat)
    ensures Pow2(k + 4) == 16 * Pow2(k)
  {
    assert Pow2(k + 2) == 2 * Pow2(k + 1) == 4 * Pow2(k);
    assert Pow2(k + 4) == 2 * Pow2(k + 3) == 4 * Pow2(k + 2);
  }

  lemma HexDigitValue(d: nat)
    requires d < 16
    ensures HexValue(HexDigit(d)) == d
  {
  }

  lemma {:induction false} HexRoundTrip(v: nat, n: nat)
    requires v < Pow2(4 * n)
    ensures ParseHex(Hex(v, n)) == v
    decreases n
  {
    if n > 0 {
      SixteenTimes(4 * (n - 1));
      HexRoundTrip(v / 16, n - 1);
      HexDigitValue(v % 16);
      assert Hex(v, n)[..n - 1] == Hex(v / 16, n - 1);
    }
  }

  /** Twelve digits lose nothing of a 48-bit value. */
  lemma Hex12Injective(v: nat, w: nat)
    requires v < M48 && w < M48 && Hex(v, 12) == Hex(w, 12)
    ensures v == w
  {
    Pow2Values();
    HexRoundTrip(v, 12);
    HexRoundTrip(w, 12);
  }
}

/**
 `BufferKeyHash`: FNV-style mixing of the key's bytes. One step is a bijection of the state,
 and no four neighbouring bytes can cancel, so keys that differ in one field never collide.
 */
module KeyHash {
  import opened Telemetry

  const OFFSET: nat := 1469598103934665603
  const PRIME: nat := 1099511628211
  const PRIME_INVERSE: nat := 14886173955864302971

  type Byte = b: int | 0 <= b < 256
  type Word = w: int | 0 <= w < TWO_64

  function Bits(n: nat): nat {
    if n == 0 then 1 else 2 * Bits(n - 1)
  }

  /** Exclusive or of the lowest `n` bits. */
  function Xor(a: nat, b: nat, n: nat): (r: nat)
    ensures r < Bits(n)
  {
    if n == 0 then 0 else (if a % 2 == b % 2 then 0 else 1) + 2 * Xor(a / 2, b / 2, n - 1)
  }

  function Xor8(a: Byte, b: Byte): Byte {
    assert Bits(8) == 256;
    Xor(a, b, 8)
  }

  /** `hash ^ byte` changes the lowest byte of the state only. */
  function XorLow(h: Word, b: Byte): Word {
    h - h % 256 + Xor8(h % 256, b)
  }

  /** One step: xor, then multiply modulo 2^64. */
  function Mix(h: Word, b: Byte): Word {
    (XorLow(h, b) * PRIME) % TWO_64
  }

  function HashBytes(h: Word, s: seq<Byte>): Word {
    if s == [] then h else Mix(HashBytes(h, s[..|s| - 1]), s[|s| - 1])
  }

  method HashCombineBytes(seed: Word, bytes: seq<Byte>) returns (hash: Word)
    ensures hash == HashBytes(seed, bytes)
  {
    hash := seed;
    for i := 0 to |bytes|
      invariant hash == HashBytes(seed, bytes[..i])
    {
      assert bytes[..i + 1][..i] == bytes[..i];
      hash := XorLow(hash, bytes[i]);
      hash := (hash * PRIME) % TWO_64;
    }
    assert bytes[..|bytes|] == bytes;
  }

  // ----- One step is injective -----

  /** Lowest bit and remaining bits of an exclusive or. */
  lemma XorParts(a: nat, b: nat, n: nat)
    requires n > 0
    ensures Xor(a, b, n) % 2 == (if a % 2 == b % 2 then 0 else 1)
    ensures Xor(a, b, n) / 2 == Xor(a / 2, b / 2, n - 1)
  {
  }

  lemma {:induction false} XorCancels(a: nat, b: nat, n: nat)
    requires a < Bits(n)
    ensures Xor(Xor(a, b, n), b, n) == a
  {
    if n > 0 {
      XorCancels(a / 2, b / 2, n - 1);
      XorParts(a, b, n);
      XorParts(Xor(a, b, n), b, n);
    }
  }

  lemma {:induction false} XorCommutes(a: nat, b: nat, n: nat)
    ensures Xor(a, b, n) == Xor(b, a, n)
  {
    if n > 0 { XorCommutes(a / 2, b / 2, n - 1); }
  }

  lemma Xor8Cancels(a: Byte, b: Byte)
    ensures Xor8(Xor8(a, b), b) == a
  {
    assert Bits(8) == 256;
    XorCancels(a, b, 8);
  }

  lemma Xor8Commutes(a: Byte, b: Byte)
    ensures Xor8(a, b) == Xor8(b, a)
  {
    XorCommutes(a, b, 8);
  }

  lemma XorLowParts(h: Word, b: Byte)
    ensures XorLow(h, b) / 256 == h / 256 && XorLow(h, b) % 256 == Xor8(h % 256, b)
  {
  }

  lemma XorLowInjectiveInState(g: Word, h: Word, b: Byte)
    requires XorLow(g, b) == XorLow(h, b)
    ensures g == h
  {
    XorLowParts(g, b);
    XorLowParts(h, b);
    Xor8Cancels(g % 256, b);
    Xor8Cancels(h % 256, b);
  }

  lemma XorLowInjectiveInByte(h: Word, b: Byte, c: Byte)
    requires XorLow(h, b) == XorLow(h, c)
    ensures b == c
  {
    XorLowParts(h, b);
    XorLowParts(h, c);
    Xor8Commutes(h % 256, b);
    Xor8Commutes(h % 256, c);
    Xor8Cancels(b, h % 256);
    Xor8Cancels(c, h % 256);
  }

  /** The prime is odd, hence invertible modulo 2^64. */
  lemma PrimeIsInvertible()
    ensures PRIME * PRIME_INVERSE == 1 + ((PRIME * PRIME_INVERSE) / TWO_64) * TWO_64
  {
  }

  lemma MultiplyIsInjective(x: Word, y: Word)
    requires (x * PRIME) % TWO_64 == (y * PRIME) % TWO_64
    ensures x == y
  {
    var k := (PRIME * PRIME_INVERSE) / TWO_64;
    PrimeIsInvertible();
    var p, q := (x * PRIME) / TWO_64, (y * PRIME) / TWO_64;
    assert (x - y) * PRIME == (p - q) * TWO_64;
    assert (x - y) * PRIME * PRIME_INVERSE == (p - q) * TWO_64 * PRIME_INVERSE;
    assert x - y == TWO_64 * ((p - q) * PRIME_INVERSE - (x - y) * k);
  }

  lemma MixIsInjective(g: Word, b: Byte, h: Word, c: Byte)
    requires Mix(g, b) == Mix(h, c)
    ensures g == h <==> b == c
    ensures g / 256 == h / 256
  {
    MultiplyIsInjective(XorLow(g, b), XorLow(h, c));
    XorLowParts(g, b);
    XorLowParts(h, c);
    if b == c { XorLowInjectiveInState(g, h, b); }
    if g == h { XorLowInjectiveInByte(g, b, c); }
  }

  // ----- Four bytes -----

  const TWO_24 := 0x100_0000
  const TWO_40 := 0x100_0000_0000

  /** What an exclusive or adds to the state. */
  function Added(h: Word, b: Byte): (a: int)
    ensures -256 < a < 256 && XorLow(h, b) == h + a
  {
    Xor8(h % 256, b) - h % 256
  }

  lemma AddedIsInjective(h: Word, b: Byte, c: Byte)
    requires Added(h, b) == Added(h, c)
    ensures b == c
  {
    XorLowInjectiveInByte(h, b, c);
  }

  /** The difference `d` of two states, after `a` was added to it and one step was made. */
  ghost predicate Steps(d: int, a: int, later: int, k: int) {
    later == (d + a) * PRIME - k * TWO_64
  }

  lemma StepDifference(g: Word, b: Byte, h: Word, c: Byte) returns (k: int)
    ensures Steps(g - h, Added(g, b) - Added(h, c), Mix(g, b) - Mix(h, c), k)
  {
    var x, y := XorLow(g, b), XorLow(h, c);
    var p, q := (x * PRIME) / TWO_64, (y * PRIME) / TWO_64;
    k := p - q;
    assert x * PRIME == p * TWO_64 + Mix(g, b) && y * PRIME == q * TWO_64 + Mix(h, c);
  }

  /** The prime is 2^40 + 435, so its powers modulo 2^64 have small halves on both sides of
      bit 40, and small multiples of them cannot cancel. */
  lemma SmallMultiplesDoNotCancel(d1: int, d2: int, d3: int, k: int, e: int)
    requires -256 < d1 < 256 && -511 < d2 < 511 && -511 < d3 < 511 && -256 < e < 256
    requires d1 * (567675 * TWO_40 + 82312875) + d2 * (870 * TWO_40 + 189225) + d3 * (TWO_40 + 435) == e + k * TWO_64
    ensures d1 == 0 && d2 == 0 && d3 == 0 && e == 0
  {
    var high, low := 567675 * d1 + 870 * d2 + d3, 82312875 * d1 + 189225 * d2 + 435 * d3;
    assert TWO_40 * (high - TWO_24 * k) == e - low;
    assert high == TWO_24 * k && low == e;
    assert 435 * (189225 * d1 + 435 * d2 + d3) == e;
    assert e == 0 && 189225 * d1 + 435 * d2 + d3 == 0;
    var m := 435 * d1 + d2;
    assert 435 * m == -d3;
    assert -1 <= m <= 1;
    assert -1 <= d1 <= 1;
    assert high == 189225 * d1 + 435 * m;
    assert high == 0;
  }

  lemma Unroll(d1: int, d2: int, d3: int, k1: int, k2: int, k3: int, e1: int, e2: int, e: int)
    requires Steps(0, d1, e1, k1) && Steps(e1, d2, e2, k2) && Steps(e2, d3, e, k3)
    requires -256 < d1 < 256 && -511 < d2 < 511 && -511 < d3 < 511 && -256 < e < 256
    ensures d1 == 0 && d2 == 0 && d3 == 0
  {
    var k := k1 * (PRIME * PRIME) + k2 * PRIME + k3 - d1 * 72057594123452416 - d2 * 65536;
    SmallMultiplesDoNotCancel(d1, d2, d3, k, e);
  }

  lemma SameHighBytes(x: Word, y: Word)
    requires x / 256 == y / 256
    ensures -256 < x - y < 256
  {
  }

  /** Bytes from a common state add less than 256 different amounts. */
  lemma AddedToOneState(g: Word, b: Byte, c: Byte)
    ensures -256 < Added(g, b) - Added(g, c) < 256
  {
  }

  /** Three steps from a common state leave states that differ above the lowest byte, unless
      the three bytes are the same: no fourth byte can hide the difference. */
  lemma ThreeStepsSpread(g: Word, b1: Byte, b2: Byte, b3: Byte, c1: Byte, c2: Byte, c3: Byte)
    requires Mix(Mix(Mix(g, b1), b2), b3) / 256 == Mix(Mix(Mix(g, c1), c2), c3) / 256
    ensures b1 == c1 && b2 == c2 && b3 == c3
  {
    SpreadFrom(g, b1, Mix(g, b1), c1, Mix(g, c1), b2, Mix(Mix(g, b1), b2), c2, Mix(Mix(g, c1), c2),
               b3, Mix(Mix(Mix(g, b1), b2), b3), c3, Mix(Mix(Mix(g, c1), c2), c3));
  }

  ghost predicate Moves(g: Word, b: Byte, next: Word) {
    Mix(g, b) == next
  }

  lemma MovesApart(g: Word, b: Byte, next: Word, h: Word, c: Byte, next': Word) returns (k: int)
    requires Moves(g, b, next) && Moves(h, c, next')
    ensures Steps(g - h, Added(g, b) - Added(h, c), next - next', k)
  {
    k := StepDifference(g, b, h, c);
  }

  lemma MovesTogether(g: Word, b: Byte, next: Word, c: Byte, next': Word)
    requires Moves(g, b, next) && Moves(g, c, next') && Added(g, b) == Added(g, c)
    ensures b == c && next == next'
  {
    AddedIsInjective(g, b, c);
  }

  lemma SpreadFrom(g: Word, b1: Byte, g1: Word, c1: Byte, h1: Word, b2: Byte, g2: Word, c2: Byte, h2: Word,
                   b3: Byte, g3: Word, c3: Byte, h3: Word)
    requires Moves(g, b1, g1) && Moves(g1, b2, g2) && Moves(g2, b3, g3)
    requires Moves(g, c1, h1) && Moves(h1, c2, h2) && Moves(h2, c3, h3)
    requires g3 / 256 == h3 / 256
    ensures b1 == c1 && b2 == c2 && b3 == c3
  {
    var k1 := MovesApart(g, b1, g1, g, c1, h1);
    var k2 := MovesApart(g1, b2, g2, h1, c2, h2);
    var k3 := MovesApart(g2, b3, g3, h2, c3, h3);
    SameHighBytes(g3, h3);
    AddedToOneState(g, b1, c1);
    Unroll(Added(g, b1) - Added(g, c1), Added(g1, b2) - Added(h1, c2), Added(g2, b3) - Added(h2, c3),
           k1, k2, k3, g1 - h1, g2 - h2, g3 - h3);
    MovesTogether(g, b1, g1, c1, h1);
    MovesTogether(g1, b2, g2, c2, h2);
    MovesTogether(g2, b3, g3, c3, h3);
  }

  // ----- Whole texts -----

  lemma {:induction false} SuffixKeepsDifference(g: Word, h: Word, s: seq<Byte>)
    requires g != h
    ensures HashBytes(g, s) != HashBytes(h, s)
  {
    if s != [] {
      SuffixKeepsDifference(g, h, s[..|s| - 1]);
      if HashBytes(g, s) == HashBytes(h, s) {
        MixIsInjective(HashBytes(g, s[..|s| - 1]), s[|s| - 1], HashBytes(h, s[..|s| - 1]), s[|s| - 1]);
      }
    }
  }

  lemma {:induction false} HashOfConcat(h: Word, s: seq<Byte>, t: seq<Byte>)
    ensures HashBytes(h, s + t) == HashBytes(HashBytes(h, s), t)
  {
    if t == [] {
      assert s + t == s;
    } else {
      var last := |t| - 1;
      assert (s + t)[..|s + t| - 1] == s + t[..last];
      HashOfConcat(h, s, t[..last]);
    }
  }

  lemma HashOfFour(g: Word, s: seq<Byte>)
    requires |s| == 4
    ensures HashBytes(g, s) == Mix(Mix(Mix(Mix(g, s[0]), s[1]), s[2]), s[3])
  {
    assert s == [s[0]] + ([s[1]] + ([s[2]] + [s[3]]));
    HashOfConcat(g, [s[0]], [s[1]] + ([s[2]] + [s[3]]));
    HashOfOne(g, s[0]);
    HashOfConcat(Mix(g, s[0]), [s[1]], [s[2]] + [s[3]]);
    HashOfOne(Mix(g, s[0]), s[1]);
    HashOfConcat(Mix(Mix(g, s[0]), s[1]), [s[2]], [s[3]]);
    HashOfOne(Mix(Mix(g, s[0]), s[1]), s[2]);
    HashOfOne(Mix(Mix(Mix(g, s[0]), s[1]), s[2]), s[3]);
  }

  lemma FourBytesDecide(g: Word, s: seq<Byte>, t: seq<Byte>)
    requires |s| == |t| == 4 && HashBytes(g, s) == HashBytes(g, t)
    ensures s == t
  {
    HashOfFour(g, s);
    HashOfFour(g, t);
    MixIsInjective(Mix(Mix(Mix(g, s[0]), s[1]), s[2]), s[3], Mix(Mix(Mix(g, t[0]), t[1]), t[2]), t[3]);
    ThreeStepsSpread(g, s[0], s[1], s[2], t[0], t[1], t[2]);
  }

  function Zeros(n: nat): seq<Byte> {
    seq(n, _ => 0)
  }

  /** Shorter stretches: what follows them keeps a difference, so it may as well be zeros. */
  lemma UpToFourBytesDecide(g: Word, s: seq<Byte>, t: seq<Byte>)
    requires |s| == |t| <= 4 && HashBytes(g, s) == HashBytes(g, t)
    ensures s == t
  {
    var pad := Zeros(4 - |s|);
    HashOfConcat(g, s, pad);
    HashOfConcat(g, t, pad);
    FourBytesDecide(g, s + pad, t + pad);
    assert s == (s + pad)[..|s|] && t == (t + pad)[..|t|];
  }

  /** Texts that differ only within four neighbouring bytes never collide. */
  lemma NeighboursNeverCollide(h: Word, prefix: seq<Byte>, s: seq<Byte>, t: seq<Byte>, suffix: seq<Byte>)
    requires |s| == |t| <= 4 && s != t
    ensures HashBytes(h, prefix + s + suffix) != HashBytes(h, prefix + t + suffix)
  {
    var g := HashBytes(h, prefix);
    HashOfConcat(h, prefix + s, suffix);
    HashOfConcat(h, prefix + t, suffix);
    HashOfConcat(h, prefix, s);
    HashOfConcat(h, prefix, t);
    if HashBytes(g, s) == HashBytes(g, t) {
      UpToFourBytesDecide(g, s, t);
    } else {
      SuffixKeepsDifference(HashBytes(g, s), HashBytes(g, t), suffix);
    }
  }

  lemma HashOfOne(g: Word, b: Byte)
    ensures HashBytes(g, [b]) == Mix(g, b)
  {
    var none: seq<Byte> := [b][..0];
    assert HashBytes(g, none) == g;
  }

  // ----- Keys -----

  /** The bytes of an unsigned field as x86 and ARM store it. */
  function Le2(x: nat): seq<Byte>
    requires x < TWO_16
  {
    [x % 256, x / 256]
  }

  function Le4(x: nat): seq<Byte>
    requires x < TWO_32
  {
    [x % 256, x / 256 % 256, x / 256 / 256 % 256, x / 256 / 256 / 256]
  }

  /** All fields are within the widths `BufferKey` declares. */
  predicate Fits(k: BufferKey) {
    && -0x8000_0000 <= k.metricType < 0x8000_0000
    && k.pciDomain < TWO_16 && k.pciBus < TWO_8 && k.pciDevice < TWO_8 && k.pciFunction < TWO_8
    && k.socketIndex < TWO_8 && k.coreIndex < TWO_16
    && k.ifindex < TWO_32 && k.diskMajor < TWO_32 && k.diskMinor < TWO_32
  }

  function KeyBytes(k: BufferKey): seq<Byte>
    requires Fits(k)
  {
    Le4(k.metricType % TWO_32) + Le2(k.pciDomain) + [k.pciBus, k.pciDevice] + [k.pciFunction, k.socketIndex]
    + Le2(k.coreIndex) + (Le4(k.ifindex) + Le4(k.diskMajor) + Le4(k.diskMinor))
  }

  /** `BufferKeyHash::operator()`: the fields are combined one after the other. */
  method HashKey(k: BufferKey) returns (hash: Word)
    requires Fits(k)
    ensures hash == HashBytes(1469598103934665603, KeyBytes(k))
  {
    hash := HashCombineBytes(OFFSET, Le4(k.metricType % TWO_32));
    hash := HashCombineBytes(hash, Le2(k.pciDomain));
    hash := HashCombineBytes(hash, [k.pciBus]);
    hash := HashCombineBytes(hash, [k.pciDevice]);
    hash := HashCombineBytes(hash, [k.pciFunction]);
    hash := HashCombineBytes(hash, [k.socketIndex]);
    hash := HashCombineBytes(hash, Le2(k.coreIndex));
    hash := HashCombineBytes(hash, Le4(k.ifindex));
    hash := HashCombineBytes(hash, Le4(k.diskMajor));
    hash := HashCombineBytes(hash, Le4(k.diskMinor));
    FieldByField(k);
  }

  lemma FieldByField(k: BufferKey)
    requires Fits(k)
    ensures HashBytes(OFFSET, KeyBytes(k)) ==
      HashBytes(HashBytes(HashBytes(HashBytes(HashBytes(HashBytes(HashBytes(HashBytes(HashBytes(HashBytes(OFFSET,
        Le4(k.metricType % TWO_32)), Le2(k.pciDomain)), [k.pciBus]), [k.pciDevice]), [k.pciFunction]), [k.socketIndex]),
        Le2(k.coreIndex)), Le4(k.ifindex)), Le4(k.diskMajor)), Le4(k.diskMinor))
  {
    var a, b, c := Le4(k.metricType % TWO_32), Le2(k.pciDomain), [k.pciBus, k.pciDevice];
    var d, e := [k.pciFunction, k.socketIndex], Le2(k.coreIndex);
    var f, g, i := Le4(k.ifindex), Le4(k.diskMajor), Le4(k.diskMinor);
    HashOfConcat(OFFSET, a, b);
    HashOfConcat(OFFSET, a + b, c);
    HashOfConcat(OFFSET, a + b + c, d);
    HashOfConcat(OFFSET, a + b + c + d, e);
    HashOfConcat(OFFSET, a + b + c + d + e, f + g + i);
    HashOfConcat(HashBytes(OFFSET, a + b + c + d + e), f + g, i);
    HashOfConcat(HashBytes(OFFSET, a + b + c + d + e), f, g);
    assert c == [k.pciBus] + [k.pciDevice] && d == [k.pciFunction] + [k.socketIndex];
    HashOfConcat(HashBytes(OFFSET, a + b), [k.pciBus], [k.pciDevice]);
    HashOfConcat(HashBytes(OFFSET, a + b + c), [k.pciFunction], [k.socketIndex]);
  }

  /** The key's bytes are six words of four; no field straddles two of them. */
  function Words(k: BufferKey): (ws: seq<seq<Byte>>)
    requires Fits(k)
    ensures |ws| == 6 && InFours(ws)
  {
    [Le4(k.metricType % TWO_32), Le2(k.pciDomain) + [k.pciBus, k.pciDevice], [k.pciFunction, k.socketIndex] + Le2(k.coreIndex),
     Le4(k.ifindex), Le4(k.diskMajor), Le4(k.diskMinor)]
  }

  predicate InFours(ws: seq<seq<Byte>>) {
    forall i :: 0 <= i < |ws| ==> |ws[i]| == 4
  }

  function Flat(ws: seq<seq<Byte>>): seq<Byte> {
    if ws == [] then [] else ws[0] + Flat(ws[1..])
  }

  lemma KeyBytesAreWords(k: BufferKey)
    requires Fits(k)
    ensures KeyBytes(k) == Flat(Words(k))
  {
    var ws := Words(k);
    assert Flat(ws[5..]) == ws[5] + Flat(ws[6..]) == ws[5];
    assert Flat(ws[4..]) == ws[4] + Flat(ws[5..]) by { assert ws[4..][1..] == ws[5..]; }
    assert Flat(ws[3..]) == ws[3] + Flat(ws[4..]) by { assert ws[3..][1..] == ws[4..]; }
    assert Flat(ws[2..]) == ws[2] + Flat(ws[3..]) by { assert ws[2..][1..] == ws[3..]; }
    assert Flat(ws[1..]) == ws[1] + Flat(ws[2..]) by { assert ws[1..][1..] == ws[2..]; }
  }

  lemma {:induction false} FlatSplits(ws: seq<seq<Byte>>, i: nat)
    requires i < |ws|
    ensures Flat(ws) == Flat(ws[..i]) + ws[i] + Flat(ws[i + 1..])
  {
    if i > 0 {
      FlatSplits(ws[1..], i - 1);
      assert ws[..i][1..] == ws[1..][..i - 1];
      assert ws[1..][i..] == ws[i + 1..];
    } else {
      assert ws[..i] == [];
    }
  }

  lemma {:induction false} FlatIsInjective(ws: seq<seq<Byte>>, vs: seq<seq<Byte>>)
    requires InFours(ws) && InFours(vs) && |ws| == |vs| && Flat(ws) == Flat(vs)
    ensures ws == vs
  {
    if ws != [] {
      assert Flat(ws)[..4] == ws[0] && Flat(vs)[..4] == vs[0];
      assert Flat(ws)[4..] == Flat(ws[1..]) && Flat(vs)[4..] == Flat(vs[1..]);
      FlatIsInjective(ws[1..], vs[1..]);
      assert ws == [ws[0]] + ws[1..] && vs == [vs[0]] + vs[1..];
    }
  }

  lemma WordsDetermineKey(k: BufferKey, l: BufferKey)
    requires Fits(k) && Fits(l) && Words(k) == Words(l)
    ensures k == l
  {
    forall i | 0 <= i < 6 ensures Words(k)[i] == Words(l)[i] { }
    Le4IsInjective(k.metricType % TWO_32, l.metricType % TWO_32);
    assert Words(k)[1][..2] == Le2(k.pciDomain) && Words(l)[1][..2] == Le2(l.pciDomain);
    Le2IsInjective(k.pciDomain, l.pciDomain);
    assert Words(k)[1][2] == k.pciBus && Words(l)[1][2] == l.pciBus && Words(k)[1][3] == k.pciDevice && Words(l)[1][3] == l.pciDevice;
    assert Words(k)[2][0] == k.pciFunction && Words(l)[2][0] == l.pciFunction && Words(k)[2][1] == k.socketIndex && Words(l)[2][1] == l.socketIndex;
    assert Words(k)[2][2..] == Le2(k.coreIndex) && Words(l)[2][2..] == Le2(l.coreIndex);
    Le2IsInjective(k.coreIndex, l.coreIndex);
    Le4IsInjective(k.ifindex, l.ifindex);
    Le4IsInjective(k.diskMajor, l.diskMajor);
    Le4IsInjective(k.diskMinor, l.diskMinor);
  }

  lemma Le2IsInjective(x: nat, y: nat)
    requires x < TWO_16 && y < TWO_16 && Le2(x) == Le2(y)
    ensures x == y
  {
    assert Le2(x)[0] == Le2(y)[0] && Le2(x)[1] == Le2(y)[1];
  }

  lemma Le4IsInjective(x: nat, y: nat)
    requires x < TWO_32 && y < TWO_32 && Le4(x) == Le4(y)
    ensures x == y
  {
    assert Le4(x)[0] == Le4(y)[0] && Le4(x)[1] == Le4(y)[1] && Le4(x)[2] == Le4(y)[2] && Le4(x)[3] == Le4(y)[3];
  }

  /** Different keys whose bytes differ only within four neighbouring positions, in one byte
      for example, never collide. */
  lemma CloseKeysNeverCollide(k: BufferKey, l: BufferKey, p: nat)
    requires Fits(k) && Fits(l) && k != l && p <= 20
    requires KeyBytes(k)[..p] == KeyBytes(l)[..p] && KeyBytes(k)[p + 4..] == KeyBytes(l)[p + 4..]
    ensures HashBytes(OFFSET, KeyBytes(k)) != HashBytes(OFFSET, KeyBytes(l))
  {
    var s, t := KeyBytes(k), KeyBytes(l);
    assert s == s[..p] + s[p..p + 4] + s[p + 4..];
    assert t == t[..p] + t[p..p + 4] + t[p + 4..];
    if s[p..p + 4] == t[p..p + 4] {
      KeyBytesAreWords(k);
      KeyBytesAreWords(l);
      FlatIsInjective(Words(k), Words(l));
      WordsDetermineKey(k, l);
    } else {
      NeighboursNeverCollide(OFFSET, s[..p], s[p..p + 4], t[p..p + 4], s[p + 4..]);
    }
  }

  /** The keys agree in every field but one. */
  predicate DifferInOneField(k: BufferKey, l: BufferKey) {
    && k != l
    && (|| l == k.(metricType := l.metricType) || l == k.(pciDomain := l.pciDomain) || l == k.(pciBus := l.pciBus)
        || l == k.(pciDevice := l.pciDevice) || l == k.(pciFunction := l.pciFunction)
        || l == k.(socketIndex := l.socketIndex) || l == k.(coreIndex := l.coreIndex)
        || l == k.(ifindex := l.ifindex) || l == k.(diskMajor := l.diskMajor) || l == k.(diskMinor := l.diskMinor))
  }

  /** The word in which a single different field lies. */
  lemma OneWordDiffers(k: BufferKey, l: BufferKey) returns (w: nat)
    requires Fits(k) && Fits(l) && DifferInOneField(k, l)
    ensures w < 6 && forall i :: 0 <= i < 6 && i != w ==> Words(k)[i] == Words(l)[i]
  {
    w := if k.metricType != l.metricType then 0
         else if k.ifindex != l.ifindex then 3
         else if k.diskMajor != l.diskMajor then 4
         else if k.diskMinor != l.diskMinor then 5
         else if k.coreIndex != l.coreIndex || k.socketIndex != l.socketIndex || k.pciFunction != l.pciFunction then 2
         else 1;
  }

  /** Keys that differ in one field never collide: all cores, all interfaces, all disks of a
      major number, all metric types of a device hash differently. */
  lemma OneFieldNeverCollides(k: BufferKey, l: BufferKey)
    requires Fits(k) && Fits(l) && DifferInOneField(k, l)
    ensures HashBytes(OFFSET, KeyBytes(k)) != HashBytes(OFFSET, KeyBytes(l))
  {
    var w := OneWordDiffers(k, l);
    var a, b := Words(k), Words(l);
    KeyBytesAreWords(k);
    KeyBytesAreWords(l);
    FlatSplits(a, w);
    FlatSplits(b, w);
    assert a[..w] == b[..w] && a[w + 1..] == b[w + 1..];
    if a[w] == b[w] {
      assert a == b;
      WordsDetermineKey(k, l);
    } else {
      NeighboursNeverCollide(OFFSET, Flat(a[..w]), a[w], b[w], Flat(a[w + 1..]));
    }
  }
}

/** The CRC-16/X-25 checksum of the GT06 decoder (the FCS of section C.2 of RFC 1662): the bitwise
    loop, its bit-serial meaning, its table-driven form, and the error patterns it always catches.

    Machine words are natural numbers below 2^16 and bytes are numbers below 2^8; `Xor` is the
    exclusive or of their binary digits. */
module Gt06Crc {
  type Byte = x: int | 0 <= x < 0x100
  type Word = x: int | 0 <= x < 0x1_0000
  type Bit = x: int | 0 <= x < 2

  // ----- Exclusive or -----

  function Xor(a: nat, b: nat): nat
    decreases a + b
  {
    if a == 0 && b == 0 then 0
    else (if a % 2 == b % 2 then 0 else 1) + 2 * Xor(a / 2, b / 2)
  }

  lemma XorDigits(a: nat, b: nat)
    ensures Xor(a, b) % 2 == (if a % 2 == b % 2 then 0 else 1)
    ensures Xor(a, b) / 2 == Xor(a / 2, b / 2)
  {
  }

  function Pow2(n: nat): (p: nat)
    ensures p >= 1
  {
    if n == 0 then 1 else 2 * Pow2(n - 1)
  }

  lemma {:induction false} XorBound(a: nat, b: nat, n: nat)
    requires a < Pow2(n) && b < Pow2(n)
    ensures Xor(a, b) < Pow2(n)
    decreases n
  {
    if n > 0 { XorBound(a / 2, b / 2, n - 1); }
  }

  lemma {:induction false} XorCommutes(a: nat, b: nat)
    ensures Xor(a, b) == Xor(b, a)
    decreases a + b
  {
    if a != 0 || b != 0 { XorCommutes(a / 2, b / 2); }
  }

  lemma {:induction false} XorZero(a: nat)
    ensures Xor(a, 0) == a && Xor(0, a) == a
  {
    if a != 0 { XorZero(a / 2); }
  }

  lemma {:induction false} XorAssociates(a: nat, b: nat, c: nat)
    ensures Xor(Xor(a, b), c) == Xor(a, Xor(b, c))
    decreases a + b + c
  {
    if a != 0 || b != 0 || c != 0 { XorAssociates(a / 2, b / 2, c / 2); }
  }

  lemma {:induction false} XorIsZero(a: nat, b: nat)
    ensures Xor(a, b) == 0 <==> a == b
    decreases a + b
  {
    if a != 0 || b != 0 { XorIsZero(a / 2, b / 2); }
  }

  /** (a ^ b) ^ (c ^ d) == (a ^ c) ^ (b ^ d) */
  lemma XorInterchange(a: nat, b: nat, c: nat, d: nat)
    ensures Xor(Xor(a, b), Xor(c, d)) == Xor(Xor(a, c), Xor(b, d))
  {
    XorAssociates(a, b, Xor(c, d));
    XorAssociates(b, c, d);
    XorCommutes(b, c);
    XorAssociates(c, b, d);
    XorAssociates(a, c, Xor(b, d));
  }

  lemma PowersOfTwo()
    ensures Pow2(8) == 0x100 && Pow2(15) == 0x8000 && Pow2(16) == 0x1_0000
  {
    assert Pow2(4) == 0x10;
    assert Pow2(8) == 0x100;
    assert Pow2(12) == 0x1000;
  }

  function XorWord(a: Word, b: Word): Word {
    PowersOfTwo();
    XorBound(a, b, 16);
    Xor(a, b)
  }

  // ----- The algorithm as the decoder runs it -----

  /** One step of the inner loop: the register moves right by one bit. */
  function ShiftBit(c: Word): Word {
    if c % 2 == 1 then XorWord(c / 2, 0x8408) else c / 2
  }

  function ShiftBits(c: Word, n: nat): Word
    decreases n, c
  {
    if n == 0 then c else ShiftBits(ShiftBit(c), n - 1)
  }

  function Absorb(c: Word, b: Byte): Word {
    ShiftBits(XorWord(c, b), 8)
  }

  function Register(c: Word, data: seq<Byte>): Word
    decreases data
  {
    if data == [] then c else Register(Absorb(c, data[0]), data[1..])
  }

  function Checksum(data: seq<Byte>): Word {
    XorWord(Register(0xFFFF, data), 0xFFFF)
  }

  lemma {:induction false} RegisterSnoc(c: Word, data: seq<Byte>, b: Byte)
    ensures Register(c, data + [b]) == Absorb(Register(c, data), b)
    decreases data
  {
    if data == [] {
      assert data + [b] == [b];
      assert [b][1..] == [];
    } else {
      assert (data + [b])[1..] == data[1..] + [b];
      RegisterSnoc(Absorb(c, data[0]), data[1..], b);
    }
  }

  lemma {:induction false} ShiftBitsSnoc(c: Word, n: nat)
    ensures ShiftBits(c, n + 1) == ShiftBit(ShiftBits(c, n))
    decreases n
  {
    if n > 0 { ShiftBitsSnoc(ShiftBit(c), n - 1); }
  }

  method ComputeChecksum(data: seq<Byte>) returns (checksum: Word)
    ensures checksum == Checksum(data)
  {
    var crc: Word := 0xFFFF;
    for i := 0 to |data|
      invariant crc == Register(0xFFFF, data[..i])
    {
      crc := XorWord(crc, data[i]);
      ghost var mixed := crc;
      for bit := 0 to 8
        invariant crc == ShiftBits(mixed, bit)
      {
        ShiftBitsSnoc(mixed, bit);
        if crc % 2 == 1 {
          crc := XorWord(crc / 2, 0x8408);
        } else {
          crc := crc / 2;
        }
      }
      RegisterSnoc(0xFFFF, data[..i], data[i]);
      assert data[..i] + [data[i]] == data[..i + 1];
    }
    assert data[..|data|] == data;
    checksum := XorWord(crc, 0xFFFF);
  }

  // ----- Linearity -----

  lemma ShiftBitLinear(a: Word, b: Word)
    ensures ShiftBit(XorWord(a, b)) == XorWord(ShiftBit(a), ShiftBit(b))
  {
    var p := 0x8408;
    var x, y := a / 2, b / 2;
    XorDigits(a, b);
    XorAssociates(x, p, y);
    XorCommutes(p, y);
    XorAssociates(x, y, p);
    XorInterchange(x, p, y, p);
    XorIsZero(p, p);
    XorZero(Xor(x, y));
  }

  lemma {:induction false} ShiftBitsLinear(a: Word, b: Word, n: nat)
    ensures ShiftBits(XorWord(a, b), n) == XorWord(ShiftBits(a, n), ShiftBits(b, n))
    decreases n
  {
    if n > 0 {
      ShiftBitLinear(a, b);
      ShiftBitsLinear(ShiftBit(a), ShiftBit(b), n - 1);
    }
  }

  /** The bytewise exclusive or of two messages of one length. */
  function XorBytes(u: seq<Byte>, v: seq<Byte>): (w: seq<Byte>)
    requires |u| == |v|
    ensures |w| == |u|
  {
    if u == [] then []
    else
      assert Pow2(8) == 0x100;
      XorBound(u[0], v[0], 8);
      [Xor(u[0], v[0])] + XorBytes(u[1..], v[1..])
  }

  lemma {:induction false} RegisterLinear(c: Word, d: Word, u: seq<Byte>, v: seq<Byte>)
    requires |u| == |v|
    ensures Register(XorWord(c, d), XorBytes(u, v)) == XorWord(Register(c, u), Register(d, v))
    decreases u
  {
    if u != [] {
      var w := XorBytes(u, v);
      assert w[0] == Xor(u[0], v[0]) && w[1..] == XorBytes(u[1..], v[1..]);
      XorInterchange(c, d, u[0], v[0]);
      assert XorWord(XorWord(c, d), w[0]) == XorWord(XorWord(c, u[0]), XorWord(d, v[0]));
      ShiftBitsLinear(XorWord(c, u[0]), XorWord(d, v[0]), 8);
      RegisterLinear(Absorb(c, u[0]), Absorb(d, v[0]), u[1..], v[1..]);
    }
  }

  /** The checksum is affine: over three messages of one length it distributes over exclusive or. */
  lemma ChecksumAffine(u: seq<Byte>, v: seq<Byte>, w: seq<Byte>)
    requires |u| == |v| == |w|
    ensures Checksum(XorBytes(XorBytes(u, v), w)) == XorWord(XorWord(Checksum(u), Checksum(v)), Checksum(w))
  {
    var f := 0xFFFF;
    var x, y, z := Register(f, u), Register(f, v), Register(f, w);
    XorIsZero(f, f);
    XorZero(f);
    RegisterLinear(f, f, u, v);
    RegisterLinear(0, f, XorBytes(u, v), w);
    XorInterchange(x, f, y, f);
    XorZero(Xor(x, y));
    XorAssociates(Xor(x, y), z, f);
  }

  // ----- The table-driven form -----

  function TableEntry(i: Byte): Word {
    ShiftBits(i, 8)
  }

  /** The update of section C.2 of RFC 1662: one table look-up per byte. */
  function TableRegister(c: Word, data: seq<Byte>): Word
    decreases data
  {
    if data == [] then c
    else TableRegister(TableUpdate(c, data[0]), data[1..])
  }

  lemma {:induction false} ShiftOut(h: nat, n: nat)
    requires Pow2(n) * h < 0x1_0000
    ensures ShiftBits(Pow2(n) * h, n) == h
    decreases n
  {
    if n > 0 {
      var half := Pow2(n - 1) * h;
      assert Pow2(n) * h == 2 * half;
      ShiftOut(h, n - 1);
      ShiftZero(half, n);
    }
  }

  /** A zero bit is simply dropped. */
  lemma ShiftZero(half: nat, n: nat)
    requires 2 * half < 0x1_0000 && n > 0
    ensures ShiftBits(2 * half, n) == ShiftBits(half, n - 1)
  {
    hide XorWord;
    assert ShiftBit(2 * half) == half;
  }

  lemma {:induction false} XorDisjoint(h: nat, l: nat, n: nat)
    requires l < Pow2(n)
    ensures Xor(Pow2(n) * h, l) == Pow2(n) * h + l
    decreases n
  {
    if n == 0 {
      XorZero(h);
    } else {
      assert Pow2(n) * h == 2 * (Pow2(n - 1) * h);
      XorDisjoint(h, l / 2, n - 1);
    }
  }

  /** A byte only meets the low half of the register. */
  lemma XorByte(h: nat, l: nat, b: nat)
    requires l < 0x100 && b < 0x100
    ensures Xor(l, b) < 0x100
    ensures Xor(0x100 * h + l, b) == 0x100 * h + Xor(l, b) == Xor(0x100 * h, Xor(l, b))
  {
    PowersOfTwo();
    XorBound(l, b, 8);
    XorDisjoint(h, l, 8);
    XorAssociates(0x100 * h, l, b);
    XorDisjoint(h, Xor(l, b), 8);
  }

  lemma TableStepFor(h: nat, l: nat, b: nat, n: nat)
    requires h < 0x100 && l < 0x100 && b < 0x100
    requires Pow2(n) == 0x100
    ensures Xor(0x100 * h + l, b) == 0x100 * h + Xor(l, b) && Xor(l, b) < 0x100
    ensures ShiftBits(XorWord(0x100 * h + l, b), n) == XorWord(h, ShiftBits(Xor(l, b), n))
  {
    var m := Xor(l, b);
    XorByte(h, l, b);
    var high := Pow2(n) * h;
    assert high == 0x100 * h;
    ShiftBitsLinear(high, m, n);
    ShiftOut(h, n);
  }

  function TableUpdate(c: Word, b: Byte): Word {
    XorWord(c / 0x100, TableEntry(XorWord(c, b) % 0x100))
  }

  lemma TableUpdateParts(c: Word, b: Byte, h: nat, l: nat, m: nat)
    requires c == 0x100 * h + l && l < 0x100
    requires Xor(c, b) == 0x100 * h + m && m < 0x100
    ensures TableUpdate(c, b) == XorWord(h, TableEntry(m))
  {
    var x := XorWord(c, b);
    assert x % 0x100 == m && c / 0x100 == h;
  }

  lemma TableStep(c: Word, b: Byte)
    ensures Absorb(c, b) == TableUpdate(c, b)
  {
    hide Xor;
    PowersOfTwo();
    var h, l := c / 0x100, c % 0x100;
    TableStepFor(h, l, b, 8);
    TableUpdateParts(c, b, h, l, Xor(l, b));
  }

  lemma {:induction false} TableDriven(c: Word, data: seq<Byte>)
    ensures Register(c, data) == TableRegister(c, data)
    decreases data
  {
    if data != [] {
      TableStep(c, data[0]);
      TableDriven(Absorb(c, data[0]), data[1..]);
    }
  }

  // ----- Bit-serial meaning -----

  /** Bits enter the register one at a time, least significant bit of each byte first. */
  function Feed(c: Word, bits: seq<Bit>): Word
    decreases bits
  {
    if bits == [] then c else Feed(ShiftBit(XorWord(c, bits[0])), bits[1..])
  }

  function BitsOf(w: Word, n: nat): (bits: seq<Bit>)
    ensures |bits| == n
    decreases n, w
  {
    if n == 0 then [] else [w % 2] + BitsOf(w / 2, n - 1)
  }

  function Bits(data: seq<Byte>): (bits: seq<Bit>)
    ensures |bits| == 8 * |data|
  {
    if data == [] then [] else BitsOf(data[0], 8) + Bits(data[1..])
  }

  lemma {:induction false} FeedConcat(c: Word, a: seq<Bit>, b: seq<Bit>)
    ensures Feed(c, a + b) == Feed(Feed(c, a), b)
    decreases a
  {
    if a == [] {
      assert a + b == b;
    } else {
      assert (a + b)[1..] == a[1..] + b;
      FeedConcat(ShiftBit(XorWord(c, a[0])), a[1..], b);
    }
  }

  lemma ShiftMixed(c: Word, w: Word)
    ensures ShiftBit(XorWord(c, w)) == XorWord(ShiftBit(XorWord(c, w % 2)), w / 2)
  {
    var x, y, p := c / 2, w / 2, 0x8408;
    XorDigits(c, w);
    XorDigits(c, w % 2);
    assert w % 2 / 2 == 0;
    XorZero(x);
    XorAssociates(x, y, p);
    XorCommutes(y, p);
    XorAssociates(x, p, y);
  }

  lemma {:induction false} ShiftBitsIsFeed(c: Word, w: Word, n: nat)
    requires w < Pow2(n)
    ensures ShiftBits(XorWord(c, w), n) == Feed(c, BitsOf(w, n))
    decreases n
  {
    if n == 0 {
      XorZero(c);
    } else {
      var bits := BitsOf(w, n);
      assert bits[0] == w % 2 && bits[1..] == BitsOf(w / 2, n - 1);
      ShiftMixed(c, w);
      ShiftBitsIsFeed(ShiftBit(XorWord(c, w % 2)), w / 2, n - 1);
    }
  }

  lemma {:induction false} RegisterIsFeed(c: Word, data: seq<Byte>)
    ensures Register(c, data) == Feed(c, Bits(data))
    decreases data
  {
    if data != [] {
      PowersOfTwo();
      ShiftBitsIsFeed(c, data[0], 8);
      FeedConcat(c, BitsOf(data[0], 8), Bits(data[1..]));
      RegisterIsFeed(Absorb(c, data[0]), data[1..]);
    }
  }

  // ----- Error detection -----

  function XorBits(a: seq<Bit>, b: seq<Bit>): (e: seq<Bit>)
    requires |a| == |b|
    ensures |e| == |a|
    ensures forall i :: 0 <= i < |a| ==> e[i] == if a[i] == b[i] then 0 else 1
  {
    seq(|a|, i requires 0 <= i < |a| => if a[i] == b[i] then 0 else 1)
  }

  lemma {:induction false} FeedLinear(c: Word, d: Word, a: seq<Bit>, b: seq<Bit>)
    requires |a| == |b|
    ensures XorWord(Feed(c, a), Feed(d, b)) == Feed(XorWord(c, d), XorBits(a, b))
    decreases a
  {
    if a != [] {
      var e := XorBits(a, b);
      assert e[1..] == XorBits(a[1..], b[1..]);
      assert e[0] == Xor(a[0], b[0]);
      XorInterchange(c, d, a[0], b[0]);
      ShiftBitLinear(XorWord(c, a[0]), XorWord(d, b[0]));
      FeedLinear(ShiftBit(XorWord(c, a[0])), ShiftBit(XorWord(d, b[0])), a[1..], b[1..]);
    }
  }

  /** Mixing in the polynomial always sets the top bit of a value that lacks it. */
  lemma PolynomialSetsTopBit(x: nat)
    requires x < 0x8000
    ensures Xor(x, 0x8408) >= 0x8000
  {
    PowersOfTwo();
    XorCommutes(x, 0x408);
    XorBound(x, 0x408, 15);
    XorDisjoint(1, 0x408, 15);
    XorAssociates(0x8000, 0x408, x);
    XorDisjoint(1, Xor(0x408, x), 15);
    XorCommutes(x, 0x8408);
  }

  /** Each shift can be undone, so it loses no information. */
  lemma ShiftBitInjective(a: Word, b: Word)
    requires ShiftBit(a) == ShiftBit(b)
    ensures a == b
  {
    ShiftBitLinear(a, b);
    XorIsZero(ShiftBit(a), ShiftBit(b));
    var d := XorWord(a, b);
    PolynomialSetsTopBit(d / 2);
    assert d == 0;
    XorIsZero(a, b);
  }

  function ValueOf(bits: seq<Bit>): nat {
    if bits == [] then 0 else bits[0] + 2 * ValueOf(bits[1..])
  }

  lemma {:induction false} ValueBound(bits: seq<Bit>)
    ensures ValueOf(bits) < Pow2(|bits|)
  {
    if bits != [] { ValueBound(bits[1..]); }
  }

  lemma {:induction false} ValueZero(bits: seq<Bit>)
    requires ValueOf(bits) == 0
    ensures forall i :: 0 <= i < |bits| ==> bits[i] == 0
  {
    if bits != [] {
      ValueZero(bits[1..]);
      assert forall i :: 0 < i < |bits| ==> bits[i] == bits[1..][i - 1];
    }
  }

  /** At most sixteen bits can drive the register to zero only by spelling out its own value. */
  lemma {:induction false} ClearedBy(d: Word, e: seq<Bit>)
    requires |e| <= 16
    requires Feed(d, e) == 0
    ensures d == ValueOf(e)
    decreases e
  {
    if e != [] {
      var x := XorWord(d, e[0]);
      ClearedBy(ShiftBit(x), e[1..]);
      ValueBound(e[1..]);
      Pow2Monotone(|e| - 1, 15);
      PowersOfTwo();
      var v := ValueOf(e[1..]);
      if x % 2 == 1 {
        PolynomialSetsTopBit(x / 2);
        assert false;
      }
      assert x == 2 * v;
      XorAssociates(d, e[0], e[0]);
      XorIsZero(e[0], e[0]);
      XorZero(d);
      assert Pow2(1) == 2;
      XorDisjoint(v, e[0], 1);
    }
  }

  lemma {:induction false} Pow2Monotone(m: nat, n: nat)
    requires m <= n
    ensures Pow2(m) <= Pow2(n)
  {
    if m < n { Pow2Monotone(m, n - 1); }
  }

  lemma {:induction false} FeedZeros(d: Word, zeros: seq<Bit>)
    requires forall i :: 0 <= i < |zeros| ==> zeros[i] == 0
    ensures Feed(d, zeros) == 0 <==> d == 0
    decreases zeros
  {
    if zeros != [] {
      XorZero(d);
      if ShiftBit(d) == 0 { ShiftBitInjective(d, 0); }
      FeedZeros(ShiftBit(d), zeros[1..]);
    }
  }

  /** The bits of a and b agree everywhere outside sixteen consecutive positions starting at p. */
  predicate DifferWithinBurst(a: seq<Bit>, b: seq<Bit>, p: nat) {
    && |a| == |b|
    && (forall i :: 0 <= i < |a| && !(p <= i < p + 16) ==> a[i] == b[i])
  }

  lemma BurstOfBits(c: Word, a: seq<Bit>, b: seq<Bit>, p: nat)
    requires DifferWithinBurst(a, b, p)
    requires Feed(c, a) == Feed(c, b)
    ensures a == b
  {
    var e := XorBits(a, b);
    var i := if p <= |e| then p else |e|;
    var j := if p + 16 <= |e| then p + 16 else |e|;
    hide ShiftBit, Xor, Feed, XorBits;
    FeedLinear(c, c, a, b);
    XorIsZero(c, c);
    XorIsZero(Feed(c, a), Feed(c, b));
    BurstIsZero(e, i, j);
    forall k | 0 <= k < |a| ensures a[k] == b[k] {
      if i <= k < j { assert e[k] == 0; }
    }
  }

  /** What the register does not notice, when only sixteen bits may be set: nothing. */
  lemma BurstIsZero(e: seq<Bit>, i: nat, j: nat)
    requires i <= j <= |e| && j - i <= 16
    requires forall k :: 0 <= k < |e| && !(i <= k < j) ==> e[k] == 0
    requires Feed(0, e) == 0
    ensures forall k :: i <= k < j ==> e[k] == 0
  {
    hide Feed, ValueOf;
    var (head, burst, tail) := (e[..i], e[i..j], e[j..]);
    assert e == head + (burst + tail);
    FeedConcat(0, head, burst + tail);
    FeedConcat(Feed(0, head), burst, tail);
    FeedZeros(0, head);
    FeedZeros(Feed(0, burst), tail);
    ClearedBy(0, burst);
    ValueZero(burst);
    forall k | i <= k < j ensures e[k] == 0 {
      assert e[k] == burst[k - i];
    }
  }

  lemma {:induction false} BitsInjective(u: seq<Byte>, v: seq<Byte>)
    requires |u| == |v| && Bits(u) == Bits(v)
    ensures u == v
  {
    if u != [] {
      PowersOfTwo();
      var a, b := BitsOf(u[0], 8), BitsOf(v[0], 8);
      assert Bits(u)[..8] == a && Bits(u)[8..] == Bits(u[1..]);
      assert Bits(v)[..8] == b && Bits(v)[8..] == Bits(v[1..]);
      ValueOfBits(u[0], 8);
      ValueOfBits(v[0], 8);
      BitsInjective(u[1..], v[1..]);
      assert u == [u[0]] + u[1..] && v == [v[0]] + v[1..];
    }
  }

  lemma {:induction false} ValueOfBits(w: Word, n: nat)
    requires w < Pow2(n)
    ensures ValueOf(BitsOf(w, n)) == w
    decreases n
  {
    if n > 0 {
      assert BitsOf(w, n)[1..] == BitsOf(w / 2, n - 1);
      ValueOfBits(w / 2, n - 1);
    }
  }

  /** No error burst of up to sixteen consecutive bits goes unnoticed. */
  lemma BurstDetected(u: seq<Byte>, v: seq<Byte>, p: nat)
    requires DifferWithinBurst(Bits(u), Bits(v), p)
    ensures Checksum(u) == Checksum(v) <==> u == v
  {
    assert |u| == |v|;
    if Checksum(u) == Checksum(v) {
      var f := 0xFFFF;
      var x, y := Register(f, u), Register(f, v);
      XorIsZero(f, f);
      XorAssociates(x, f, f);
      XorAssociates(y, f, f);
      XorZero(x);
      XorZero(y);
      RegisterIsFeed(f, u);
      RegisterIsFeed(f, v);
      BurstOfBits(f, Bits(u), Bits(v), p);
      BitsInjective(u, v);
    }
  }

  lemma {:induction false} ShiftBitsZero(n: nat)
    ensures ShiftBits(0, n) == 0
  {
    if n > 0 { ShiftBitsZero(n - 1); }
  }

  const GENERATOR_MASK: seq<Byte> := [0x11, 0x08, 0x01]

  /** The mask spells out the whole generator polynomial, so the register swallows it. */
  lemma MaskSwallowed()
    ensures Register(0, GENERATOR_MASK) == 0
  {
    assert GENERATOR_MASK[1..] == [0x08, 0x01] && GENERATOR_MASK[1..][1..] == [0x01];
    assert Pow2(7) == 0x80;
    FirstMaskByte();
    SecondMaskByte();
    assert Absorb(1, 0x01) == 0 by {
      XorIsZero(1, 1);
      ShiftBitsZero(8);
    }
  }

  lemma SecondMaskByte()
    ensures Absorb(0x108, 0x08) == 1
  {
    assert Pow2(8) == 0x100;
    XorByte(1, 8, 8);
    XorIsZero(8, 8);
    ShiftOut(1, 8);
  }

  lemma FirstMaskByte()
    ensures Absorb(0, 0x11) == 0x108
  {
    assert Pow2(7) == 0x80;
    XorZero(0x11);
    XorCommutes(0x8, 0x8408);
    XorByte(0x84, 0x8, 0x8);
    XorIsZero(0x8, 0x8);
    assert ShiftBit(0x11) == 0x8400;
    ShiftOut(0x108, 7);
  }

  /** Sixteen is the best possible: this seventeen-bit burst, laid over any three bytes, is missed. */
  lemma SeventeenBitsMissed(u: seq<Byte>)
    requires |u| == 3
    ensures XorBytes(u, GENERATOR_MASK) != u
    ensures Checksum(XorBytes(u, GENERATOR_MASK)) == Checksum(u)
  {
    var mask := GENERATOR_MASK;
    MaskSwallowed();
    RegisterLinear(0xFFFF, 0, u, mask);
    XorZero(0xFFFF);
    XorZero(Register(0xFFFF, u));
    if Xor(u[0], 0x11) == u[0] {
      XorCommutes(u[0], 0x11);
      XorAssociates(0x11, u[0], u[0]);
      XorIsZero(u[0], u[0]);
      XorZero(0x11);
      assert false;
    }
  }
}

/** What the checksum is of particular messages: it is fixed by them, start value, polynomial, final
    complement and all. The register is followed here by plain arithmetic. */
module Gt06CrcValues {
  import opened Gt06Crc

  /** Turns one binary digit over. */
  function Flip(x: nat, place: nat): nat
    requires place > 0
  {
    if x / place % 2 == 1 && x >= place then x - place else x + place
  }

  lemma {:induction false} XorFlips(x: nat, n: nat)
    ensures Xor(x, Pow2(n)) == Flip(x, Pow2(n))
    decreases n
  {
    if n == 0 {
      XorZero(x / 2);
    } else {
      var half := Pow2(n - 1);
      assert Pow2(n) == 2 * half;
      hide *;
      XorFlips(x / 2, n - 1);
      HalfFlips(x, half);
      XorEven(x, half);
    }
  }

  lemma XorEven(x: nat, half: nat)
    requires half > 0
    ensures Xor(x, 2 * half) == x % 2 + 2 * Xor(x / 2, half)
  {
    hide Xor;
    XorDigits(x, 2 * half);
    assert 2 * half % 2 == 0 && 2 * half / 2 == half;
  }

  lemma HalfFlips(x: nat, half: nat)
    requires half > 0
    ensures Flip(x, 2 * half) == x % 2 + 2 * Flip(x / 2, half)
  {
    var (q, r) := (x / 2 / half, x / 2 % half);
    assert x == q * (2 * half) + (2 * r + x % 2) by {
      assert x / 2 == q * half + r;
    }
    QuotientIs(x, 2 * half, q, 2 * r + x % 2);
    QuotientIs(x / 2, half, q, r);
  }

  lemma QuotientIs(x: nat, d: nat, q: nat, r: nat)
    requires d > 0 && r < d && x == q * d + r
    ensures x / d == q
    ensures x >= d <==> q >= 1
  {
    assert (q - x / d) * d == x % d - r;
    Multiple(q - x / d, d);
  }

  lemma Multiple(k: int, d: nat)
    ensures k != 0 ==> k * d >= d || k * d + d <= 0
  {
    if k >= 1 {
      assert (k - 1) * d >= 0;
    } else if k <= -1 {
      assert (k + 1) * d <= 0;
    }
  }

  /** One step of the register on one more bit of the message. */
  function Fed(c: nat, bit: nat): nat {
    if c % 2 == bit % 2 then c / 2 else Flip(Flip(Flip(c / 2, 8), 0x400), 0x8000)
  }

  /** The register after the lowest n bits of a byte, lowest first. */
  function FedAll(c: nat, b: nat, n: nat): nat
    decreases n
  {
    if n == 0 then c else FedAll(Fed(c, b), b / 2, n - 1)
  }

  lemma PolynomialFlips(x: nat)
    ensures Xor(x, 0x8408) == Flip(Flip(Flip(x, 8), 0x400), 0x8000)
  {
    assert Pow2(3) == 8 && Pow2(10) == 0x400 && Pow2(15) == 0x8000 by {
      assert Pow2(6) == 0x40;
      PowersOfTwo();
      assert Pow2(9) == 0x200;
    }
    XorFlips(x, 3);
    XorFlips(Xor(x, 8), 10);
    XorFlips(Xor(Xor(x, 8), 0x400), 15);
    XorFlips(8, 10);
    XorFlips(0x408, 15);
    XorAssociates(x, 8, 0x400);
    XorAssociates(x, 0x408, 0x8000);
  }

  lemma FedIsShift(c: Word, bit: Bit)
    ensures Fed(c, bit) == ShiftBit(XorWord(c, bit))
  {
    XorDigits(c, bit);
    XorZero(c / 2);
    PolynomialFlips(c / 2);
    hide Xor, Flip;
  }

  lemma {:induction false} FedAllIsFeed(c: Word, b: Word, n: nat)
    ensures FedAll(c, b, n) == Feed(c, BitsOf(b, n))
    decreases n
  {
    if n > 0 {
      assert BitsOf(b, n)[0] == b % 2 && BitsOf(b, n)[1..] == BitsOf(b / 2, n - 1);
      FedIsShift(c, b % 2);
      assert Fed(c, b) == Fed(c, b % 2);
      hide Fed, ShiftBit, XorWord;
      FedAllIsFeed(Fed(c, b), b / 2, n - 1);
    }
  }

  lemma FedAllIsAbsorb(c: Word, b: Byte)
    ensures FedAll(c, b, 8) == Absorb(c, b)
  {
    PowersOfTwo();
    ShiftBitsIsFeed(c, b, 8);
    FedAllIsFeed(c, b, 8);
  }

  /** The register while one byte goes in, bit by bit. */
  lemma Trace(b: Byte, c0: Word, c1: Word, c2: Word, c3: Word, c4: Word, c5: Word, c6: Word, c7: Word, c8: Word)
    requires c1 == Fed(c0, b) && c2 == Fed(c1, b / 2) && c3 == Fed(c2, b / 4) && c4 == Fed(c3, b / 8)
    requires c5 == Fed(c4, b / 16) && c6 == Fed(c5, b / 32) && c7 == Fed(c6, b / 64) && c8 == Fed(c7, b / 128)
    ensures Absorb(c0, b) == c8
  {
    hide Fed;
    FedAllIsAbsorb(c0, b);
    var b4 := b / 2 / 2 / 2 / 2;
    assert b / 4 == b / 2 / 2 && b / 8 == b / 2 / 2 / 2 && b / 16 == b4;
    assert b / 32 == b4 / 2 && b / 64 == b4 / 2 / 2 && b / 128 == b4 / 2 / 2 / 2;
    hide Absorb;
    assert FedAll(c0, b, 8) == FedAll(c4, b4, 4) by {
      assert FedAll(c0, b, 8) == FedAll(c1, b / 2, 7) == FedAll(c2, b / 2 / 2, 6);
      assert FedAll(c2, b / 2 / 2, 6) == FedAll(c3, b / 2 / 2 / 2, 5) == FedAll(c4, b4, 4);
    }
    assert FedAll(c4, b4, 4) == FedAll(c5, b4 / 2, 3) == FedAll(c6, b4 / 2 / 2, 2);
    assert FedAll(c6, b4 / 2 / 2, 2) == FedAll(c7, b4 / 2 / 2 / 2, 1) == FedAll(c8, b4 / 2 / 2 / 2 / 2, 0);
  }

  lemma Digits123()
    ensures Absorb(Absorb(Absorb(0xFFFF, 0x31), 0x32), 0x33) == 0x634B
  {
    hide Absorb, FedAll;
    Trace(0x31, 0xFFFF, 0x7FFF, 0xBBF7, 0xD9F3, 0xE8F1, 0x7478, 0xBE34, 0x5F1A, 0x2F8D);
    Trace(0x32, 0x2F8D, 0x93CE, 0xCDEF, 0xE2FF, 0xF577, 0x7ABB, 0x3D5D, 0x9AA6, 0x4D53);
    Trace(0x33, 0x4D53, 0x26A9, 0x1354, 0x9AA, 0x4D5, 0x26A, 0x853D, 0xC696, 0x634B);
  }

  lemma Digits456()
    ensures Absorb(Absorb(Absorb(0x634B, 0x34), 0x35), 0x36) == 0x198D
  {
    hide Absorb, FedAll;
    Trace(0x34, 0x634B, 0xB5AD, 0xDEDE, 0xEB67, 0xF1BB, 0x78DD, 0x3C6E, 0x1E37, 0x8B13);
    Trace(0x35, 0x8B13, 0x4589, 0xA6CC, 0xD76E, 0x6BB7, 0x35DB, 0x1AED, 0x897E, 0x44BF);
    Trace(0x36, 0x44BF, 0xA657, 0x532B, 0x2995, 0x90C2, 0xCC69, 0x6634, 0x331A, 0x198D);
  }

  lemma Digits789()
    ensures Absorb(Absorb(Absorb(0x198D, 0x37), 0x38), 0x39) == 0x6F91
  {
    hide Absorb, FedAll;
    Trace(0x37, 0x198D, 0xCC6, 0x826B, 0x4135, 0xA492, 0xD641, 0x6B20, 0x3590, 0x1AC8);
    Trace(0x38, 0x1AC8, 0xD64, 0x6B2, 0x359, 0x1AC, 0x84DE, 0xC667, 0xE73B, 0xF795);
    Trace(0x39, 0xF795, 0x7BCA, 0x3DE5, 0x9AFA, 0xC975, 0x64BA, 0xB655, 0xDF22, 0x6F91);
  }

  const CHECK_INPUT: seq<Byte> := [0x31, 0x32, 0x33, 0x34, 0x35, 0x36, 0x37, 0x38, 0x39]

  lemma {:induction false} RegisterConcat(c: Word, a: seq<Byte>, b: seq<Byte>)
    ensures Register(c, a + b) == Register(Register(c, a), b)
    decreases a
  {
    if a == [] {
      assert a + b == b;
    } else {
      assert (a + b)[1..] == a[1..] + b;
      RegisterConcat(Absorb(c, a[0]), a[1..], b);
    }
  }

  lemma RegisterOfTwo(c: Word, x: Byte, y: Byte)
    ensures Register(c, [x, y]) == Absorb(Absorb(c, x), y)
  {
    hide Absorb;
    assert [x, y][1..] == [y] && [y][1..] == [];
    assert Register(Absorb(c, x), [y]) == Register(Absorb(Absorb(c, x), y), []);
  }

  lemma RegisterOfThree(c: Word, x: Byte, y: Byte, z: Byte)
    ensures Register(c, [x, y, z]) == Absorb(Absorb(Absorb(c, x), y), z)
  {
    hide Absorb;
    assert [x, y, z][1..] == [y, z];
    RegisterOfTwo(Absorb(c, x), y, z);
  }

  /** Against all ones the exclusive or is the difference. */
  lemma {:induction false} OnesMinus(c: nat, n: nat)
    requires c < Pow2(n)
    ensures Xor(c, Pow2(n) - 1) == Pow2(n) - 1 - c
    decreases n
  {
    if n > 0 {
      OnesMinus(c / 2, n - 1);
    }
  }

  lemma Complement(c: Word)
    ensures XorWord(c, 0xFFFF) == 0xFFFF - c
  {
    PowersOfTwo();
    OnesMinus(c, 16);
  }

  /** The check value of CRC-16/X-25: what the digits one to nine come to. */
  lemma KnownAnswer()
    ensures Checksum(CHECK_INPUT) == 0x906E
  {
    var (a, b, c) := ([0x31, 0x32, 0x33], [0x34, 0x35, 0x36], [0x37, 0x38, 0x39]);
    assert CHECK_INPUT == a + (b + c);
    hide Absorb, Register, XorWord;
    RegisterConcat(0xFFFF, a, b + c);
    RegisterConcat(0x634B, b, c);
    RegisterOfThree(0xFFFF, 0x31, 0x32, 0x33);
    RegisterOfThree(0x634B, 0x34, 0x35, 0x36);
    RegisterOfThree(0x198D, 0x37, 0x38, 0x39);
    Digits123();
    Digits456();
    Digits789();
    Complement(0x6F91);
  }

  lemma NothingIsZero()
    ensures Checksum([]) == 0
  {
    hide XorWord;
    Complement(0xFFFF);
  }

  lemma {:induction false} BitsSplit(high: nat, low: nat, m: nat, n: nat)
    requires low < Pow2(m) && Pow2(m) * high + low < 0x1_0000
    ensures high < 0x1_0000 && low < 0x1_0000
    ensures BitsOf(Pow2(m) * high + low, m + n) == BitsOf(low, m) + BitsOf(high, n)
    decreases m
  {
    if m > 0 {
      hide BitsOf;
      var upper := Pow2(m - 1) * high;
      assert Pow2(m) * high == 2 * upper;
      BitsSplit(high, low / 2, m - 1, n);
      FirstBit(upper, low, m + n);
      FirstBit(0, low, m);
      assert upper + low / 2 == Pow2(m - 1) * high + low / 2;
      assert [low % 2] + (BitsOf(low / 2, m - 1) + BitsOf(high, n)) == [low % 2] + BitsOf(low / 2, m - 1) + BitsOf(high, n);
    }
  }

  lemma FirstBit(upper: nat, low: nat, n: nat)
    requires 2 * upper + low < 0x1_0000 && n > 0
    ensures BitsOf(2 * upper + low, n) == [low % 2] + BitsOf(upper + low / 2, n - 1)
  {
    assert (2 * upper + low) % 2 == low % 2 && (2 * upper + low) / 2 == upper + low / 2;
  }

  lemma TwoBytesIn(c: Word, w: Word)
    ensures Register(c, [w % 0x100, w / 0x100]) == ShiftBits(XorWord(c, w), 16)
  {
    hide Register, Feed, ShiftBits, Absorb, XorWord, BitsOf;
    var data: seq<Byte> := [w % 0x100, w / 0x100];
    PowersOfTwo();
    RegisterIsFeed(c, data);
    assert data[1..] == [w / 0x100] && data[1..][1..] == [];
    assert Bits(data[1..]) == BitsOf(w / 0x100, 8) + Bits(data[1..][1..]);
    assert Bits(data) == BitsOf(w % 0x100, 8) + BitsOf(w / 0x100, 8);
    BitsSplit(w / 0x100, w % 0x100, 8, 8);
    ShiftBitsIsFeed(c, w, 16);
  }

  lemma ResidueOfOnes()
    ensures ShiftBits(0xFFFF, 16) == 0xF0B8
  {
    hide Register, ShiftBits, Absorb, FedAll, Xor;
    XorZero(0xFFFF);
    TwoBytesIn(0xFFFF, 0);
    RegisterOfTwo(0xFFFF, 0, 0);
    Trace(0x00, 0xFFFF, 0xFBF7, 0xF9F3, 0xF8F1, 0xF870, 0x7C38, 0x3E1C, 0x1F0E, 0xF87);
    Trace(0x00, 0xF87, 0x83CB, 0xC5ED, 0xE6FE, 0x737F, 0xBDB7, 0xDAD3, 0xE961, 0xF0B8);
  }

  /** The good FCS of section C.2 of RFC 1662: a message followed by its own checksum, low byte first,
      always leaves the same in the register. */
  lemma GoodResidue(data: seq<Byte>)
    ensures var crc := Checksum(data); Register(0xFFFF, data + [crc % 0x100, crc / 0x100]) == 0xF0B8
  {
    var c := Register(0xFFFF, data);
    var crc := Checksum(data);
    XorAssociates(c, c, 0xFFFF);
    XorIsZero(c, c);
    XorZero(0xFFFF);
    assert XorWord(c, crc) == 0xFFFF;
    hide Register, ShiftBits, Absorb, Xor;
    RegisterConcat(0xFFFF, data, [crc % 0x100, crc / 0x100]);
    TwoBytesIn(c, crc);
    ResidueOfOnes();
  }

  lemma LengthAndTypeIn()
    ensures Absorb(Absorb(0xFFFF, 5), 1) == 0x9F89
  {
    hide Absorb, FedAll;
    Trace(0x05, 0xFFFF, 0x7FFF, 0xBBF7, 0x5DFB, 0xAAF5, 0xD172, 0x68B9, 0xB054, 0x582A);
    Trace(0x01, 0x582A, 0xA81D, 0xD006, 0x6803, 0xB009, 0xDC0C, 0x6E06, 0x3703, 0x9F89);
  }

  lemma SerialIn()
    ensures Absorb(Absorb(0x9F89, 0), 1) == 0x2623
  {
    hide Absorb, FedAll;
    Trace(0x00, 0x9F89, 0xCBCC, 0x65E6, 0x32F3, 0x9D71, 0xCAB0, 0x6558, 0x32AC, 0x1956);
    Trace(0x01, 0x1956, 0x88A3, 0xC059, 0xE424, 0x7212, 0x3909, 0x988C, 0x4C46, 0x2623);
  }

  /** What the answer to the login with serial number one is sealed with. */
  lemma LoginAnswer()
    ensures Checksum([5, 1, 0, 1]) == 0xD9DC
  {
    var (a, b) := ([5, 1], [0, 1]);
    assert [5, 1, 0, 1] == a + b;
    hide Absorb, Register, XorWord;
    RegisterConcat(0xFFFF, a, b);
    RegisterOfTwo(0xFFFF, 5, 1);
    RegisterOfTwo(0x9F89, 0, 1);
    LengthAndTypeIn();
    SerialIn();
    Complement(0x2623);
  }
}

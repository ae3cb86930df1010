/** CRC-32 as the protocol uses it: a bit-serial definition, the table that speeds it up,
    and the error patterns it is guaranteed to catch. */
module Crc32 {

  import opened Octets

  const POLYNOMIAL: bv32 := 0xEDB88320
  const ONES: bv32 := 0xFFFF_FFFF

  function Xor(x: bv32, y: bv32): bv32 {
    x ^ y
  }

  /** One step of the reflected shift register. */
  function Step(x: bv32): bv32 {
    if x & 1 == 1 then (x >> 1) ^ POLYNOMIAL else x >> 1
  }

  function Steps(x: bv32, n: nat): bv32
    decreases n
  {
    if n == 0 then x else Steps(Step(x), n - 1)
  }

  function BitWord(bit: bool): bv32 {
    if bit then 1 else 0
  }

  /** The definition: message bits enter the register one at a time. */
  function FeedBits(register: bv32, bits: seq<bool>): bv32
    decreases bits
  {
    if bits == [] then register else FeedBits(Step(Xor(register, BitWord(bits[0]))), bits[1..])
  }

  /** The bits of one byte, least significant first. */
  function ByteBits(b: Byte): (bits: seq<bool>)
    ensures |bits| == 8
  {
    [b & 1 == 1, (b >> 1) & 1 == 1, (b >> 2) & 1 == 1, (b >> 3) & 1 == 1,
     (b >> 4) & 1 == 1, (b >> 5) & 1 == 1, (b >> 6) & 1 == 1, (b >> 7) & 1 == 1]
  }

  function Bits(data: Bytes): (bits: seq<bool>)
    ensures |bits| == 8 * |data|
  {
    if data == [] then [] else ByteBits(data[0]) + Bits(data[1..])
  }

  /** CRC-32 of a byte string, section 8 of RFC 1952. */
  function Crc(data: Bytes): bv32 {
    Xor(FeedBits(ONES, Bits(data)), ONES)
  }

  // ---------------------------------------------------------------- words
  // Raw facts are stated on variables, apart from the functions they are about:
  // the solver is quick on pure bit-vector goals and slow on mixed ones.

  function Double(x: bv32): bv32 {
    x << 1
  }

  function DoubleAndOne(x: bv32): bv32 {
    (x << 1) | 1
  }

  predicate TopClear(x: bv32) {
    x & 0x8000_0000 == 0
  }

  predicate AtMost(x: bv32, y: bv32) {
    x <= y
  }

  lemma XorDef(x: bv32, y: bv32, sum: bv32)
    requires sum == Xor(x, y)
    ensures sum == x ^ y
  {
  }

  lemma StepDef(x: bv32, x': bv32)
    requires x' == Step(x)
    ensures x & 1 == 1 ==> x' == (x >> 1) ^ POLYNOMIAL
    ensures x & 1 == 0 ==> x' == x >> 1
    ensures x & 1 == 0 || x & 1 == 1
  {
  }

  lemma OddOdd(x: bv32, y: bv32, sum: bv32)
    requires x & 1 == 1 && y & 1 == 1 && sum == x ^ y
    ensures sum & 1 == 0
    ensures sum >> 1 == ((x >> 1) ^ POLYNOMIAL) ^ ((y >> 1) ^ POLYNOMIAL)
  {
  }

  lemma OddEven(x: bv32, y: bv32, sum: bv32)
    requires x & 1 == 1 && y & 1 == 0 && sum == x ^ y
    ensures sum & 1 == 1
    ensures (sum >> 1) ^ POLYNOMIAL == ((x >> 1) ^ POLYNOMIAL) ^ (y >> 1)
    ensures (sum >> 1) ^ POLYNOMIAL == (y >> 1) ^ ((x >> 1) ^ POLYNOMIAL)
  {
  }

  lemma EvenEven(x: bv32, y: bv32, sum: bv32)
    requires x & 1 == 0 && y & 1 == 0 && sum == x ^ y
    ensures sum & 1 == 0
    ensures sum >> 1 == (x >> 1) ^ (y >> 1)
  {
  }

  lemma RawLinear(x: bv32, y: bv32, sum: bv32, x': bv32, y': bv32, sum': bv32)
    requires sum == x ^ y
    requires (x & 1 == 1 && x' == (x >> 1) ^ POLYNOMIAL) || (x & 1 == 0 && x' == x >> 1)
    requires (y & 1 == 1 && y' == (y >> 1) ^ POLYNOMIAL) || (y & 1 == 0 && y' == y >> 1)
    requires (sum & 1 == 1 && sum' == (sum >> 1) ^ POLYNOMIAL) || (sum & 1 == 0 && sum' == sum >> 1)
    ensures sum' == x' ^ y'
  {
    if x & 1 == 1 {
      if y & 1 == 1 {
        OddOdd(x, y, sum);
      } else {
        OddEven(x, y, sum);
      }
    } else if y & 1 == 1 {
      OddEven(y, x, sum);
    } else {
      EvenEven(x, y, sum);
    }
  }

  lemma StepIsLinear(x: bv32, y: bv32)
    ensures Step(Xor(x, y)) == Xor(Step(x), Step(y))
  {
    hide Xor, Step;
    var sum, x', y' := Xor(x, y), Step(x), Step(y);
    var sum', goal := Step(sum), Xor(x', y');
    XorDef(x, y, sum);
    XorDef(x', y', goal);
    StepDef(x, x');
    StepDef(y, y');
    StepDef(sum, sum');
    RawLinear(x, y, sum, x', y', sum');
  }

  lemma RawAssociates(x: bv32, y: bv32, z: bv32, xy: bv32, yz: bv32, left: bv32, right: bv32)
    requires xy == x ^ y && yz == y ^ z && left == xy ^ z && right == x ^ yz
    ensures left == right
  {
  }

  lemma XorAssociates(x: bv32, y: bv32, z: bv32)
    ensures Xor(Xor(x, y), z) == Xor(x, Xor(y, z))
  {
    hide Xor;
    var xy, yz := Xor(x, y), Xor(y, z);
    var left, right := Xor(xy, z), Xor(x, yz);
    XorDef(x, y, xy);
    XorDef(y, z, yz);
    XorDef(xy, z, left);
    XorDef(x, yz, right);
    RawAssociates(x, y, z, xy, yz, left, right);
  }

  lemma XorCommutes(x: bv32, y: bv32)
    ensures Xor(x, y) == Xor(y, x)
    ensures Xor(x, y) == 0 <==> x == y
  {
    hide Xor;
    var xy, yx := Xor(x, y), Xor(y, x);
    XorDef(x, y, xy);
    XorDef(y, x, yx);
  }

  lemma XorPairs(r: bv32, s: bv32, a: bv32, b: bv32)
    ensures Xor(Xor(r, a), Xor(s, b)) == Xor(Xor(r, s), Xor(a, b))
  {
    hide Xor;
    calc {
      Xor(Xor(r, a), Xor(s, b));
      { XorAssociates(r, a, Xor(s, b)); }
      Xor(r, Xor(a, Xor(s, b)));
      { XorAssociates(a, s, b); XorCommutes(a, s); XorAssociates(s, a, b); }
      Xor(r, Xor(s, Xor(a, b)));
      { XorAssociates(r, s, Xor(a, b)); }
      Xor(Xor(r, s), Xor(a, b));
    }
  }

  lemma XorBits(a: bool, b: bool)
    ensures Xor(BitWord(a), BitWord(b)) == BitWord(a != b)
  {
  }

  lemma DoubleDef(x: bv32, d: bv32)
    requires d == Double(x)
    ensures d == x << 1
  {
  }

  lemma DoubleAndOneDef(x: bv32, d: bv32)
    requires d == DoubleAndOne(x)
    ensures d == (x << 1) | 1
  {
  }

  lemma TopClearDef(x: bv32)
    ensures TopClear(x) <==> x & 0x8000_0000 == 0
  {
  }

  lemma StepOfDouble(x: bv32)
    requires TopClear(x)
    ensures Step(Double(x)) == x
  {
    hide Step, Double, TopClear;
    var d := Double(x);
    var x' := Step(d);
    TopClearDef(x);
    DoubleDef(x, d);
    StepDef(d, x');
  }

  lemma StepUndone(z: bv32)
    requires TopClear(Step(z))
    ensures z == Double(Step(z))
  {
    hide Step, Double, TopClear;
    var z' := Step(z);
    var d := Double(z');
    TopClearDef(z');
    DoubleDef(z', d);
    StepDef(z, z');
  }

  // ---------------------------------------------------------------- runs of bits

  /** The binary number a run of bits spells, least significant bit first. */
  function Word(bits: seq<bool>): bv32 {
    if bits == [] then 0 else Xor(BitWord(bits[0]), Double(Word(bits[1..])))
  }

  /** `x` can be doubled, each time appending a one, `n` times without losing its top bit. */
  predicate Room(x: bv32, n: nat)
    decreases n
  {
    n == 0 || (TopClear(x) && Room((x << 1) | 1, n - 1))
  }

  lemma RoomForThirtyTwo()
    ensures Room(0, 32)
  {
    assert Room(0xFFFF, 16) by {
      assert Room(0xFF_FFFF, 8);
    }
  }

  lemma RoomShrinks(x: bv32, n: nat)
    requires n > 0 && Room(x, n)
    ensures TopClear(x) && Room(DoubleAndOne(x), n - 1)
  {
  }

  lemma RawDoubleFits(y: bv32, x: bv32, sum: bv32, limit: bv32)
    requires y <= x && x & 0x8000_0000 == 0
    requires sum | 1 == (y << 1) | 1 && limit == (x << 1) | 1
    ensures sum <= limit
  {
  }

  lemma LowBitOnly(bit: bv32, d: bv32, sum: bv32)
    requires (bit == 0 || bit == 1) && sum == bit ^ d
    ensures sum | 1 == d | 1
  {
  }

  lemma AtMostDef(x: bv32, y: bv32)
    ensures AtMost(x, y) <==> x <= y
  {
  }

  lemma DoubleFits(y: bv32, x: bv32, bit: bool)
    requires AtMost(y, x) && TopClear(x)
    ensures AtMost(Xor(BitWord(bit), Double(y)), DoubleAndOne(x))
  {
    hide Xor, Double, DoubleAndOne, TopClear, AtMost, BitWord;
    var b, d, limit := BitWord(bit), Double(y), DoubleAndOne(x);
    var sum := Xor(b, d);
    BitWordDef(bit, b);
    AtMostDef(y, x);
    TopClearDef(x);
    DoubleDef(y, d);
    XorDef(b, d, sum);
    DoubleAndOneDef(x, limit);
    RawSumFits(y, x, b, d, sum, limit);
    AtMostDef(sum, limit);
  }

  lemma RawSumFits(y: bv32, x: bv32, b: bv32, d: bv32, sum: bv32, limit: bv32)
    requires y <= x && x & 0x8000_0000 == 0 && (b == 0 || b == 1)
    requires d == y << 1 && sum == b ^ d && limit == (x << 1) | 1
    ensures sum <= limit
  {
    LowBitOnly(b, d, sum);
    RawDoubleFits(y, x, sum, limit);
  }

  lemma TopClearBelow(y: bv32, x: bv32)
    requires AtMost(y, x) && TopClear(x)
    ensures TopClear(y)
  {
  }

  /** A run of fewer than 32 bits leaves the top bit of the word clear. */
  lemma {:induction false} WordFits(bits: seq<bool>) returns (limit: bv32)
    requires |bits| <= 32
    ensures AtMost(Word(bits), limit) && Room(limit, 32 - |bits|)
    ensures |bits| < 32 ==> TopClear(Word(bits))
  {
    hide Xor, Double, DoubleAndOne, TopClear, AtMost, BitWord;
    if bits == [] {
      limit := 0;
      RoomForThirtyTwo();
      AtMostDef(0, 0);
    } else {
      var smaller := WordFits(bits[1..]);
      RoomShrinks(smaller, 33 - |bits|);
      DoubleFits(Word(bits[1..]), smaller, bits[0]);
      limit := DoubleAndOne(smaller);
    }
    if |bits| < 32 {
      RoomShrinks(limit, 32 - |bits|);
      TopClearBelow(Word(bits), limit);
    }
  }

  // ---------------------------------------------------------------- the table

  function TableEntry(index: bv32): bv32 {
    Steps(index, 8)
  }

  lemma {:induction false} StepsAreLinear(x: bv32, y: bv32, n: nat)
    ensures Steps(Xor(x, y), n) == Xor(Steps(x, n), Steps(y, n))
    decreases n
  {
    hide Xor, Step;
    if n > 0 {
      StepIsLinear(x, y);
      StepsAreLinear(Step(x), Step(y), n - 1);
    }
  }

  /** Feeding bits one by one is the same as adding them all at once and stepping. */
  lemma {:induction false} FeedAtOnce(register: bv32, bits: seq<bool>)
    requires |bits| <= 32
    ensures FeedBits(register, bits) == Steps(Xor(register, Word(bits)), |bits|)
    decreases bits
  {
    hide Xor, Step, Double, TopClear, AtMost, BitWord;
    if bits == [] {
      XorZero(register);
    } else {
      var bit, rest := BitWord(bits[0]), Word(bits[1..]);
      FeedAtOnce(Step(Xor(register, bit)), bits[1..]);
      var _ := WordFits(bits[1..]);
      StepOfDouble(rest);
      StepIsLinear(Xor(register, bit), Double(rest));
      XorAssociates(register, bit, Double(rest));
    }
  }

  lemma XorZero(x: bv32)
    ensures Xor(x, 0) == x == Xor(0, x)
  {
  }

  function Low(x: bv32): bv32 {
    x & 0xFF
  }

  function High(x: bv32): bv32 {
    x >> 8
  }

  function Doubles(x: bv32, n: nat): bv32
    decreases n
  {
    if n == 0 then x else Double(Doubles(x, n - 1))
  }

  lemma {:induction false} StepsOfDoubles(x: bv32, limit: bv32, n: nat) returns (limit': bv32)
    requires n <= 8 && AtMost(x, limit) && Room(limit, 8)
    ensures AtMost(Doubles(x, n), limit') && Room(limit', 8 - n)
    ensures Steps(Doubles(x, n), n) == x
    decreases n
  {
    hide Xor, Step, Double, DoubleAndOne, TopClear, AtMost;
    if n == 0 {
      limit' := limit;
    } else {
      var y := Doubles(x, n - 1);
      var smaller := StepsOfDoubles(x, limit, n - 1);
      RoomShrinks(smaller, 9 - n);
      TopClearBelow(y, smaller);
      StepOfDouble(y);
      DoubleFits(y, smaller, false);
      XorZero(Double(y));
      limit' := DoubleAndOne(smaller);
    }
  }

  lemma RawSplit(x: bv32, low: bv32, h: bv32, h1: bv32, h2: bv32, h3: bv32, h4: bv32,
                 h5: bv32, h6: bv32, h7: bv32, h8: bv32, sum: bv32)
    requires low == x & 0xFF && h == x >> 8
    requires h1 == h << 1 && h2 == h1 << 1 && h3 == h2 << 1 && h4 == h3 << 1
    requires h5 == h4 << 1 && h6 == h5 << 1 && h7 == h6 << 1 && h8 == h7 << 1
    requires sum == low ^ h8
    ensures sum == x && h <= 0xFF_FFFF
  {
  }

  lemma LowAndHigh(x: bv32)
    ensures x == Xor(Low(x), Doubles(High(x), 8))
    ensures AtMost(High(x), 0xFF_FFFF)
  {
    hide Xor, Double;
    var low, h := Low(x), High(x);
    var h1 := Double(h);
    var h2 := Double(h1);
    var h3 := Double(h2);
    var h4 := Double(h3);
    var h5 := Double(h4);
    var h6 := Double(h5);
    var h7 := Double(h6);
    var h8 := Double(h7);
    var sum := Xor(low, h8);
    DoubleDef(h, h1);
    DoubleDef(h1, h2);
    DoubleDef(h2, h3);
    DoubleDef(h3, h4);
    DoubleDef(h4, h5);
    DoubleDef(h5, h6);
    DoubleDef(h6, h7);
    DoubleDef(h7, h8);
    XorDef(low, h8, sum);
    RawSplit(x, low, h, h1, h2, h3, h4, h5, h6, h7, h8, sum);
    assert Doubles(h, 4) == h4;
    assert Doubles(h, 8) == h8;
  }

  /** Eight register steps are one table lookup and one shift. */
  lemma TableLookup(x: bv32)
    ensures Steps(x, 8) == Xor(TableEntry(Low(x)), High(x))
  {
    hide Xor, Step, Steps, Low, High, Doubles, AtMost;
    LowAndHigh(x);
    StepsAreLinear(Low(x), Doubles(High(x), 8), 8);
    assert Room(0xFF_FFFF, 8);
    var _ := StepsOfDoubles(High(x), 0xFF_FFFF, 8);
  }

  // ---------------------------------------------------------------- a byte at a time

  lemma {:induction false} FeedAppended(register: bv32, first: seq<bool>, second: seq<bool>)
    ensures FeedBits(register, first + second) == FeedBits(FeedBits(register, first), second)
    decreases first
  {
    hide Xor, Step, BitWord;
    if first == [] {
      assert first + second == second;
    } else {
      assert (first + second)[1..] == first[1..] + second;
      FeedAppended(Step(Xor(register, BitWord(first[0]))), first[1..], second);
    }
  }

  lemma {:induction false} BitsAppended(first: Bytes, second: Bytes)
    ensures Bits(first + second) == Bits(first) + Bits(second)
  {
    hide ByteBits;
    if first == [] {
      assert first + second == second;
    } else {
      assert (first + second)[1..] == first[1..] + second;
      BitsAppended(first[1..], second);
    }
  }

  lemma WordOfEight(bits: seq<bool>, w: bv32, w1: bv32, w2: bv32, w3: bv32, w4: bv32, w5: bv32, w6: bv32, w7: bv32)
    requires |bits| == 8
    requires w7 == Xor(BitWord(bits[7]), Double(0)) && w6 == Xor(BitWord(bits[6]), Double(w7))
    requires w5 == Xor(BitWord(bits[5]), Double(w6)) && w4 == Xor(BitWord(bits[4]), Double(w5))
    requires w3 == Xor(BitWord(bits[3]), Double(w4)) && w2 == Xor(BitWord(bits[2]), Double(w3))
    requires w1 == Xor(BitWord(bits[1]), Double(w2)) && w == Xor(BitWord(bits[0]), Double(w1))
    ensures w == Word(bits)
  {
    hide Xor, Double, BitWord;
    assert Word(bits[8..]) == 0;
    assert bits[7..][1..] == bits[8..] && Word(bits[7..]) == w7;
    assert bits[6..][1..] == bits[7..] && Word(bits[6..]) == w6;
    assert bits[5..][1..] == bits[6..] && Word(bits[5..]) == w5;
    assert bits[4..][1..] == bits[5..] && Word(bits[4..]) == w4;
    assert bits[3..][1..] == bits[4..] && Word(bits[3..]) == w3;
    assert bits[2..][1..] == bits[3..] && Word(bits[2..]) == w2;
    assert bits[1..][1..] == bits[2..] && Word(bits[1..]) == w1;
    assert bits[0..] == bits;
  }

  lemma BitWordDef(bit: bool, b: bv32)
    requires b == BitWord(bit)
    ensures b == if bit then 1 else 0
  {
  }

  /** `v` is `w` with one more low bit. */
  predicate Next(bit: bool, w: bv32, v: bv32) {
    v == (if bit then 1 else 0) ^ (w << 1)
  }

  lemma NextBit(bit: bool, w: bv32, v: bv32)
    requires v == Xor(BitWord(bit), Double(w))
    ensures Next(bit, w, v)
  {
    hide Xor, Double, BitWord;
    var b, d := BitWord(bit), Double(w);
    BitWordDef(bit, b);
    DoubleDef(w, d);
    XorDef(b, d, v);
  }

  lemma RawByte(b: Byte, c0: bool, c1: bool, c2: bool, c3: bool, c4: bool, c5: bool, c6: bool, c7: bool,
                w: bv32, w1: bv32, w2: bv32, w3: bv32, w4: bv32, w5: bv32, w6: bv32, w7: bv32)
    requires c0 == (b & 1 == 1) && c1 == ((b >> 1) & 1 == 1) && c2 == ((b >> 2) & 1 == 1)
    requires c3 == ((b >> 3) & 1 == 1) && c4 == ((b >> 4) & 1 == 1) && c5 == ((b >> 5) & 1 == 1)
    requires c6 == ((b >> 6) & 1 == 1) && c7 == ((b >> 7) & 1 == 1)
    requires Next(c7, 0, w7) && Next(c6, w7, w6) && Next(c5, w6, w5) && Next(c4, w5, w4)
    requires Next(c3, w4, w3) && Next(c2, w3, w2) && Next(c1, w2, w1) && Next(c0, w1, w)
    ensures w == b as bv32
  {
  }

  lemma ByteBitsSpell(b: Byte, bits: seq<bool>,
                      w: bv32, w1: bv32, w2: bv32, w3: bv32, w4: bv32, w5: bv32, w6: bv32, w7: bv32)
    requires bits == ByteBits(b)
    requires Next(bits[7], 0, w7) && Next(bits[6], w7, w6) && Next(bits[5], w6, w5) && Next(bits[4], w5, w4)
    requires Next(bits[3], w4, w3) && Next(bits[2], w3, w2) && Next(bits[1], w2, w1) && Next(bits[0], w1, w)
    ensures w == b as bv32
  {
    hide Next;
    RawByte(b, b & 1 == 1, (b >> 1) & 1 == 1, (b >> 2) & 1 == 1, (b >> 3) & 1 == 1, (b >> 4) & 1 == 1,
            (b >> 5) & 1 == 1, (b >> 6) & 1 == 1, (b >> 7) & 1 == 1, w, w1, w2, w3, w4, w5, w6, w7);
  }

  lemma WordOfByte(b: Byte)
    ensures Word(ByteBits(b)) == b as bv32
  {
    hide Xor, Double, BitWord, Word, ByteBits, Next;
    var bits := ByteBits(b);
    var w7 := Xor(BitWord(bits[7]), Double(0));
    var w6 := Xor(BitWord(bits[6]), Double(w7));
    var w5 := Xor(BitWord(bits[5]), Double(w6));
    var w4 := Xor(BitWord(bits[4]), Double(w5));
    var w3 := Xor(BitWord(bits[3]), Double(w4));
    var w2 := Xor(BitWord(bits[2]), Double(w3));
    var w1 := Xor(BitWord(bits[1]), Double(w2));
    var w := Xor(BitWord(bits[0]), Double(w1));
    WordOfEight(bits, w, w1, w2, w3, w4, w5, w6, w7);
    NextBit(bits[7], 0, w7);
    NextBit(bits[6], w7, w6);
    NextBit(bits[5], w6, w5);
    NextBit(bits[4], w5, w4);
    NextBit(bits[3], w4, w3);
    NextBit(bits[2], w3, w2);
    NextBit(bits[1], w2, w1);
    NextBit(bits[0], w1, w);
    ByteBitsSpell(b, bits, w, w1, w2, w3, w4, w5, w6, w7);
  }

  lemma SameHigh(crc: bv32, w: bv32, x: bv32)
    requires w <= 0xFF && x == crc ^ w
    ensures High(x) == High(crc)
  {
  }

  /** The table-driven update for one byte is eight bits of the definition. */
  lemma ByteUpdate(crc: bv32, b: Byte)
    ensures FeedBits(crc, ByteBits(b)) == Xor(TableEntry(Low(Xor(crc, b as bv32))), High(crc))
  {
    hide Xor, ByteBits, FeedBits, Steps, Word, Low, High;
    var w := b as bv32;
    var x := Xor(crc, w);
    FeedAtOnce(crc, ByteBits(b));
    WordOfByte(b);
    TableLookup(x);
    XorDef(crc, w, x);
    SameHigh(crc, w, x);
  }

  // ---------------------------------------------------------------- error detection

  function Differences(p: seq<bool>, q: seq<bool>): (d: seq<bool>)
    requires |p| == |q|
    ensures |d| == |p|
    ensures forall k :: 0 <= k < |d| ==> d[k] == (p[k] != q[k])
  {
    seq(|p|, k requires 0 <= k < |p| => p[k] != q[k])
  }

  lemma {:induction false} FeedDifferences(r: bv32, s: bv32, p: seq<bool>, q: seq<bool>)
    requires |p| == |q|
    ensures Xor(FeedBits(r, p), FeedBits(s, q)) == FeedBits(Xor(r, s), Differences(p, q))
    decreases p
  {
    hide Xor, Step, BitWord;
    if p != [] {
      var r', s' := Xor(r, BitWord(p[0])), Xor(s, BitWord(q[0]));
      assert Differences(p, q)[1..] == Differences(p[1..], q[1..]);
      FeedDifferences(Step(r'), Step(s'), p[1..], q[1..]);
      StepIsLinear(r', s');
      XorPairs(r, s, BitWord(p[0]), BitWord(q[0]));
      XorBits(p[0], q[0]);
    }
  }

  /** A register that at most 32 bits bring to zero held exactly those bits. */
  lemma {:induction false} OnlyItsOwnBitsClear(register: bv32, bits: seq<bool>)
    requires |bits| <= 32 && FeedBits(register, bits) == 0
    ensures register == Word(bits)
    decreases bits
  {
    hide Xor, Step, Double, TopClear, AtMost, BitWord;
    if bits != [] {
      var bit := BitWord(bits[0]);
      OnlyItsOwnBitsClear(Step(Xor(register, bit)), bits[1..]);
      var _ := WordFits(bits[1..]);
      StepUndone(Xor(register, bit));
      XorAssociates(bit, bit, register);
      XorCommutes(register, bit);
      XorCommutes(bit, bit);
      XorZero(register);
    }
  }

  lemma NonzeroWord(bit: bool, w: bv32, b: bv32, d: bv32)
    requires TopClear(w) && d == Double(w) && b == BitWord(bit) && Xor(b, d) == 0
    ensures !bit && w == 0
  {
    hide Xor, Double, TopClear;
    TopClearDef(w);
    DoubleDef(w, d);
    XorCommutes(b, d);
  }

  lemma {:induction false} ZeroWord(bits: seq<bool>)
    requires |bits| <= 32 && Word(bits) == 0
    ensures forall k :: 0 <= k < |bits| ==> !bits[k]
  {
    hide Xor, Double, TopClear, AtMost, BitWord;
    if bits != [] {
      var _ := WordFits(bits[1..]);
      NonzeroWord(bits[0], Word(bits[1..]), BitWord(bits[0]), Double(Word(bits[1..])));
      ZeroWord(bits[1..]);
    }
  }

  /** Zero bits neither create nor clear a difference. */
  lemma {:induction false} ZeroBitsAreHarmless(register: bv32, bits: seq<bool>)
    requires forall k :: 0 <= k < |bits| ==> !bits[k]
    ensures FeedBits(register, bits) == 0 <==> register == 0
    decreases bits
  {
    hide Xor, Step, Double, TopClear;
    if bits != [] {
      assert BitWord(bits[0]) == 0;
      XorZero(register);
      ZeroBitsAreHarmless(Step(register), bits[1..]);
      ZeroStep(register);
    }
  }

  lemma ZeroStep(x: bv32)
    ensures Step(x) == 0 <==> x == 0
  {
    hide Step;
    var x' := Step(x);
    StepDef(x, x');
  }

  lemma {:induction false} BitsDetermineBytes(p: Bytes, q: Bytes)
    requires |p| == |q| && Bits(p) == Bits(q)
    ensures p == q
  {
    hide ByteBits;
    if p != [] {
      var x, y := ByteBits(p[0]), ByteBits(q[0]);
      assert x == Bits(p)[..8] == Bits(q)[..8] == y;
      assert Bits(p[1..]) == Bits(p)[8..] == Bits(q)[8..] == Bits(q[1..]);
      WordOfByte(p[0]);
      WordOfByte(q[0]);
      BitsDetermineBytes(p[1..], q[1..]);
    }
  }

  /** No error confined to 32 consecutive bits goes unnoticed. */
  lemma BurstIsDetected(p: Bytes, q: Bytes, start: nat)
    requires |p| == |q| && p != q
    requires forall k :: 0 <= k < 8 * |p| && !(start <= k < start + 32) ==> Bits(p)[k] == Bits(q)[k]
    ensures Crc(p) != Crc(q)
  {
    hide Xor, Step, Bits, FeedBits, Word;
    var d := Differences(Bits(p), Bits(q));
    if Crc(p) == Crc(q) {
      var i := if start <= |d| then start else |d|;
      var j := if start + 32 <= |d| then start + 32 else |d|;
      SameCrc(p, q);
      assert d == d[..i] + (d[i..j] + d[j..]);
      FeedAppended(0, d[..i], d[i..j] + d[j..]);
      FeedAppended(0, d[i..j], d[j..]);
      ZeroBitsAreHarmless(0, d[..i]);
      ZeroBitsAreHarmless(FeedBits(0, d[i..j]), d[j..]);
      OnlyItsOwnBitsClear(0, d[i..j]);
      ZeroWord(d[i..j]);
      forall k | i <= k < j ensures !d[k] {
        assert d[i..j][k - i] == d[k];
      }
      assert Bits(p) == Bits(q);
      BitsDetermineBytes(p, q);
    }
  }

  lemma SameCrc(p: Bytes, q: Bytes)
    requires |p| == |q| && Crc(p) == Crc(q)
    ensures FeedBits(0, Differences(Bits(p), Bits(q))) == 0
  {
    hide Xor, Bits, FeedBits;
    var r, s := FeedBits(ONES, Bits(p)), FeedBits(ONES, Bits(q));
    XorPairs(r, s, ONES, ONES);
    XorCommutes(ONES, ONES);
    XorCommutes(Xor(r, ONES), Xor(s, ONES));
    XorZero(Xor(r, s));
    FeedDifferences(ONES, ONES, Bits(p), Bits(q));
  }

  lemma {:induction false} BitsOutsideWindow(p: Bytes, q: Bytes, first: int)
    requires |p| == |q|
    requires forall k :: 0 <= k < |p| && !(first <= k < first + 4) ==> p[k] == q[k]
    ensures forall k :: 0 <= k < 8 * |p| && !(8 * first <= k < 8 * first + 32) ==> Bits(p)[k] == Bits(q)[k]
  {
    hide ByteBits;
    if p != [] {
      BitsOutsideWindow(p[1..], q[1..], first - 1);
      forall k | 0 <= k < 8 * |p| && !(8 * first <= k < 8 * first + 32) ensures Bits(p)[k] == Bits(q)[k] {
        if k < 8 {
          assert !(first <= 0 < first + 4);
        } else {
          assert Bits(p)[k] == Bits(p[1..])[k - 8] && Bits(q)[k] == Bits(q[1..])[k - 8];
        }
      }
    }
  }

  /** Damage to any four consecutive bytes changes the checksum. */
  lemma FourByteDamageIsDetected(p: Bytes, q: Bytes, first: nat)
    requires |p| == |q| && p != q
    requires forall k :: 0 <= k < |p| && !(first <= k < first + 4) ==> p[k] == q[k]
    ensures Crc(p) != Crc(q)
  {
    hide Crc, Bits;
    BitsOutsideWindow(p, q, first);
    BurstIsDetected(p, q, 8 * first);
  }

  // ---------------------------------------------------------------- the check value

  /** What one byte makes of the register. */
  predicate Feeds(r: bv32, b: Byte, after: bv32) {
    Steps(Xor(r, b as bv32), 8) == after
  }

  lemma FedByte(r: bv32, b: Byte, after: bv32, rest: Bytes)
    requires Feeds(r, b, after)
    ensures FeedBits(r, Bits([b] + rest)) == FeedBits(after, Bits(rest))
  {
    hide Steps, FeedBits, ByteBits, Word, Xor;
    FeedAtOnce(r, ByteBits(b));
    WordOfByte(b);
    FeedAppended(r, ByteBits(b), Bits(rest));
    assert ([b] + rest)[1..] == rest;
  }

  lemma DigitsFeed()
    ensures Feeds(0xFFFFFFFF, 0x31, 0x7C231048)
    ensures Feeds(0x7C231048, 0x32, 0xB0ACBB32)
    ensures Feeds(0xB0ACBB32, 0x33, 0x77B79C2D)
    ensures Feeds(0x77B79C2D, 0x34, 0x641C1F5C)
    ensures Feeds(0x641C1F5C, 0x35, 0x340AC5E3)
    ensures Feeds(0x340AC5E3, 0x36, 0xF68D2C9E)
    ensures Feeds(0xF68D2C9E, 0x37, 0xAFFC9660)
    ensures Feeds(0xAFFC9660, 0x38, 0x651F2550)
    ensures Feeds(0x651F2550, 0x39, 0x340BC6D9)
  {
  }

  lemma FedThree(r: bv32, a: Byte, b: Byte, c: Byte, r1: bv32, r2: bv32, r3: bv32, rest: Bytes)
    requires Feeds(r, a, r1) && Feeds(r1, b, r2) && Feeds(r2, c, r3)
    ensures FeedBits(r, Bits([a, b, c] + rest)) == FeedBits(r3, Bits(rest))
  {
    hide Feeds, FeedBits, Bits;
    FedByte(r, a, r1, [b, c] + rest);
    FedByte(r1, b, r2, [c] + rest);
    FedByte(r2, c, r3, rest);
    assert [a] + ([b, c] + rest) == [a, b, c] + rest && [b] + ([c] + rest) == [b, c] + rest;
  }

  /** The published check value of CRC-32: the checksum of the digits 1 to 9 in ASCII. */
  lemma CheckValue()
    ensures Crc([0x31, 0x32, 0x33, 0x34, 0x35, 0x36, 0x37, 0x38, 0x39]) == 0xCBF4_3926
  {
    hide Feeds, FeedBits, Bits;
    DigitsFeed();
    var last: Bytes := [0x37, 0x38, 0x39];
    var middle: Bytes := [0x34, 0x35, 0x36];
    var first: Bytes := [0x31, 0x32, 0x33];
    FedThree(0xFFFFFFFF, 0x31, 0x32, 0x33, 0x7C231048, 0xB0ACBB32, 0x77B79C2D, middle + last);
    FedThree(0x77B79C2D, 0x34, 0x35, 0x36, 0x641C1F5C, 0x340AC5E3, 0xF68D2C9E, last);
    FedThree(0xF68D2C9E, 0x37, 0x38, 0x39, 0xAFFC9660, 0x651F2550, 0x340BC6D9, []);
    assert last + [] == last && first + (middle + last) == [0x31, 0x32, 0x33, 0x34, 0x35, 0x36, 0x37, 0x38, 0x39];
    NothingFed(0x340BC6D9);
    var sum := Xor(0x340BC6D9, ONES);
    XorDef(0x340BC6D9, ONES, sum);
    assert sum == 0xCBF4_3926;
  }

  lemma NothingFed(r: bv32)
    ensures FeedBits(r, Bits([])) == r
  {
  }
}

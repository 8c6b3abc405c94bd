/** The checksum of the serial telegrams: the table-driven CRC of CRC/crc.c, a bit-by-bit reference for it
    (reflected polynomial 0xA001, initial value 0xFFFF), the proof that they agree on every byte sequence, and
    the proof that no burst of up to sixteen bits goes unnoticed. */
module Crc {

  // The two tables of the source, sixteen entries a row.
  const CRC16_HI: seq<seq<bv8>> := [
    [0x00, 0xC1, 0x81, 0x40, 0x01, 0xC0, 0x80, 0x41, 0x01, 0xC0, 0x80, 0x41, 0x00, 0xC1, 0x81, 0x40],
    [0x01, 0xC0, 0x80, 0x41, 0x00, 0xC1, 0x81, 0x40, 0x00, 0xC1, 0x81, 0x40, 0x01, 0xC0, 0x80, 0x41],
    [0x01, 0xC0, 0x80, 0x41, 0x00, 0xC1, 0x81, 0x40, 0x00, 0xC1, 0x81, 0x40, 0x01, 0xC0, 0x80, 0x41],
    [0x00, 0xC1, 0x81, 0x40, 0x01, 0xC0, 0x80, 0x41, 0x01, 0xC0, 0x80, 0x41, 0x00, 0xC1, 0x81, 0x40],
    [0x01, 0xC0, 0x80, 0x41, 0x00, 0xC1, 0x81, 0x40, 0x00, 0xC1, 0x81, 0x40, 0x01, 0xC0, 0x80, 0x41],
    [0x00, 0xC1, 0x81, 0x40, 0x01, 0xC0, 0x80, 0x41, 0x01, 0xC0, 0x80, 0x41, 0x00, 0xC1, 0x81, 0x40],
    [0x00, 0xC1, 0x81, 0x40, 0x01, 0xC0, 0x80, 0x41, 0x01, 0xC0, 0x80, 0x41, 0x00, 0xC1, 0x81, 0x40],
    [0x01, 0xC0, 0x80, 0x41, 0x00, 0xC1, 0x81, 0x40, 0x00, 0xC1, 0x81, 0x40, 0x01, 0xC0, 0x80, 0x41],
    [0x01, 0xC0, 0x80, 0x41, 0x00, 0xC1, 0x81, 0x40, 0x00, 0xC1, 0x81, 0x40, 0x01, 0xC0, 0x80, 0x41],
    [0x00, 0xC1, 0x81, 0x40, 0x01, 0xC0, 0x80, 0x41, 0x01, 0xC0, 0x80, 0x41, 0x00, 0xC1, 0x81, 0x40],
    [0x00, 0xC1, 0x81, 0x40, 0x01, 0xC0, 0x80, 0x41, 0x01, 0xC0, 0x80, 0x41, 0x00, 0xC1, 0x81, 0x40],
    [0x01, 0xC0, 0x80, 0x41, 0x00, 0xC1, 0x81, 0x40, 0x00, 0xC1, 0x81, 0x40, 0x01, 0xC0, 0x80, 0x41],
    [0x00, 0xC1, 0x81, 0x40, 0x01, 0xC0, 0x80, 0x41, 0x01, 0xC0, 0x80, 0x41, 0x00, 0xC1, 0x81, 0x40],
    [0x01, 0xC0, 0x80, 0x41, 0x00, 0xC1, 0x81, 0x40, 0x00, 0xC1, 0x81, 0x40, 0x01, 0xC0, 0x80, 0x41],
    [0x01, 0xC0, 0x80, 0x41, 0x00, 0xC1, 0x81, 0x40, 0x00, 0xC1, 0x81, 0x40, 0x01, 0xC0, 0x80, 0x41],
    [0x00, 0xC1, 0x81, 0x40, 0x01, 0xC0, 0x80, 0x41, 0x01, 0xC0, 0x80, 0x41, 0x00, 0xC1, 0x81, 0x40]
  ]

  const CRC16_LO: seq<seq<bv8>> := [
    [0x00, 0xC0, 0xC1, 0x01, 0xC3, 0x03, 0x02, 0xC2, 0xC6, 0x06, 0x07, 0xC7, 0x05, 0xC5, 0xC4, 0x04],
    [0xCC, 0x0C, 0x0D, 0xCD, 0x0F, 0xCF, 0xCE, 0x0E, 0x0A, 0xCA, 0xCB, 0x0B, 0xC9, 0x09, 0x08, 0xC8],
    [0xD8, 0x18, 0x19, 0xD9, 0x1B, 0xDB, 0xDA, 0x1A, 0x1E, 0xDE, 0xDF, 0x1F, 0xDD, 0x1D, 0x1C, 0xDC],
    [0x14, 0xD4, 0xD5, 0x15, 0xD7, 0x17, 0x16, 0xD6, 0xD2, 0x12, 0x13, 0xD3, 0x11, 0xD1, 0xD0, 0x10],
    [0xF0, 0x30, 0x31, 0xF1, 0x33, 0xF3, 0xF2, 0x32, 0x36, 0xF6, 0xF7, 0x37, 0xF5, 0x35, 0x34, 0xF4],
    [0x3C, 0xFC, 0xFD, 0x3D, 0xFF, 0x3F, 0x3E, 0xFE, 0xFA, 0x3A, 0x3B, 0xFB, 0x39, 0xF9, 0xF8, 0x38],
    [0x28, 0xE8, 0xE9, 0x29, 0xEB, 0x2B, 0x2A, 0xEA, 0xEE, 0x2E, 0x2F, 0xEF, 0x2D, 0xED, 0xEC, 0x2C],
    [0xE4, 0x24, 0x25, 0xE5, 0x27, 0xE7, 0xE6, 0x26, 0x22, 0xE2, 0xE3, 0x23, 0xE1, 0x21, 0x20, 0xE0],
    [0xA0, 0x60, 0x61, 0xA1, 0x63, 0xA3, 0xA2, 0x62, 0x66, 0xA6, 0xA7, 0x67, 0xA5, 0x65, 0x64, 0xA4],
    [0x6C, 0xAC, 0xAD, 0x6D, 0xAF, 0x6F, 0x6E, 0xAE, 0xAA, 0x6A, 0x6B, 0xAB, 0x69, 0xA9, 0xA8, 0x68],
    [0x78, 0xB8, 0xB9, 0x79, 0xBB, 0x7B, 0x7A, 0xBA, 0xBE, 0x7E, 0x7F, 0xBF, 0x7D, 0xBD, 0xBC, 0x7C],
    [0xB4, 0x74, 0x75, 0xB5, 0x77, 0xB7, 0xB6, 0x76, 0x72, 0xB2, 0xB3, 0x73, 0xB1, 0x71, 0x70, 0xB0],
    [0x50, 0x90, 0x91, 0x51, 0x93, 0x53, 0x52, 0x92, 0x96, 0x56, 0x57, 0x97, 0x55, 0x95, 0x94, 0x54],
    [0x9C, 0x5C, 0x5D, 0x9D, 0x5F, 0x9F, 0x9E, 0x5E, 0x5A, 0x9A, 0x9B, 0x5B, 0x99, 0x59, 0x58, 0x98],
    [0x88, 0x48, 0x49, 0x89, 0x4B, 0x8B, 0x8A, 0x4A, 0x4E, 0x8E, 0x8F, 0x4F, 0x8D, 0x4D, 0x4C, 0x8C],
    [0x44, 0x84, 0x85, 0x45, 0x87, 0x47, 0x46, 0x86, 0x82, 0x42, 0x43, 0x83, 0x41, 0x81, 0x80, 0x40]
  ]

  lemma TableShape()
    ensures |CRC16_HI| == 16 && |CRC16_LO| == 16
    ensures forall i :: 0 <= i < 16 ==> |CRC16_HI[i]| == 16 && |CRC16_LO[i]| == 16
  {
  }

  function TableHi(b: bv8): bv8 {
    TableShape();
    CRC16_HI[(b >> 4) as nat][(b & 0x0F) as nat]
  }

  function TableLo(b: bv8): bv8 {
    TableShape();
    CRC16_LO[(b >> 4) as nat][(b & 0x0F) as nat]
  }

  function Word(hi: bv8, lo: bv8): bv16 { (hi as bv16 << 8) | lo as bv16 }

  function Xor(x: bv16, y: bv16): bv16 { x ^ y }

  function Half(x: bv16): bv16 { x >> 1 }

  predicate Odd(x: bv16) { x & 1 == 1 }

  // ---- the reference: one bit at a time --------------------------------------------------------

  /** The register after one zero bit. */
  function BitStep(x: bv16): bv16 { if Odd(x) then Xor(Half(x), 0xA001) else Half(x) }

  function Steps(x: bv16, n: nat): bv16
    decreases n
  {
    if n == 0 then x else Steps(BitStep(x), n - 1)
  }

  /** The register after one byte: the byte is added to the low end, then shifted out. */
  function ByteStep(x: bv16, b: bv8): bv16 { Steps(Xor(x, b as bv16), 8) }

  function ReferenceFrom(x: bv16, s: seq<bv8>): bv16
    decreases |s|
  {
    if s == [] then x else ReferenceFrom(ByteStep(x, s[0]), s[1..])
  }

  /** The CRC-16 of s, by its definition. */
  function Reference(s: seq<bv8>): bv16 { ReferenceFrom(0xFFFF, s) }

  // ---- the algebra of a step ------------------------------------------------------------------------

  lemma XorHalf(x: bv16, y: bv16)
    ensures Half(Xor(x, y)) == Xor(Half(x), Half(y))
  {
  }

  lemma XorOdd(x: bv16, y: bv16)
    ensures Odd(Xor(x, y)) <==> Odd(x) != Odd(y)
  {
  }

  lemma XorAlgebra(a: bv16, b: bv16, c: bv16)
    ensures Xor(Xor(a, c), b) == Xor(Xor(a, b), c)
    ensures Xor(a, Xor(b, c)) == Xor(Xor(a, b), c)
    ensures Xor(Xor(a, c), Xor(b, c)) == Xor(a, b)
  {
  }

  /** A step distributes over exclusive or. */
  lemma BitStepXor(x: bv16, y: bv16)
    ensures BitStep(Xor(x, y)) == Xor(BitStep(x), BitStep(y))
  {
    hide Xor, Half, Odd;
    XorHalf(x, y);
    XorOdd(x, y);
    XorAlgebra(Half(x), Half(y), 0xA001);
  }

  lemma {:induction false} StepsXor(x: bv16, y: bv16, n: nat)
    ensures Steps(Xor(x, y), n) == Xor(Steps(x, n), Steps(y, n))
    decreases n
  {
    hide Xor, BitStep;
    if n > 0 {
      BitStepXor(x, y);
      StepsXor(BitStep(x), BitStep(y), n - 1);
    }
  }

  function EightSteps(x: bv16): bv16 { BitStep(BitStep(BitStep(BitStep(BitStep(BitStep(BitStep(BitStep(x)))))))) }

  lemma StepsEight(x: bv16)
    ensures Steps(x, 8) == EightSteps(x)
  {
    hide BitStep;
  }

  /** The register after one byte, worked out. */
  lemma ByteWorkedOut(x: bv16, b: bv8, y: bv16)
    requires EightSteps(Xor(x, b as bv16)) == y
    ensures ByteStep(x, b) == y
  {
    StepsEight(Xor(x, b as bv16));
    hide EightSteps, Xor;
  }

  /** The digits 1 to 9 in ASCII. */
  const DIGITS: seq<bv8> := [0x31, 0x32, 0x33, 0x34, 0x35, 0x36, 0x37, 0x38, 0x39]

  lemma FirstDigits()
    ensures ReferenceFrom(0xFFFF, DIGITS[0..]) == ReferenceFrom(0x7A75, DIGITS[3..])
  {
    ByteWorkedOut(0xFFFF, 0x31, 0x947E);
    ByteWorkedOut(0x947E, 0x32, 0xF595);
    ByteWorkedOut(0xF595, 0x33, 0x7A75);
    hide ByteStep, EightSteps, Xor, ReferenceFrom;
    OneByte(0xFFFF, DIGITS, 0);
    OneByte(0x947E, DIGITS, 1);
    OneByte(0xF595, DIGITS, 2);
  }

  lemma NextDigits()
    ensures ReferenceFrom(0x7A75, DIGITS[3..]) == ReferenceFrom(0x32E4, DIGITS[6..])
  {
    ByteWorkedOut(0x7A75, 0x34, 0x30BA);
    ByteWorkedOut(0x30BA, 0x35, 0xA471);
    ByteWorkedOut(0xA471, 0x36, 0x32E4);
    hide ByteStep, EightSteps, Xor, ReferenceFrom;
    OneByte(0x7A75, DIGITS, 3);
    OneByte(0x30BA, DIGITS, 4);
    OneByte(0xA471, DIGITS, 5);
  }

  lemma LastDigits()
    ensures ReferenceFrom(0x32E4, DIGITS[6..]) == ReferenceFrom(0x4B37, DIGITS[9..])
  {
    ByteWorkedOut(0x32E4, 0x37, 0x9D73);
    ByteWorkedOut(0x9D73, 0x38, 0x37DD);
    ByteWorkedOut(0x37DD, 0x39, 0x4B37);
    hide ByteStep, EightSteps, Xor, ReferenceFrom;
    OneByte(0x32E4, DIGITS, 6);
    OneByte(0x9D73, DIGITS, 7);
    OneByte(0x37DD, DIGITS, 8);
  }

  /** The check value by which this CRC-16 is known. */
  lemma CheckValue()
    ensures Reference([]) == 0xFFFF && Reference(DIGITS) == 0x4B37
  {
    FirstDigits();
    NextDigits();
    LastDigits();
    NoBytes(0x4B37, DIGITS);
    hide ReferenceFrom;
    NoBytes(0xFFFF, []);
    assert DIGITS[0..] == DIGITS;
  }

  lemma OneByte(x: bv16, s: seq<bv8>, i: nat)
    requires i < |s|
    ensures ReferenceFrom(x, s[i..]) == ReferenceFrom(ByteStep(x, s[i]), s[i + 1..])
  {
    hide ByteStep;
    assert s[i..][1..] == s[i + 1..];
  }

  lemma NoBytes(x: bv16, s: seq<bv8>)
    ensures ReferenceFrom(x, s[|s|..]) == x
  {
  }

  // ---- the table refines the reference --------------------------------------------------------------

  lemma Nibbles(b: bv8)
    ensures b < 16 ==>
      b == 0 || b == 1 || b == 2 || b == 3 || b == 4 || b == 5 || b == 6 || b == 7 || b == 8 || b == 9 || b == 10 ||
      b == 11 || b == 12 || b == 13 || b == 14 || b == 15
  {
  }

  /** Entry by entry, the tables hold the register that eight zero bits leave behind. */
  predicate EntryOk(b: bv8) { Word(TableLo(b), TableHi(b)) == EightSteps(b as bv16) }

  lemma Row0(b: bv8)
    ensures b >> 4 == 0 ==> EntryOk(b)
  {
    TableShape();
    Nibbles(b & 0x0F);
  }

  lemma Row1(b: bv8)
    ensures b >> 4 == 1 ==> EntryOk(b)
  {
    TableShape();
    Nibbles(b & 0x0F);
  }

  lemma Row2(b: bv8)
    ensures b >> 4 == 2 ==> EntryOk(b)
  {
    TableShape();
    Nibbles(b & 0x0F);
  }

  lemma Row3(b: bv8)
    ensures b >> 4 == 3 ==> EntryOk(b)
  {
    TableShape();
    Nibbles(b & 0x0F);
  }

  lemma Row4(b: bv8)
    ensures b >> 4 == 4 ==> EntryOk(b)
  {
    TableShape();
    Nibbles(b & 0x0F);
  }

  lemma Row5(b: bv8)
    ensures b >> 4 == 5 ==> EntryOk(b)
  {
    TableShape();
    Nibbles(b & 0x0F);
  }

  lemma Row6(b: bv8)
    ensures b >> 4 == 6 ==> EntryOk(b)
  {
    TableShape();
    Nibbles(b & 0x0F);
  }

  lemma Row7(b: bv8)
    ensures b >> 4 == 7 ==> EntryOk(b)
  {
    TableShape();
    Nibbles(b & 0x0F);
  }

  lemma Row8(b: bv8)
    ensures b >> 4 == 8 ==> EntryOk(b)
  {
    TableShape();
    Nibbles(b & 0x0F);
  }

  lemma Row9(b: bv8)
    ensures b >> 4 == 9 ==> EntryOk(b)
  {
    TableShape();
    Nibbles(b & 0x0F);
  }

  lemma Row10(b: bv8)
    ensures b >> 4 == 10 ==> EntryOk(b)
  {
    TableShape();
    Nibbles(b & 0x0F);
  }

  lemma Row11(b: bv8)
    ensures b >> 4 == 11 ==> EntryOk(b)
  {
    TableShape();
    Nibbles(b & 0x0F);
  }

  lemma Row12(b: bv8)
    ensures b >> 4 == 12 ==> EntryOk(b)
  {
    TableShape();
    Nibbles(b & 0x0F);
  }

  lemma Row13(b: bv8)
    ensures b >> 4 == 13 ==> EntryOk(b)
  {
    TableShape();
    Nibbles(b & 0x0F);
  }

  lemma Row14(b: bv8)
    ensures b >> 4 == 14 ==> EntryOk(b)
  {
    TableShape();
    Nibbles(b & 0x0F);
  }

  lemma Row15(b: bv8)
    ensures b >> 4 == 15 ==> EntryOk(b)
  {
    TableShape();
    Nibbles(b & 0x0F);
  }

  lemma LowRows(b: bv8)
    requires b >> 4 < 8
    ensures EntryOk(b)
  {
    hide EntryOk;
    Nibbles(b >> 4);
    Row0(b); Row1(b); Row2(b); Row3(b); Row4(b); Row5(b); Row6(b); Row7(b);
  }

  lemma HighRows(b: bv8)
    requires b >> 4 >= 8
    ensures EntryOk(b)
  {
    hide EntryOk;
    Nibbles(b >> 4);
    Row8(b); Row9(b); Row10(b); Row11(b); Row12(b); Row13(b); Row14(b); Row15(b);
  }

  lemma TableEntry(b: bv8)
    ensures Word(TableLo(b), TableHi(b)) == EightSteps(b as bv16)
  {
    if b >> 4 < 8 {
      LowRows(b);
    } else {
      HighRows(b);
    }
    hide Word, TableHi, TableLo, EightSteps;
  }

  lemma HighByteShiftsDown(hi: bv8)
    ensures EightSteps(Word(hi, 0)) == hi as bv16
  {
  }

  lemma SplitInput(hi: bv8, lo: bv8, b: bv8)
    ensures Xor(Word(hi, lo), b as bv16) == Xor(Word(hi, 0), (lo ^ b) as bv16)
  {
  }

  lemma WordXor(x: bv8, hi: bv8, lo: bv8)
    ensures Xor(x as bv16, Word(hi, lo)) == Word(hi, x ^ lo)
  {
  }

  /** One turn of the loop of the source is one byte of the reference. */
  lemma TableStep(hi: bv8, lo: bv8, b: bv8)
    ensures Word(TableLo(lo ^ b), hi ^ TableHi(lo ^ b)) == ByteStep(Word(hi, lo), b)
  {
    hide Xor, Word, BitStep, Steps, EightSteps, TableHi, TableLo;
    var i := lo ^ b;
    SplitInput(hi, lo, b);
    StepsXor(Word(hi, 0), i as bv16, 8);
    StepsEight(Word(hi, 0));
    HighByteShiftsDown(hi);
    StepsEight(i as bv16);
    TableEntry(i);
    WordXor(hi, TableLo(i), TableHi(i));
  }

  lemma InitialWord()
    ensures Word(0xFF, 0xFF) == 0xFFFF
  {
  }

  lemma ReferenceNext(x: bv16, s: seq<bv8>, i: nat)
    requires i < |s|
    ensures ReferenceFrom(x, s[i..]) == ReferenceFrom(ByteStep(x, s[i]), s[i + 1..])
  {
    assert s[i..][1..] == s[i + 1..];
  }

  /** CRC_Crc16: the byte loop over the two tables. */
  method Crc16(data: seq<bv8>) returns (crc: bv16)
    ensures crc == Reference(data)
  {
    hide ByteStep, TableHi, TableLo;
    var crcLo: bv8, crcHi: bv8 := 0xFF, 0xFF;
    InitialWord();
    var i := 0;
    while i < |data|
      invariant 0 <= i <= |data|
      invariant ReferenceFrom(Word(crcHi, crcLo), data[i..]) == Reference(data)
    {
      var index := crcLo ^ data[i];
      TableStep(crcHi, crcLo, data[i]);
      ReferenceNext(Word(crcHi, crcLo), data, i);
      crcLo := crcHi ^ TableHi(index);
      crcHi := TableLo(index);
      i := i + 1;
    }
    crc := Word(crcHi, crcLo);
  }

  // ---- error detection --------------------------------------------------------------------------

  function FeedBit(x: bv16, b: bool): bv16 { BitStep(if b then Xor(x, 1) else x) }

  function Feed(x: bv16, bits: seq<bool>): bv16
    decreases |bits|
  {
    if bits == [] then x else Feed(FeedBit(x, bits[0]), bits[1..])
  }

  /** The n lowest bits of v, lowest first: the order in which the checksum takes them. */
  function LowBits(v: bv16, n: nat): (bits: seq<bool>)
    ensures |bits| == n
    decreases n
  {
    if n == 0 then [] else [Odd(v)] + LowBits(Half(v), n - 1)
  }

  predicate Fits(v: bv16, n: nat)
    decreases n
  {
    if n == 0 then v == 0 else Fits(Half(v), n - 1)
  }

  function ByteBits(b: bv8): (bits: seq<bool>)
    ensures |bits| == 8
  {
    LowBits(b as bv16, 8)
  }

  function Bits(s: seq<bv8>): (bits: seq<bool>)
    ensures |bits| == 8 * |s|
    decreases |s|
  {
    if s == [] then [] else ByteBits(s[0]) + Bits(s[1..])
  }

  lemma {:induction false} FeedAppend(x: bv16, a: seq<bool>, b: seq<bool>)
    ensures Feed(x, a + b) == Feed(Feed(x, a), b)
    decreases |a|
  {
    if a == [] {
      assert a + b == b;
    } else {
      assert (a + b)[1..] == a[1..] + b;
      FeedAppend(FeedBit(x, a[0]), a[1..], b);
    }
  }

  lemma SplitLowBit(x: bv16, v: bv16)
    ensures Xor(x, v) == Xor(if Odd(v) then Xor(x, 1) else x, Half(v) << 1)
    ensures BitStep(Half(v) << 1) == Half(v)
  {
  }

  lemma FeedStep(x: bv16, v: bv16)
    ensures BitStep(Xor(x, v)) == Xor(FeedBit(x, Odd(v)), Half(v))
  {
    SplitLowBit(x, v);
    hide Xor, Half, Odd, BitStep;
    BitStepXor(if Odd(v) then Xor(x, 1) else x, Half(v) << 1);
  }

  /** Feeding the bits of v one by one is adding v to the register and stepping. */
  lemma {:induction false} FeedIsSteps(x: bv16, v: bv16, n: nat)
    requires Fits(v, n)
    ensures Feed(x, LowBits(v, n)) == Steps(Xor(x, v), n)
    decreases n
  {
    if n == 0 {
      assert Xor(x, v) == x;
    } else {
      hide Xor, Half, Odd, BitStep, FeedBit;
      FeedStep(x, v);
      assert LowBits(v, n)[1..] == LowBits(Half(v), n - 1);
      FeedIsSteps(FeedBit(x, Odd(v)), Half(v), n - 1);
    }
  }

  lemma EightHalves(b: bv8)
    ensures Half(Half(Half(Half(Half(Half(Half(Half(b as bv16)))))))) == 0
  {
  }

  lemma ByteFits(b: bv8)
    ensures Fits(b as bv16, 8)
  {
    EightHalves(b);
    hide Half;
  }

  lemma FeedByte(x: bv16, b: bv8)
    ensures Feed(x, ByteBits(b)) == ByteStep(x, b)
  {
    hide Xor, Feed, LowBits, Fits, Steps;
    ByteFits(b);
    FeedIsSteps(x, b as bv16, 8);
  }

  /** Taking the bytes or taking their bits one by one is the same computation. */
  lemma {:induction false} ReferenceIsFeed(x: bv16, s: seq<bv8>)
    ensures ReferenceFrom(x, s) == Feed(x, Bits(s))
    decreases |s|
  {
    if s != [] {
      FeedByte(x, s[0]);
      FeedAppend(x, ByteBits(s[0]), Bits(s[1..]));
      ReferenceIsFeed(ByteStep(x, s[0]), s[1..]);
    }
  }

  /** The ones of Window(n) are the 16 - n highest bits. */
  function Window(n: nat): bv16 { if n == 0 then 0xFFFF else Window(n - 1) << 1 }

  lemma {:induction false} WindowTop(n: nat)
    requires n < 16
    ensures Window(n) & 0x8000 != 0
  {
    assert Window(1) == 0xFFFE; assert Window(2) == 0xFFFC; assert Window(3) == 0xFFF8; assert Window(4) == 0xFFF0;
    assert Window(5) == 0xFFE0; assert Window(6) == 0xFFC0; assert Window(7) == 0xFF80; assert Window(8) == 0xFF00;
    assert Window(9) == 0xFE00; assert Window(10) == 0xFC00; assert Window(11) == 0xF800; assert Window(12) == 0xF000;
    assert Window(13) == 0xE000; assert Window(14) == 0xC000; assert Window(15) == 0x8000;
  }

  predicate Agree(x: bv16, y: bv16, mask: bv16) { (x ^ y) & mask == 0 }

  /** One bit backwards: the top bit of the register after a step tells which bit went in. */
  lemma AgreeBack(x: bv16, y: bv16, a: bool, b: bool, mask: bv16)
    requires mask & 0x8000 != 0
    requires Agree(FeedBit(x, a), FeedBit(y, b), mask)
    ensures Agree(x, y, mask << 1)
    ensures x == y ==> a == b
  {
  }

  /** The same for a window: what agrees in the upper n - 1 bits after a bit agreed in the upper n before it. */
  lemma AgreeStep(x: bv16, y: bv16, a: bool, b: bool, n: nat)
    requires 1 <= n <= 16 && Agree(FeedBit(x, a), FeedBit(y, b), Window(n - 1))
    ensures Agree(x, y, Window(n))
    ensures x == y ==> a == b
  {
    WindowTop(n - 1);
    AgreeBack(x, y, a, b, Window(n - 1));
    hide Agree, FeedBit;
  }

  lemma AgreeSame(x: bv16, mask: bv16)
    ensures Agree(x, x, mask)
  {
  }

  lemma {:induction false} AgreeBefore(x: bv16, y: bv16, a: seq<bool>, b: seq<bool>)
    requires |a| == |b| <= 16
    requires Feed(x, a) == Feed(y, b)
    ensures Agree(x, y, Window(|a|))
    decreases |a|
  {
    hide Agree, FeedBit, Window;
    if a == [] {
      AgreeSame(x, Window(0));
    } else {
      AgreeBefore(FeedBit(x, a[0]), FeedBit(y, b[0]), a[1..], b[1..]);
      AgreeStep(x, y, a[0], b[0], |a|);
    }
  }

  /** From one register, different streams of at most sixteen bits lead to different registers. */
  lemma {:induction false} FeedInjective(x: bv16, a: seq<bool>, b: seq<bool>)
    requires |a| == |b| <= 16
    requires Feed(x, a) == Feed(x, b)
    ensures a == b
    decreases |a|
  {
    hide Agree, FeedBit, Window;
    if a != [] {
      AgreeBefore(FeedBit(x, a[0]), FeedBit(x, b[0]), a[1..], b[1..]);
      AgreeStep(x, x, a[0], b[0], |a|);
      FeedInjective(FeedBit(x, a[0]), a[1..], b[1..]);
    }
  }

  lemma FeedBitInjective(x: bv16, y: bv16, b: bool)
    requires FeedBit(x, b) == FeedBit(y, b)
    ensures x == y
  {
  }

  /** A common tail never makes different registers equal. */
  lemma {:induction false} FeedTail(x: bv16, y: bv16, tail: seq<bool>)
    requires Feed(x, tail) == Feed(y, tail)
    ensures x == y
    decreases |tail|
  {
    if tail != [] {
      FeedTail(FeedBit(x, tail[0]), FeedBit(y, tail[0]), tail[1..]);
      FeedBitInjective(x, y, tail[0]);
    }
  }

  lemma BurstBits(head: seq<bool>, a: seq<bool>, b: seq<bool>, tail: seq<bool>)
    requires |a| == |b| <= 16 && a != b
    ensures Feed(0xFFFF, head + a + tail) != Feed(0xFFFF, head + b + tail)
  {
    var x := Feed(0xFFFF, head);
    FeedAppend(0xFFFF, head + a, tail);
    FeedAppend(0xFFFF, head, a);
    FeedAppend(0xFFFF, head + b, tail);
    FeedAppend(0xFFFF, head, b);
    if Feed(0xFFFF, head + a + tail) == Feed(0xFFFF, head + b + tail) {
      FeedTail(Feed(x, a), Feed(x, b), tail);
      FeedInjective(x, a, b);
    }
  }

  lemma {:induction false} BitsInjective(s: seq<bv8>, t: seq<bv8>)
    requires |s| == |t| && Bits(s) == Bits(t)
    ensures s == t
    decreases |s|
  {
    if s != [] {
      assert Bits(s)[..8] == ByteBits(s[0]) && Bits(t)[..8] == ByteBits(t[0]);
      assert Bits(s)[8..] == Bits(s[1..]) && Bits(t)[8..] == Bits(t[1..]);
      BitsInjective(s[1..], t[1..]);
      ByteBitsInjective(s[0], t[0]);
    }
  }

  lemma RejoinLowBit(v: bv16, w: bv16)
    requires Odd(v) == Odd(w) && Half(v) == Half(w)
    ensures v == w
  {
  }

  lemma {:induction false} LowBitsInjective(v: bv16, w: bv16, n: nat)
    requires Fits(v, n) && Fits(w, n) && LowBits(v, n) == LowBits(w, n)
    ensures v == w
    decreases n
  {
    hide Half, Odd;
    if n > 0 {
      assert LowBits(v, n)[0] == LowBits(w, n)[0];
      assert LowBits(v, n)[1..] == LowBits(Half(v), n - 1) && LowBits(w, n)[1..] == LowBits(Half(w), n - 1);
      LowBitsInjective(Half(v), Half(w), n - 1);
      RejoinLowBit(v, w);
    }
  }

  lemma ByteBitsInjective(b: bv8, c: bv8)
    requires ByteBits(b) == ByteBits(c)
    ensures b == c
  {
    ByteFits(b);
    ByteFits(c);
    LowBitsInjective(b as bv16, c as bv16, 8);
    assert (b as bv16) as bv8 == b && (c as bv16) as bv8 == c;
  }

  lemma OutsideAlike(p: seq<bool>, q: seq<bool>, lo: nat, hi: nat)
    requires |p| == |q| && lo <= hi <= |p|
    requires forall i :: 0 <= i < |p| && !(lo <= i < hi) ==> p[i] == q[i]
    ensures p == p[..lo] + p[lo..hi] + p[hi..] && q == p[..lo] + q[lo..hi] + p[hi..]
  {
    assert q[..lo] == p[..lo] && q[hi..] == p[hi..];
  }

  lemma BurstStreams(p: seq<bool>, q: seq<bool>, at: nat)
    requires |p| == |q| && p != q
    requires forall i :: 0 <= i < |p| && !(at <= i < at + 16) ==> p[i] == q[i]
    ensures Feed(0xFFFF, p) != Feed(0xFFFF, q)
  {
    hide Feed;
    var n := |p|;
    var lo, hi := if at <= n then at else n, if at + 16 <= n then at + 16 else n;
    OutsideAlike(p, q, lo, hi);
    var front, x, y, back := p[..lo], p[lo..hi], q[lo..hi], p[hi..];
    BurstBits(front, x, y, back);
  }

  /** Two different messages of one length that differ only within a window of sixteen consecutive bits,
      wherever it starts, have different checksums. */
  lemma BurstDetected(s: seq<bv8>, t: seq<bv8>, at: nat)
    requires |s| == |t| && s != t
    requires forall i :: 0 <= i < 8 * |s| && !(at <= i < at + 16) ==> Bits(s)[i] == Bits(t)[i]
    ensures Reference(s) != Reference(t)
  {
    if Bits(s) == Bits(t) {
      BitsInjective(s, t);
    }
    BurstStreams(Bits(s), Bits(t), at);
    ReferenceIsFeed(0xFFFF, s);
    ReferenceIsFeed(0xFFFF, t);
  }

  lemma EightBack(i: nat)
    requires i >= 8
    ensures (i - 8) / 8 == i / 8 - 1 && (i - 8) % 8 == i % 8
  {
  }

  lemma {:induction false} BitsAt(s: seq<bv8>, i: nat)
    requires i < 8 * |s|
    ensures Bits(s)[i] == ByteBits(s[i / 8])[i % 8]
    decreases |s|
  {
    hide ByteBits;
    if i >= 8 {
      BitsAt(s[1..], i - 8);
      EightBack(i);
      assert s[1..][i / 8 - 1] == s[i / 8];
    }
  }

  /** The byte view of the same: a change confined to one byte or to two adjacent bytes is always seen. */
  lemma AdjacentBytesDetected(s: seq<bv8>, t: seq<bv8>, k: nat)
    requires |s| == |t| && s != t
    requires forall i :: 0 <= i < |s| && i != k && i != k + 1 ==> s[i] == t[i]
    ensures Reference(s) != Reference(t)
  {
    forall i | 0 <= i < 8 * |s| && !(8 * k <= i < 8 * k + 16)
      ensures Bits(s)[i] == Bits(t)[i]
    {
      BitsAt(s, i);
      BitsAt(t, i);
      assert i / 8 < |s|;
      assert i / 8 != k && i / 8 != k + 1;
    }
    BurstDetected(s, t, 8 * k);
  }
}

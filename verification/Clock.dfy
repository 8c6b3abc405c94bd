/** The clock of src/Core/src/clock.c: the search for a multiplier and a shift, the conversion of a wrapping cycle
    counter into nanoseconds, and the busy wait built on it. */
module Clock {
  import opened Div64

  // ---- powers of two ----------------------------------------------------------------------------

  function Pow2(n: nat): nat
    decreases n
  {
    if n == 0 then 1 else 2 * Pow2(n - 1)
  }

  lemma {:induction false} Pow2Positive(n: nat)
    ensures Pow2(n) >= 1
    decreases n
  {
    if n > 0 { Pow2Positive(n - 1); }
  }

  lemma Pow2Next(n: nat)
    ensures Pow2(n + 1) == 2 * Pow2(n)
  {
  }

  lemma TwiceProduct(a: int, b: int)
    ensures (2 * a) * b == 2 * (a * b)
  {
  }

  lemma {:induction false} Pow2Add(m: nat, n: nat)
    ensures Pow2(m + n) == Pow2(m) * Pow2(n)
    decreases m
  {
    if m > 0 {
      Pow2Next(m - 1);
      Pow2Next(m - 1 + n);
      TwiceProduct(Pow2(m - 1), Pow2(n));
      hide Pow2;
      Pow2Add(m - 1, n);
      assert m - 1 + n + 1 == m + n;
    }
  }

  lemma {:induction false} Pow2Monotone(m: nat, n: nat)
    requires m <= n
    ensures Pow2(m) <= Pow2(n)
    decreases n
  {
    if m < n { Pow2Monotone(m, n - 1); Pow2Positive(n - 1); }
  }

  lemma Pow2Values()
    ensures Pow2(0) == 1 && Pow2(31) == 0x8000_0000 && Pow2(32) == TWO_32 && Pow2(64) == TWO_64
  {
    assert Pow2(8) == 256;
    Pow2Add(8, 8);
    Pow2Add(16, 16);
    Pow2Add(32, 32);
    assert Pow2(32) == 2 * Pow2(31);
  }

  /** x >> n */
  function ShiftRight(x: nat, n: nat): nat
    decreases n
  {
    if n == 0 then x else ShiftRight(x / 2, n - 1)
  }

  lemma Twice(q: int, p: int)
    ensures q * (2 * p) == 2 * (q * p)
  {
  }

  /** x lies in the q-th interval of length p. */
  predicate InInterval(x: nat, q: nat, p: nat) { q * p <= x < (q + 1) * p }

  lemma DoubleInterval(x: nat, q: nat, p: nat)
    requires InInterval(x / 2, q, p)
    ensures InInterval(x, q, 2 * p)
  {
    Twice(q, p);
    Twice(q + 1, p);
  }

  /** Shifting right is dividing by the power of two, rounding down. */
  lemma {:induction false} ShiftRightInterval(x: nat, n: nat)
    ensures InInterval(x, ShiftRight(x, n), Pow2(n))
    decreases n
  {
    if n > 0 {
      hide InInterval;
      ShiftRightInterval(x / 2, n - 1);
      DoubleInterval(x, ShiftRight(x / 2, n - 1), Pow2(n - 1));
    }
  }

  lemma ShiftRightBounds(x: nat, n: nat)
    ensures ShiftRight(x, n) * Pow2(n) <= x < (ShiftRight(x, n) + 1) * Pow2(n)
  {
    ShiftRightInterval(x, n);
    hide ShiftRight, Pow2;
  }

  lemma {:induction false} ShiftRightZero(x: nat, n: nat)
    ensures ShiftRight(x, n) == 0 <==> x < Pow2(n)
    decreases n
  {
    if n > 0 {
      ShiftRightZero(x / 2, n - 1);
    }
  }

  // ---- clocks_calc_mult_shift -------------------------------------------------------------------

  function BitLength(x: nat): nat
    decreases x
  {
    if x == 0 then 0 else 1 + BitLength(x / 2)
  }

  lemma {:induction false} BitLengthBound(x: nat)
    ensures x < Pow2(BitLength(x))
    decreases x
  {
    if x > 0 {
      BitLengthBound(x / 2);
      assert Pow2(BitLength(x)) == 2 * Pow2(BitLength(x / 2));
    }
  }

  lemma {:induction false} BitLengthAtMost(x: nat, n: nat)
    requires x < Pow2(n)
    ensures BitLength(x) <= n
    decreases n
  {
    if n > 0 && x > 0 { BitLengthAtMost(x / 2, n - 1); }
  }

  /** The bits a multiplier may have so that maxsec seconds of cycles still fit 64 bits. */
  function MultBits(maxsec: nat, from: nat): int { 32 - BitLength(maxsec * from / TWO_32) }

  /** to * 2^shift / from, rounded to the nearest integer. */
  function Rounded(to: nat, shift: nat, from: nat): nat
    requires from > 0
  {
    (to * Pow2(shift) + from / 2) / from
  }

  predicate Fits(to: nat, shift: nat, from: nat, bits: nat)
    requires from > 0
  {
    Rounded(to, shift, from) < Pow2(bits)
  }

  lemma ProductAtMost(a: nat, b: nat, x: nat, y: nat)
    requires a <= x && b <= y
    ensures a * b <= x * y
  {
    assert a * b <= a * y;
    assert a * y <= x * y;
  }

  lemma ProductBelow(a: nat, b: nat, x: nat, y: nat)
    requires a < x && b < y
    ensures a * b < x * y
  {
    assert a * b <= a * y;
    assert a * y < x * y;
  }

  lemma UpperHalf(maxsec: nat, from: nat)
    requires maxsec < TWO_32 && from < TWO_32
    ensures maxsec * from < TWO_64
    ensures 0 <= maxsec * from / TWO_32 < TWO_32
  {
    ProductBelow(maxsec, from, TWO_32, TWO_32);
  }

  lemma MultBitsRange(maxsec: nat, from: nat)
    requires maxsec < TWO_32 && from < TWO_32
    ensures 0 <= MultBits(maxsec, from) <= 32
  {
    UpperHalf(maxsec, from);
    Pow2Values();
    hide Pow2;
    BitLengthAtMost(maxsec * from / TWO_32, 32);
  }

  lemma {:induction false} BitLengthTight(x: nat)
    requires x > 0
    ensures BitLength(x) > 0 && Pow2(BitLength(x) - 1) <= x
    decreases x
  {
    HalveLength(x);
    if x > 1 {
      hide BitLength;
      BitLengthTight(x / 2);
      Pow2Next(BitLength(x / 2) - 1);
      hide Pow2;
    }
  }

  /** As many bits, of 32 at most, as keep any product with that many cycles below 2^64: one more would not. */
  lemma MultBitsTight(maxsec: nat, from: nat)
    requires maxsec < TWO_32 && from < TWO_32
    ensures 0 <= MultBits(maxsec, from) <= 32
    ensures maxsec * from / TWO_32 < Pow2(32 - MultBits(maxsec, from))
    ensures MultBits(maxsec, from) < 32 ==> maxsec * from / TWO_32 >= Pow2(31 - MultBits(maxsec, from))
  {
    MultBitsRange(maxsec, from);
    UpperHalf(maxsec, from);
    BitLengthBound(maxsec * from / TWO_32);
    if maxsec * from / TWO_32 > 0 {
      BitLengthTight(maxsec * from / TWO_32);
    }
  }

  lemma DivMonotone(a: int, b: int, d: int)
    requires a <= b && d > 0
    ensures a / d <= b / d
  {
    assert (b / d - a / d) * d == (b - b % d) - (a - a % d);
    ProductAtLeast(b / d - a / d, d);
  }

  /** A larger shift never gives a smaller multiplier, so the shifts that fit are the small ones. */
  lemma RoundedMonotone(to: nat, s: nat, t: nat, from: nat)
    requires from > 0 && s <= t
    ensures Rounded(to, s, from) <= Rounded(to, t, from)
  {
    Pow2Monotone(s, t);
    hide Pow2;
    ProductAtMost(to, Pow2(s), to, Pow2(t));
    DivMonotone(to * Pow2(s) + from / 2, to * Pow2(t) + from / 2, from);
  }

  /** The multiplier is the nearest integer to the exact ratio, the larger one halfway between two. */
  lemma RoundedNearest(to: nat, shift: nat, from: nat)
    requires from > 0
    ensures -((from - 1) / 2) <= Rounded(to, shift, from) * from - to * Pow2(shift) <= from / 2
  {
    var x := to * Pow2(shift) + from / 2;
    assert x == (x / from) * from + x % from;
  }

  function Scaled(cycles: nat, mult: nat): nat { cycles * mult }

  /** No product of a multiplier that fits with a cycle count of the guaranteed range reaches 2^64. */
  lemma RangeGuarantee(maxsec: nat, from: nat, mult: nat, cycles: nat)
    requires maxsec < TWO_32 && from < TWO_32 && cycles <= maxsec * from
    requires MultBits(maxsec, from) >= 0 && mult < Pow2(MultBits(maxsec, from))
    ensures Scaled(cycles, mult) < TWO_64
  {
    var top := maxsec * from / TWO_32;
    var len := BitLength(top);
    BitLengthBound(top);
    assert cycles < (top + 1) * TWO_32;
    Pow2Values();
    Pow2Add(len, 32);
    Pow2Add(32 + len, MultBits(maxsec, from));
    hide Pow2, BitLength;
    ProductAtMost(top + 1, TWO_32, Pow2(len), TWO_32);
    ProductBelow(cycles, mult, Pow2(32 + len), Pow2(MultBits(maxsec, from)));
  }

  lemma NumeratorFits(to: nat, shift: nat, from: nat)
    requires to < TWO_32 && 0 < from < TWO_32 && shift <= 32
    ensures to * Pow2(shift) + from / 2 < TWO_64
  {
    Pow2Values();
    Pow2Monotone(shift, 32);
    hide Pow2;
    ProductAtMost(to, Pow2(shift), TWO_32 - 1, TWO_32);
  }

  /** shift is the largest of 1..32 whose multiplier fits, and none fits when it is 0. */
  ghost predicate LargestFit(to: nat, from: nat, bits: nat, shift: nat)
    requires from > 0
  {
    forall s: nat :: 1 <= s <= 32 ==> (Fits(to, s, from, bits) <==> s <= shift)
  }

  /** Up to maxsec seconds of cycles can be scaled without leaving 64 bits. */
  ghost predicate RangeCovered(maxsec: nat, from: nat, mult: nat) {
    forall cycles: nat :: cycles <= maxsec * from ==> Scaled(cycles, mult) < TWO_64
  }

  lemma SearchFound(to: nat, from: nat, maxsec: nat, bits: nat, shift: nat)
    requires from > 0 && shift <= 32 && maxsec < TWO_32 && from < TWO_32 && bits == MultBits(maxsec, from)
    requires forall s: nat :: shift < s <= 32 ==> !Fits(to, s, from, bits)
    requires shift > 0 ==> Fits(to, shift, from, bits)
    ensures LargestFit(to, from, bits, shift)
    ensures shift > 0 ==> RangeCovered(maxsec, from, Rounded(to, shift, from))
  {
    forall s: nat | 1 <= s <= shift
      ensures Fits(to, s, from, bits)
    {
      RoundedMonotone(to, s, shift, from);
    }
    if shift > 0 {
      forall cycles: nat | cycles <= maxsec * from
        ensures Scaled(cycles, Rounded(to, shift, from)) < TWO_64
      {
        RangeGuarantee(maxsec, from, Rounded(to, shift, from), cycles);
      }
    }
  }

  lemma HalveLength(x: nat)
    requires x > 0
    ensures BitLength(x) == 1 + BitLength(x / 2)
    ensures BitLength(x) >= 0
  {
  }

  lemma ZeroLength()
    ensures BitLength(0) == 0
  {
  }

  lemma FitTest(to: nat, shift: nat, from: nat, bits: nat, quotient: nat)
    requires from > 0 && quotient == Rounded(to, shift, from)
    ensures Fits(to, shift, from, bits) <==> ShiftRight(quotient, bits) == 0
  {
    ShiftRightZero(quotient, bits);
  }

  lemma FitIs32Bits(to: nat, shift: nat, from: nat, bits: nat)
    requires from > 0 && bits <= 32 && Fits(to, shift, from, bits)
    ensures Rounded(to, shift, from) < TWO_32
  {
    Pow2Values();
    Pow2Monotone(bits, 32);
  }

  /** (uint64_t)maxsec * from >> 32 */
  function CycleRange(maxsec: uint32, from: uint32): uint64 {
    UpperHalf(maxsec as int, from as int);
    (maxsec as uint64 * from as uint64) / 0x1_0000_0000
  }

  /** ((uint64_t)to << shift) + from / 2 */
  function Numerator(to: uint32, shift: uint32, from: uint32): uint64
    requires from > 0 && shift <= 32
  {
    NumeratorFits(to as int, shift as int, from as int);
    (to as int * Pow2(shift as int)) as uint64 + (from / 2) as uint64
  }

  lemma RangeStart(maxsec: uint32, from: uint32)
    ensures 32 - BitLength(CycleRange(maxsec, from) as int) == MultBits(maxsec as int, from as int)
  {
    UpperHalf(maxsec as int, from as int);
  }

  lemma NumeratorQuotient(to: uint32, shift: uint32, from: uint32, q: nat, r: nat)
    requires from > 0 && shift <= 32
    requires IsDivision(Numerator(to, shift, from) as int, from as int, q, r)
    ensures q == Rounded(to as int, shift as int, from as int)
  {
    DivisionIs(Numerator(to, shift, from) as int, from as int, q, r);
  }

  /** The first loop of clocks_calc_mult_shift: the bits a multiplier may have. */
  method RangeBits(from: uint32, maxsec: uint32) returns (sftacc: uint32)
    ensures sftacc as int == MultBits(maxsec as int, from as int) && 0 <= sftacc <= 32
  {
    ghost var bits := MultBits(maxsec as int, from as int);
    MultBitsRange(maxsec as int, from as int);
    RangeStart(maxsec, from);
    hide BitLength, MultBits, CycleRange;
    var tmp: uint64 := CycleRange(maxsec, from);
    sftacc := 32;
    while tmp != 0
      invariant sftacc as int - BitLength(tmp as int) == bits
      decreases tmp
    {
      HalveLength(tmp as int);
      tmp := tmp / 2;
      sftacc := sftacc - 1;
    }
    ZeroLength();
  }

  /** One turn of the search: the multiplier of a shift, and whether it fits. */
  method TryShift(from: uint32, to: uint32, sft: uint32, sftacc: uint32) returns (tmp: uint64, fits: bool)
    requires from > 0 && sft <= 32
    ensures tmp as int == Rounded(to as int, sft as int, from as int)
    ensures fits <==> Fits(to as int, sft as int, from as int, sftacc as int)
  {
    hide Pow2, Rounded, Fits, Numerator, ShiftRight, IsDivision;
    tmp := Numerator(to, sft, from);
    var quotient, rem := DoDiv(tmp, from);
    NumeratorQuotient(to, sft, from, quotient as int, rem as int);
    tmp := quotient;
    FitTest(to as int, sft as int, from as int, sftacc as int, tmp as int);
    fits := ShiftRight(tmp as int, sftacc as int) == 0;
  }

  /** mult / 2^shift is to / from, up to the rounding of the multiplier. */
  predicate AtRate(mult: nat, shift: nat, to: nat, from: nat) {
    -(from / 2) <= mult * from - to * Pow2(shift) <= from / 2
  }

  lemma SmallerFactor(a: nat, b: nat, f: nat)
    requires a * f < b * f
    ensures a < b
  {
    if a >= b {
      ProductAtMost(b, f, a, f);
    }
  }

  /** Which multipliers of shift 1 fit 32 bits. */
  lemma FirstMultiplier(to: nat, from: nat)
    requires 0 < from && to < TWO_32
    ensures Rounded(to, 1, from) < TWO_32 <==> from > 1 || to < 0x8000_0000
    ensures from == 1 ==> Rounded(to, 1, from) == 2 * to
  {
    assert Pow2(1) == 2;
    if from > 1 {
      RoundedNearest(to, 1, from);
      ProductAtMost(to, 2, to, from);
      assert (to + 1) * from == to * from + from;
      SmallerFactor(Rounded(to, 1, from), to + 1, from);
    }
  }

  lemma RateOfRounded(to: nat, shift: nat, from: nat)
    requires from > 0
    ensures AtRate(Rounded(to, shift, from), shift, to, from)
  {
    RoundedNearest(to, shift, from);
    hide Pow2, Rounded;
  }

  lemma ShiftLess(mult: nat, to: nat, from: nat)
    ensures AtRate(mult, 1, to, from) <==> AtRate(mult, 0, 2 * to, from)
  {
    assert Pow2(0) == 1 && Pow2(1) == 2;
    hide Pow2;
  }

  lemma DoubleRate(from: nat, to: nat, mult: nat)
    requires 1 < from && to < TWO_32 && mult == Rounded(to, 1, from) % TWO_32
    ensures AtRate(mult, 0, 2 * to, from)
  {
    hide Pow2, Rounded, AtRate;
    FirstMultiplier(to, from);
    RateOfRounded(to, 1, from);
    ShiftLess(mult, to, from);
  }

  lemma UnitRate(to: nat, maxsec: nat, mult: nat)
    requires to < TWO_32 && maxsec < TWO_32 && LargestFit(to, 1, MultBits(maxsec, 1), 0)
    requires mult == Rounded(to, 1, 1) % TWO_32
    ensures to >= 0x8000_0000 && mult == to - (TWO_32 - to) && !AtRate(mult, 0, 2 * to, 1)
  {
    NarrowRange(maxsec);
    FirstMultiplier(to, 1);
    Pow2Values();
    hide Pow2, Rounded, MultBits;
    assert !Fits(to, 1, 1, 32);
  }

  /** What the pair of a failed search is worth: it runs at twice the rate asked for, if and only if `from` is not 1.
      With `from` 1 the search fails only for rates of 2^31 and more, and the multiplier, cut to 32 bits, is too small
      by 2^32 - to. */
  lemma FailedSearchRate(from: nat, to: nat, maxsec: nat, mult: nat)
    requires 0 < from < TWO_32 && to < TWO_32 && maxsec < TWO_32
    requires 0 <= MultBits(maxsec, from) && LargestFit(to, from, MultBits(maxsec, from), 0)
    requires mult == Rounded(to, 1, from) % TWO_32
    ensures AtRate(mult, 0, 2 * to, from) <==> from > 1
    ensures from == 1 ==> to >= 0x8000_0000 && mult == to - (TWO_32 - to)
  {
    hide Pow2, Rounded, MultBits, LargestFit, AtRate;
    if from == 1 {
      UnitRate(to, maxsec, mult);
    } else {
      DoubleRate(from, to, mult);
    }
  }

  lemma NarrowRange(maxsec: nat)
    requires maxsec < TWO_32
    ensures MultBits(maxsec, 1) == 32
  {
    ZeroLength();
  }

  /** clocks_calc_mult_shift. A shift of 0 is what the search leaves behind when it runs out of shifts. */
  method CalcMultShift(from: uint32, to: uint32, maxsec: uint32) returns (mult: uint32, shift: uint32)
    requires from > 0
    ensures 0 <= MultBits(maxsec as int, from as int) <= 32 && shift <= 32
    ensures LargestFit(to as int, from as int, MultBits(maxsec as int, from as int), shift as int)
    ensures shift > 0 ==> mult as int == Rounded(to as int, shift as int, from as int)
    ensures shift > 0 ==> RangeCovered(maxsec as int, from as int, mult as int)
    // when no shift fits, the multiplier of shift 1 is returned beside shift 0
    ensures shift == 0 ==> mult as int == Rounded(to as int, 1, from as int) % TWO_32
    ensures shift == 0 ==> (AtRate(mult as int, 0, 2 * (to as int), from as int) <==> from > 1)
  {
    hide MultBits, Rounded, Fits, LargestFit, RangeCovered, AtRate;
    var sftacc := RangeBits(from, maxsec);
    ghost var f, t, bits := from as int, to as int, sftacc as int;
    var tmp: uint64 := 0;
    var sft: uint32 := 32;
    while sft > 0
      invariant sft <= 32
      invariant forall s: nat :: sft as int < s <= 32 ==> !Fits(t, s, f, bits)
      invariant sft < 32 ==> tmp as int == Rounded(t, sft as int + 1, f)
      decreases sft
    {
      var fits;
      tmp, fits := TryShift(from, to, sft, sftacc);
      if fits {
        FitIs32Bits(t, sft as int, f, bits);
        break;
      }
      sft := sft - 1;
    }
    mult := (tmp as int % 0x1_0000_0000) as uint32;
    shift := sft;
    SearchFound(t, f, maxsec as int, bits, sft as int);
    if sft == 0 {
      FailedSearchRate(f, t, maxsec as int, mult as int);
    }
  }

  lemma LengthAtLeast(x: nat, n: nat)
    requires x >= Pow2(n)
    ensures BitLength(x) > n
  {
    BitLengthBound(x);
    if BitLength(x) <= n { Pow2Monotone(BitLength(x), n); }
  }

  /** Such an input: a 2.1 GHz counter, the largest target frequency and the longest range. */
  lemma FailedSearchExample()
    ensures MultBits(0xFFFF_FFFF, 0x8000_0000) == 1
    ensures !Fits(0xFFFF_FFFF, 1, 0x8000_0000, 1)
  {
    assert 0xFFFF_FFFF * 0x8000_0000 / TWO_32 == 0x7FFF_FFFF;
    Pow2Values();
    BitLengthAtMost(0x7FFF_FFFF, 31);
    BitLengthBound(0x7FFF_FFFF);
    LengthAtLeast(0x7FFF_FFFF, 30);
    assert Rounded(0xFFFF_FFFF, 1, 0x8000_0000) == 4;
  }
}

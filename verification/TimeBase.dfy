/** The running clock of src/Core/src/clock.c: a wrapping cycle counter read now and then, accumulated into
    nanoseconds, and the busy wait that polls it. */
module TimeBase {
  import opened Div64
  import opened Clock

  /** The constants of struct clocksource: the mask is 2^bits - 1. */
  datatype Source = Source(mult: nat, shift: nat, bits: nat) {
    predicate Valid() { mult < TWO_32 && shift < 64 && bits <= 64 }

    function Period(): (p: nat)
      ensures p > 0
    {
      Pow2Positive(bits);
      Pow2(bits)
    }
  }

  /** What get_time_ns updates. */
  datatype State = State(cycleLast: nat, timeNs: nat)

  /** cyc2ns: the product is cut to 64 bits before the shift, and the result to 32 bits after it. */
  function Cyc2Ns(cs: Source, cycles: nat): (ns: nat)
    ensures ns < TWO_32
  {
    ShiftRight(Scaled(cycles, cs.mult) % TWO_64, cs.shift) % TWO_32
  }

  /** The cycles get_time_ns sees between the last reading and this one. */
  function Delta(cs: Source, s: State, raw: int): nat {
    ((raw % cs.Period() - s.cycleLast) % TWO_64) % cs.Period()
  }

  /** One call of get_time_ns when the counter register reads raw. */
  function Tick(cs: Source, s: State, raw: int): State {
    State(raw % cs.Period(), (s.timeNs + Cyc2Ns(cs, Delta(cs, s, raw))) % TWO_64)
  }

  /** Calls at the times the true cycle count is cycles[0], cycles[1], ...; the register shows its low 64 bits. */
  function RunFrom(cs: Source, s: State, cycles: seq<nat>): State
    decreases |cycles|
  {
    if cycles == [] then s else RunFrom(cs, Tick(cs, s, cycles[0] % TWO_64), cycles[1..])
  }

  /** The nanoseconds these calls add, before the 64-bit sum wraps. */
  function Advance(cs: Source, s: State, cycles: seq<nat>): nat
    decreases |cycles|
  {
    if cycles == [] then 0
    else Cyc2Ns(cs, Delta(cs, s, cycles[0] % TWO_64)) + Advance(cs, Tick(cs, s, cycles[0] % TWO_64), cycles[1..])
  }

  // ---- wrapping counters ------------------------------------------------------------------------

  lemma PeriodDivides(bits: nat, x: int)
    requires bits <= 64
    ensures Pow2(bits) > 0 && (x % TWO_64) % Pow2(bits) == x % Pow2(bits)
  {
    Pow2Positive(bits);
    Pow2Positive(64 - bits);
    Pow2Add(bits, 64 - bits);
    Pow2Values();
    hide Pow2;
    ModTwice(x, Pow2(bits), Pow2(64 - bits));
  }

  lemma WrapDifference(prev: nat, c: nat, p: nat)
    requires p > 0 && prev <= c < prev + p
    ensures (c % p - prev % p) % p == c - prev
  {
    assert c == (c / p) * p + c % p;
    assert prev == (prev / p) * p + prev % p;
    assert c % p - prev % p == (c - prev) + (prev / p - c / p) * p;
    ModUnique(c % p - prev % p, c - prev, p, prev / p - c / p);
  }

  /** However often the register wrapped, the difference is right as long as one period did not pass. */
  lemma DeltaIsElapsed(cs: Source, s: State, prev: nat, c: nat)
    requires cs.Valid() && s.cycleLast == prev % cs.Period()
    requires prev <= c < prev + cs.Period()
    ensures Delta(cs, s, c % TWO_64) == c - prev
    ensures Tick(cs, s, c % TWO_64).cycleLast == c % cs.Period()
  {
    var p := cs.Period();
    PeriodDivides(cs.bits, c);
    PeriodDivides(cs.bits, c % p - prev % p);
    WrapDifference(prev, c, p);
    hide Pow2, Cyc2Ns;
  }

  // ---- the bound on the drift -------------------------------------------------------------------

  /** Every conversion stays within its word: less than one period has passed, the product fits 64 bits and the
      nanoseconds fit 32. */
  predicate PolledInTime(cs: Source, prev: nat, cycles: seq<nat>)
    decreases |cycles|
  {
    cycles == [] ||
    (prev <= cycles[0] < prev + cs.Period() &&
     Scaled(cycles[0] - prev, cs.mult) < TWO_64 &&
     ShiftRight(Scaled(cycles[0] - prev, cs.mult), cs.shift) < TWO_32 &&
     PolledInTime(cs, cycles[0], cycles[1..]))
  }

  lemma ModAdd(x: nat, y: nat)
    ensures (x % TWO_64 + y) % TWO_64 == (x + y) % TWO_64
  {
  }

  lemma TickTime(cs: Source, s: State, raw: int)
    ensures Tick(cs, s, raw).timeNs == (s.timeNs + Cyc2Ns(cs, Delta(cs, s, raw))) % TWO_64
  {
  }

  /** get_time_ns adds exactly Advance, modulo 2^64. */
  lemma {:induction false} RunAddsAdvance(cs: Source, s: State, cycles: seq<nat>)
    requires s.timeNs < TWO_64
    ensures RunFrom(cs, s, cycles).timeNs == (s.timeNs + Advance(cs, s, cycles)) % TWO_64
    decreases |cycles|
  {
    if cycles != [] {
      hide Cyc2Ns, Delta, Tick;
      var raw := cycles[0] % TWO_64;
      var t := Tick(cs, s, raw);
      TickTime(cs, s, raw);
      RunAddsAdvance(cs, t, cycles[1..]);
      ModAdd(s.timeNs + Cyc2Ns(cs, Delta(cs, s, raw)), Advance(cs, t, cycles[1..]));
    }
  }

  lemma ScaledStep(x: nat, y: nat, z: nat, mult: nat)
    requires x <= y <= z
    ensures Scaled(z - x, mult) == Scaled(y - x, mult) + Scaled(z - y, mult)
  {
  }

  lemma AddFloors(q: nat, r: nat, n: nat, a: nat, b: nat, p: nat)
    requires q * p <= a < (q + 1) * p && r * p <= b && (n > 0 ==> b < (r + n) * p) && (n == 0 ==> b == 0 && r == 0)
    ensures (q + r) * p <= a + b < (q + r + n + 1) * p
  {
    assert (q + r) * p == q * p + r * p;
    assert (q + r + n + 1) * p == (q + 1) * p + (r + n) * p;
  }

  lemma NothingCut(cs: Source, cycles: nat)
    requires Scaled(cycles, cs.mult) < TWO_64 && ShiftRight(Scaled(cycles, cs.mult), cs.shift) < TWO_32
    ensures Cyc2Ns(cs, cycles) == ShiftRight(Scaled(cycles, cs.mult), cs.shift)
  {
    hide ShiftRight, Scaled;
  }

  /** One conversion that stays within its words is the exact product, rounded down. */
  lemma ConversionBounds(cs: Source, cycles: nat)
    requires Scaled(cycles, cs.mult) < TWO_64 && ShiftRight(Scaled(cycles, cs.mult), cs.shift) < TWO_32
    ensures Cyc2Ns(cs, cycles) * Pow2(cs.shift) <= Scaled(cycles, cs.mult) < (Cyc2Ns(cs, cycles) + 1) * Pow2(cs.shift)
  {
    hide ShiftRight, Scaled, Cyc2Ns, Pow2;
    NothingCut(cs, cycles);
    ShiftRightBounds(Scaled(cycles, cs.mult), cs.shift);
  }

  lemma NoCycles(mult: nat)
    ensures Scaled(0, mult) == 0
  {
  }

  /** Over any run of n polls covering C cycles the clock never runs ahead of C * mult / 2^shift, and lags behind it
      by less than n nanoseconds: only the rounding of each poll is lost. */
  lemma {:induction false} DriftBound(cs: Source, s: State, prev: nat, cycles: seq<nat>)
    requires cs.Valid() && s.cycleLast == prev % cs.Period()
    requires cycles != [] && PolledInTime(cs, prev, cycles)
    ensures prev <= cycles[|cycles| - 1]
    ensures Advance(cs, s, cycles) * Pow2(cs.shift) <= Scaled(cycles[|cycles| - 1] - prev, cs.mult)
    ensures Scaled(cycles[|cycles| - 1] - prev, cs.mult) < (Advance(cs, s, cycles) + |cycles|) * Pow2(cs.shift)
    decreases |cycles|
  {
    var c, rest := cycles[0], cycles[1..];
    var t := Tick(cs, s, c % TWO_64);
    var last := cycles[|cycles| - 1];
    DeltaIsElapsed(cs, s, prev, c);
    ConversionBounds(cs, c - prev);
    hide Cyc2Ns, Delta, Tick, ShiftRight, Pow2, Scaled;
    var r := Advance(cs, t, rest);
    NoCycles(cs.mult);
    if rest != [] {
      DriftBound(cs, t, c, rest);
      assert rest[|rest| - 1] == last;
    }
    ScaledStep(prev, c, last, cs.mult);
    AddFloors(Cyc2Ns(cs, c - prev), r, |rest|, Scaled(c - prev, cs.mult), Scaled(last - c, cs.mult), Pow2(cs.shift));
  }

  /** As long as the 64-bit sum does not overflow, time never runs backwards, and shows exactly what was added. */
  lemma TimeMonotone(cs: Source, s: State, cycles: seq<nat>)
    requires s.timeNs + Advance(cs, s, cycles) < TWO_64
    ensures RunFrom(cs, s, cycles).timeNs == s.timeNs + Advance(cs, s, cycles) >= s.timeNs
  {
    hide RunFrom, Advance;
    RunAddsAdvance(cs, s, cycles);
  }

  // ---- one more reading -------------------------------------------------------------------------

  lemma {:induction false} RunAppend(cs: Source, s: State, cycles: seq<nat>, c: nat)
    ensures RunFrom(cs, s, cycles + [c]) == Tick(cs, RunFrom(cs, s, cycles), c % TWO_64)
    ensures Advance(cs, s, cycles + [c]) ==
      Advance(cs, s, cycles) + Cyc2Ns(cs, Delta(cs, RunFrom(cs, s, cycles), c % TWO_64))
    decreases |cycles|
  {
    hide Tick, Cyc2Ns, Delta;
    if cycles == [] {
      assert RunFrom(cs, Tick(cs, s, c % TWO_64), []) == Tick(cs, s, c % TWO_64);
    } else {
      assert (cycles + [c])[1..] == cycles[1..] + [c];
      RunAppend(cs, Tick(cs, s, cycles[0] % TWO_64), cycles[1..], c);
    }
  }

  // ---- the busy wait ----------------------------------------------------------------------------

  /** The test of is_timeout: the 64-bit difference, read as a signed number, is negative. */
  predicate TimedOut(start: nat, offset: nat, now: nat) { (start + offset - now) % TWO_64 >= TWO_63 }

  /** While the wait has not gone further past its end than one reading can add, the signed test is exact, even when
      the 64-bit time wraps. */
  lemma TimeoutExact(start: nat, offset: nat, elapsed: nat)
    requires start < TWO_64 && offset <= TWO_63 - TWO_32 && elapsed < offset + TWO_32
    ensures TimedOut(start, offset, (start + elapsed) % TWO_64) <==> elapsed > offset
  {
    var q := (start + elapsed) / TWO_64;
    assert (start + elapsed) % TWO_64 == start + elapsed - q * TWO_64;
    var x := start + offset - (start + elapsed) % TWO_64;
    assert x == (offset - elapsed) + q * TWO_64;
    if elapsed > offset {
      ModUnique(x, offset - elapsed + TWO_64, TWO_64, q - 1);
    } else {
      ModUnique(x, offset - elapsed, TWO_64, q);
    }
  }

  /** One more reading of a wait that has not passed its end: what the clock shows, and that the test is exact. */
  lemma OneReading(cs: Source, s: State, begin: State, cycles: seq<nat>, n: nat, offset: nat)
    requires 1 <= n < |cycles| && begin.timeNs < TWO_64 && offset <= TWO_63 - TWO_32
    requires RunFrom(cs, s, cycles[..n]) == RunFrom(cs, begin, cycles[1..n])
    requires Advance(cs, begin, cycles[1..n]) <= offset
    ensures
      var now := Tick(cs, RunFrom(cs, s, cycles[..n]), cycles[n] % TWO_64);
      RunFrom(cs, s, cycles[..n + 1]) == now == RunFrom(cs, begin, cycles[1..n + 1]) &&
      (TimedOut(begin.timeNs, offset, now.timeNs) <==> Advance(cs, begin, cycles[1..n + 1]) > offset)
  {
    hide Tick, Cyc2Ns, Delta, TimedOut, RunFrom, Advance;
    assert cycles[..n + 1] == cycles[..n] + [cycles[n]];
    assert cycles[1..n + 1] == cycles[1..n] + [cycles[n]];
    RunAppend(cs, s, cycles[..n], cycles[n]);
    RunAppend(cs, begin, cycles[1..n], cycles[n]);
    RunAddsAdvance(cs, begin, cycles[1..n + 1]);
    TimeoutExact(begin.timeNs, offset, Advance(cs, begin, cycles[1..n + 1]));
  }

  lemma FirstReading(cs: Source, s: State, cycles: seq<nat>)
    requires cycles != []
    ensures
      var begin := Tick(cs, s, cycles[0] % TWO_64);
      RunFrom(cs, s, cycles[..1]) == begin == RunFrom(cs, begin, cycles[1..1]) && begin.timeNs < TWO_64 &&
      Advance(cs, begin, cycles[1..1]) == 0
  {
    hide Cyc2Ns, Delta;
    assert cycles[..1] == [] + [cycles[0]];
    RunAppend(cs, s, [], cycles[0]);
  }

  class RunningClock {
    const cs: Source
    var cycleLast: nat
    var timeNs: nat

    ghost function Now(): State
      reads this
    {
      State(cycleLast, timeNs)
    }

    constructor (source: Source)
      ensures cs == source && Now() == State(0, 0)
    {
      cs, cycleLast, timeNs := source, 0, 0;
    }

    /** get_time_ns, when the counter register reads raw. */
    method GetTimeNs(raw: nat) returns (now: nat)
      modifies this
      ensures Now() == Tick(cs, old(Now()), raw) && now == timeNs
    {
      var cycleNow := raw % cs.Period();
      var delta := ((cycleNow - cycleLast) % TWO_64) % cs.Period();
      var nsOffset := Cyc2Ns(cs, delta);
      cycleLast := cycleNow;
      timeNs := (timeNs + nsOffset) % TWO_64;
      now := timeNs;
    }

    /** is_timeout. */
    method IsTimeout(start: nat, offset: nat, raw: nat) returns (out: bool)
      modifies this
      ensures Now() == Tick(cs, old(Now()), raw) && out == TimedOut(start, offset, timeNs)
    {
      var now := GetTimeNs(raw);
      out := (start + offset - now) % TWO_64 >= TWO_63;
    }

    /** ndelay, over the true cycle counts at which the register is read; it returns at the first reading at which
        more than the requested time has passed on this clock since its own first reading, or has used them all. */
    method Wait(offset: nat, cycles: seq<nat>) returns (done: bool, used: nat)
      requires offset <= TWO_63 - TWO_32 && cycles != []
      modifies this
      ensures 1 <= used <= |cycles| && (done || used == |cycles|)
      ensures Now() == RunFrom(cs, old(Now()), cycles[..used])
      ensures
        var begin := Tick(cs, old(Now()), cycles[0] % TWO_64);
        (done ==> Advance(cs, begin, cycles[1..used]) > offset) &&
        forall k :: 1 <= k <= used && (done ==> k < used) ==> Advance(cs, begin, cycles[1..k]) <= offset
    {
      hide Tick, TimedOut, RunFrom, Advance;
      ghost var s := Now();
      FirstReading(cs, s, cycles);
      var start := GetTimeNs(cycles[0] % TWO_64);
      ghost var begin := Now();
      done, used := false, 1;
      while !done && used < |cycles|
        invariant 1 <= used <= |cycles|
        invariant Now() == RunFrom(cs, s, cycles[..used]) == RunFrom(cs, begin, cycles[1..used])
        invariant done ==> Advance(cs, begin, cycles[1..used]) > offset
        invariant forall k :: 1 <= k <= used && (done ==> k < used) ==> Advance(cs, begin, cycles[1..k]) <= offset
      {
        OneReading(cs, s, begin, cycles, used, offset);
        done := IsTimeout(start, offset, cycles[used] % TWO_64);
        used := used + 1;
      }
    }

    method NDelay(nsecs: nat, cycles: seq<nat>) returns (done: bool, used: nat)
      requires nsecs < TWO_32 && cycles != []
      modifies this
      ensures 1 <= used <= |cycles| && (done || used == |cycles|)
      ensures Now() == RunFrom(cs, old(Now()), cycles[..used])
      ensures done <==> Advance(cs, Tick(cs, old(Now()), cycles[0] % TWO_64), cycles[1..used]) > nsecs
    {
      hide RunFrom, Advance, Tick;
      done, used := Wait(nsecs, cycles);
    }

    /** udelay counts in microseconds. */
    method UDelay(usecs: nat, cycles: seq<nat>) returns (done: bool, used: nat)
      requires usecs < TWO_32 && cycles != []
      modifies this
      ensures 1 <= used <= |cycles| && (done || used == |cycles|)
      ensures Now() == RunFrom(cs, old(Now()), cycles[..used])
      ensures done <==> Advance(cs, Tick(cs, old(Now()), cycles[0] % TWO_64), cycles[1..used]) > usecs * 1000
    {
      hide RunFrom, Advance, Tick;
      done, used := Wait(usecs * 1000, cycles);
    }

    /** mdelay counts in milliseconds. */
    method MDelay(msecs: nat, cycles: seq<nat>) returns (done: bool, used: nat)
      requires msecs < TWO_32 && cycles != []
      modifies this
      ensures 1 <= used <= |cycles| && (done || used == |cycles|)
      ensures Now() == RunFrom(cs, old(Now()), cycles[..used])
      ensures done <==> Advance(cs, Tick(cs, old(Now()), cycles[0] % TWO_64), cycles[1..used]) > msecs * 1_000_000
    {
      hide RunFrom, Advance, Tick;
      done, used := Wait(msecs * 1_000_000, cycles);
    }
  }

  // ---- against true time ------------------------------------------------------------------------

  /** What a finished wait says about the counter: more cycles have passed than the requested time takes at the
      clock's rate of mult / 2^shift nanoseconds a cycle. */
  lemma DelayLongEnough(cs: Source, s: State, prev: nat, cycles: seq<nat>, offset: nat)
    requires cs.Valid() && s.cycleLast == prev % cs.Period()
    requires cycles != [] && PolledInTime(cs, prev, cycles) && Advance(cs, s, cycles) > offset
    ensures prev <= cycles[|cycles| - 1]
    ensures Scaled(cycles[|cycles| - 1] - prev, cs.mult) > offset * Pow2(cs.shift)
  {
    DriftBound(cs, s, prev, cycles);
    hide Advance, Scaled;
    Pow2Positive(cs.shift);
    MoreTimes(offset, Advance(cs, s, cycles), Pow2(cs.shift));
  }

  lemma MoreTimes(a: nat, b: nat, p: nat)
    requires a < b && p > 0
    ensures a * p < b * p
  {
  }

  lemma Factor(a: int, b: int, f: nat)
    requires a <= b
    ensures a * f <= b * f
  {
  }

  lemma FactorBelow(a: int, b: int, f: nat)
    requires a < b && f > 0
    ensures a * f < b * f
  {
  }

  lemma NotFast(x: int, c: nat, m: nat, f: nat, k: int)
    requires x <= c * m && m * f <= k
    ensures x * f <= k * c
  {
    Factor(x, c * m, f);
    Factor(m * f, k, c);
    assert c * m * f == m * f * c;
  }

  lemma NotSlow(x: int, c: nat, m: nat, f: nat, k: int)
    requires c * m < x && k <= m * f && f > 0
    ensures k * c < x * f
  {
    FactorBelow(c * m, x, f);
    Factor(k, m * f, c);
    assert c * m * f == m * f * c;
  }

  lemma SplitPolls(a: nat, n: nat, p: nat, f: nat)
    ensures (a + n) * p * f == a * p * f + n * p * f
  {
    assert (a + n) * p == a * p + n * p;
  }

  /** Against true time, C cycles at `from` Hz being C * to / from ticks of the target rate: with the multiplier of the
      search the clock is never fast by more than the rounding of the multiplier, and never slow by more than that
      plus one unit a poll. */
  lemma DriftFromTrueTime(cs: Source, s: State, prev: nat, cycles: seq<nat>, from: nat, to: nat)
    requires cs.Valid() && s.cycleLast == prev % cs.Period()
    requires cycles != [] && PolledInTime(cs, prev, cycles) && from > 0 && cs.mult == Rounded(to, cs.shift, from)
    ensures prev <= cycles[|cycles| - 1]
    ensures
      var c, p, a := cycles[|cycles| - 1] - prev, Pow2(cs.shift), Advance(cs, s, cycles);
      (to * p - from / 2) * c - |cycles| * p * from < a * p * from <= (to * p + from / 2) * c
  {
    DriftBound(cs, s, prev, cycles);
    RoundedNearest(to, cs.shift, from);
    var c, p, a := cycles[|cycles| - 1] - prev, Pow2(cs.shift), Advance(cs, s, cycles);
    hide Advance, Pow2, Rounded, PolledInTime, Cyc2Ns;
    NotFast(a * p, c, cs.mult, from, to * p + from / 2);
    NotSlow((a + |cycles|) * p, c, cs.mult, from, to * p - from / 2);
    SplitPolls(a, |cycles|, p, from);
  }

  /** Readings no further apart than gap cycles. */
  predicate PolledEvery(gap: nat, prev: nat, cycles: seq<nat>)
    decreases |cycles|
  {
    cycles == [] || (prev <= cycles[0] <= prev + gap && PolledEvery(gap, cycles[0], cycles[1..]))
  }

  /** A gap that keeps every conversion within its words: less than a period of the counter, within the range the
      multiplier was chosen for, and less than 2^32 nanoseconds. */
  predicate SafeGap(cs: Source, gap: nat, maxsec: nat, from: nat) {
    gap < cs.Period() && gap <= maxsec * from && Scaled(gap, cs.mult) < TWO_32 * Pow2(cs.shift)
  }

  lemma SmallerShifted(x: nat, y: nat, n: nat)
    requires x <= y < TWO_32 * Pow2(n)
    ensures ShiftRight(x, n) < TWO_32
  {
    ShiftRightBounds(x, n);
    hide ShiftRight, Pow2;
    SmallerFactor(ShiftRight(x, n), TWO_32, Pow2(n));
  }

  /** The range given to the search is what the bound on the drift needs. */
  lemma {:induction false} RangeSuffices(cs: Source, gap: nat, maxsec: nat, from: nat, prev: nat, cycles: seq<nat>)
    requires RangeCovered(maxsec, from, cs.mult) && SafeGap(cs, gap, maxsec, from) && PolledEvery(gap, prev, cycles)
    ensures PolledInTime(cs, prev, cycles)
    decreases |cycles|
  {
    if cycles != [] {
      var c := cycles[0] - prev;
      assert Scaled(c, cs.mult) < TWO_64;
      ProductAtMost(c, cs.mult, gap, cs.mult);
      hide ShiftRight, Pow2, RangeCovered;
      SmallerShifted(Scaled(c, cs.mult), Scaled(gap, cs.mult), cs.shift);
      RangeSuffices(cs, gap, maxsec, from, cycles[0], cycles[1..]);
    }
  }

  /** From the search to the drift: a clock that runs on the multiplier and the shift of a successful search for maxsec
      seconds, read often enough, is never off from true time by more than the rounding of the multiplier and one unit
      a reading. */
  lemma DriftOfFoundClock(cs: Source, s: State, prev: nat, cycles: seq<nat>, gap: nat, from: nat, to: nat, maxsec: nat)
    requires cs.Valid() && s.cycleLast == prev % cs.Period() && from > 0 && cycles != []
    requires cs.shift > 0 && cs.mult == Rounded(to, cs.shift, from) && RangeCovered(maxsec, from, cs.mult)
    requires SafeGap(cs, gap, maxsec, from) && PolledEvery(gap, prev, cycles)
    ensures prev <= cycles[|cycles| - 1]
    ensures
      var c, p, a := cycles[|cycles| - 1] - prev, Pow2(cs.shift), Advance(cs, s, cycles);
      (to * p - from / 2) * c - |cycles| * p * from < a * p * from <= (to * p + from / 2) * c
  {
    hide SafeGap, PolledEvery, RangeCovered, Advance, Rounded, PolledInTime, Pow2;
    RangeSuffices(cs, gap, maxsec, from, prev, cycles);
    DriftFromTrueTime(cs, s, prev, cycles, from, to);
  }

  /** The result is cut to 32 bits: a conversion whose product fits is right exactly up to 2^32 nanoseconds, a little
      over four seconds, however long a range the multiplier was chosen for. */
  lemma ConversionExact(cs: Source, cycles: nat)
    requires Scaled(cycles, cs.mult) < TWO_64
    ensures Cyc2Ns(cs, cycles) == ShiftRight(Scaled(cycles, cs.mult), cs.shift) <==>
            ShiftRight(Scaled(cycles, cs.mult), cs.shift) < TWO_32
  {
    hide ShiftRight;
  }

  /** Five seconds of a 1 GHz counter, converted with the multiplier 2^29 and the shift 29 that fit a ten-second range,
      come out as 0.7 seconds. */
  lemma ConversionCut(bits: nat)
    ensures Scaled(5_000_000_000, 0x2000_0000) < TWO_64
    ensures Cyc2Ns(Source(0x2000_0000, 29, bits), 5_000_000_000) == 705_032_704
  {
    var x := Scaled(5_000_000_000, 0x2000_0000);
    Pow2Add(29, 2);
    Pow2Values();
    ShiftRightBounds(x, 29);
    hide Pow2, ShiftRight;
    assert Pow2(2) == 4 by { PowTwo(); }
    assert Pow2(29) == 0x2000_0000;
    assert ShiftRight(x, 29) == 5_000_000_000;
  }

  /** A product that reaches 2^64 loses what is above it: 2^33 cycles of a quarter of a nanosecond each, which take 2^31
      nanoseconds, come out as nothing. */
  lemma ProductCut(bits: nat)
    ensures Scaled(0x2_0000_0000, 0x8000_0000) == TWO_64
    ensures ShiftRight(TWO_64, 33) == 0x8000_0000
    ensures Cyc2Ns(Source(0x8000_0000, 33, bits), 0x2_0000_0000) == 0
  {
    Pow2Add(32, 1);
    Pow2Values();
    ShiftRightZero(0, 33);
    ShiftRightBounds(TWO_64, 33);
    assert Pow2(1) == 2;
    hide Pow2, ShiftRight;
    assert Pow2(33) == 0x2_0000_0000;
  }

  lemma PowTwo()
    ensures Pow2(2) == 4
  {
  }
}

/** Division of a 64-bit number by a 32-bit one, by shifting and subtracting (src/Core/src/div64.c,
    src/Core/inc/div64.h).
    The machine words are bounded types, so that every addition, product and shift below is also proved not to
    wrap around. */
module Div64 {

  const TWO_32: int := 0x1_0000_0000
  const TWO_63: int := 0x8000_0000_0000_0000
  const TWO_64: int := 0x1_0000_0000_0000_0000

  newtype uint32 = x: int | 0 <= x < 0x1_0000_0000
  newtype uint64 = x: int | 0 <= x < 0x1_0000_0000_0000_0000

  /** What a division promises: the one quotient and remainder of n by base. */
  predicate IsDivision(n: int, base: int, q: int, r: int) { n == q * base + r && 0 <= r < base }

  lemma ProductAtLeast(k: int, base: int)
    requires base > 0
    ensures k >= 1 ==> k * base >= base
    ensures k <= -1 ==> k * base <= -base
  {
  }

  lemma MultipleBelow(k: int, base: int, r: int, r2: int)
    requires 0 <= r < base && 0 <= r2 < base && k * base == r - r2
    ensures k == 0
  {
    ProductAtLeast(k, base);
  }

  lemma DivisionUnique(n: int, base: int, q: int, r: int, q2: int, r2: int)
    requires IsDivision(n, base, q, r) && IsDivision(n, base, q2, r2)
    ensures q == q2 && r == r2
  {
    assert (q2 - q) * base == r - r2;
    MultipleBelow(q2 - q, base, r, r2);
  }

  lemma DivisionIs(n: int, base: int, q: int, r: int)
    requires IsDivision(n, base, q, r)
    ensures q == n / base && r == n % base
  {
    DivisionUnique(n, base, q, r, n / base, n % base);
  }

  predicate PowerOfTwo(d: int)
    decreases d
  {
    d == 1 || (d > 1 && d % 2 == 0 && PowerOfTwo(d / 2))
  }

  lemma Doubled(d: int)
    requires PowerOfTwo(d)
    ensures PowerOfTwo(2 * d)
  {
    assert 2 * d / 2 == d;
  }

  /** The part still to divide, next to the quotient collected so far. */
  predicate Split(n: int, base: int, res: int, rem: int) { n == res * base + rem }

  /** The subtrahend of a round: d times the base, d a power of two. */
  predicate Block(b: int, base: int, d: int) { b == base * d && d <= b && PowerOfTwo(d) }

  lemma FirstBlock(base: int)
    requires base > 0
    ensures Block(base, base, 1)
  {
  }

  lemma DoubleBlock(b: int, base: int, d: int)
    requires Block(b, base, d)
    ensures Block(b + b, base, d + d)
  {
    Doubled(d);
    assert b + b == base * (d + d);
  }

  lemma HalveBlock(b: int, base: int, d: int)
    requires Block(b, base, d) && d > 1 && base > 0
    ensures Block(b / 2, base, d / 2) && 2 * (b / 2) == b && 0 < d / 2 < d
  {
    assert d == 2 * (d / 2);
    assert b == 2 * (base * (d / 2));
    assert base * (d / 2) >= d / 2;
  }

  lemma LastBlock(b: int, base: int, d: int)
    requires Block(b, base, d) && d <= 1
    ensures d == 1 && b == base
  {
  }

  lemma SubtractBlock(n: int, base: int, res: int, rem: int, b: int, d: int)
    requires Split(n, base, res, rem) && Block(b, base, d) && 0 <= b <= rem && base > 0 && res >= 0 && d >= 0
    ensures Split(n, base, res + d, rem - b) && res + d <= n
  {
    assert (res + d) * base == res * base + base * d;
    assert (res + d) * base >= res + d;
  }

  lemma TopBlock(n: int, base: int, high: int, top: int)
    requires 0 <= n < TWO_64 && 0 < base < TWO_32 && high == n / TWO_32 && top == high / base
    ensures 0 <= top * base <= high
    ensures 0 <= top * base * TWO_32 <= n
    ensures Split(n, base, top * TWO_32, n - top * base * TWO_32)
  {
    assert high == top * base + high % base;
    assert n == high * TWO_32 + n % TWO_32;
    assert top * base >= 0;
    assert (top * base) * TWO_32 <= high * TWO_32;
    assert (top * TWO_32) * base == top * base * TWO_32;
  }

  lemma NoTopBlock(n: int, base: int)
    ensures Split(n, base, 0, n)
  {
  }

  /** __div64_32: quotient and remainder of any 64-bit n by any base but zero. */
  method Div64By32(n: uint64, base: uint32) returns (res: uint64, rem: uint64)
    requires base > 0
    ensures IsDivision(n as int, base as int, res as int, rem as int)
  {
    hide Block, Split, PowerOfTwo;
    rem := n;
    var b: uint64 := base as uint64;
    var d: uint64 := 1;
    var high: uint32 := (n / 0x1_0000_0000) as uint32;

    // the upper half is divided directly
    res := 0;
    NoTopBlock(n as int, base as int);
    if high >= base {
      var top := high / base;
      TopBlock(n as int, base as int, high as int, top as int);
      high := top;
      res := high as uint64 * 0x1_0000_0000;
      rem := rem - (high * base) as uint64 * 0x1_0000_0000;
    }

    FirstBlock(base as int);
    while 0 < b < 0x8000_0000_0000_0000 && b < rem
      invariant b > 0 && Block(b as int, base as int, d as int)
      invariant d <= b
      decreases rem as int - b as int
    {
      DoubleBlock(b as int, base as int, d as int);
      b := b + b;
      d := d + d;
    }

    // do ... while (d)
    while true
      invariant d > 0 && rem as int < 2 * b as int
      invariant Block(b as int, base as int, d as int)
      invariant Split(n as int, base as int, res as int, rem as int)
      decreases d
    {
      if rem >= b {
        SubtractBlock(n as int, base as int, res as int, rem as int, b as int, d as int);
        rem := rem - b;
        res := res + d;
      }
      if d > 1 {
        HalveBlock(b as int, base as int, d as int);
      } else {
        LastBlock(b as int, base as int, d as int);
      }
      b := b / 2;
      d := d / 2;
      if d == 0 { break; }
    }
    Finish(n as int, base as int, res as int, rem as int);
  }

  lemma Finish(n: int, base: int, res: int, rem: int)
    requires Split(n, base, res, rem) && 0 <= rem < base
    ensures IsDivision(n, base, res, rem)
  {
  }

  /** do_div: the macro divides directly when the upper half is empty, and calls the loop otherwise. */
  method DoDiv(n: uint64, base: uint32) returns (res: uint64, rem: uint32)
    requires base > 0
    ensures IsDivision(n as int, base as int, res as int, rem as int)
  {
    if n / 0x1_0000_0000 == 0 {
      var low := n as uint32;
      rem := low % base;
      res := (low / base) as uint64;
      assert low as int == (low as int / base as int) * base as int + low as int % base as int;
    } else {
      var q, r := Div64By32(n, base);
      res, rem := q, r as uint32;
    }
  }

  // ---- wrapping counters ------------------------------------------------------------------------

  lemma ModUnique(x: int, y: int, m: int, k: int)
    requires 0 <= y < m && x == y + k * m
    ensures x % m == y
  {
    var q, r := x / m, x % m;
    assert (q - k) * m == y - r;
    MultipleBelow(q - k, m, y, r);
  }

  lemma ModTwice(x: int, m: nat, k: nat)
    requires m > 0 && k > 0
    ensures (x % (m * k)) % m == x % m
  {
    assert m * k > 0;
    var q, r := x / (m * k), x % (m * k);
    assert x == q * (m * k) + r;
    assert r == (r / m) * m + r % m;
    assert q * (m * k) == (q * k) * m;
    assert x == r % m + (q * k + r / m) * m;
    ModUnique(x, r % m, m, q * k + r / m);
  }
}

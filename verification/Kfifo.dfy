/** The byte ring of src/Core/src/kfifo.c: a power-of-two buffer between two free-running 32-bit counters. Every
    operation refines one on a bounded sequence of bytes, wherever the counters stand. */
module Kfifo {
  import opened Div64
  import opened Clock
  import opened Options

  const TWO_31: int := 0x8000_0000

  function Min(a: nat, b: nat): nat { if a <= b then a else b }

  /** The distance from one 32-bit counter to another. */
  function Distance(to: nat, from: nat): nat { (to - from) % TWO_32 }

  /** The last n bytes of s, or all of them. */
  function LastBytes(s: seq<bv8>, n: nat): (r: seq<bv8>)
    ensures |r| == Min(|s|, n)
  {
    s[|s| - Min(|s|, n)..]
  }

  // ---- slots ------------------------------------------------------------------------------------

  /** A power of two that an unsigned int can hold; the counters wrap at a multiple of it. */
  ghost predicate RingSize(size: nat) { exists k: nat :: k <= 31 && size == Pow2(k) }

  lemma RingSizeDivides(size: nat)
    requires RingSize(size)
    ensures 0 < size <= TWO_31 && exists q: nat :: q > 0 && size * q == TWO_32
  {
    var k: nat :| k <= 31 && size == Pow2(k);
    Pow2Positive(k);
    Pow2Positive(32 - k);
    Pow2Monotone(k, 31);
    Pow2Add(k, 32 - k);
    Pow2Values();
    assert size * Pow2(32 - k) == TWO_32;
  }

  /** A position's place in the buffer: masking by size - 1. */
  function Slot(x: int, size: nat): (slot: nat)
    requires size > 0
    ensures slot < size
  {
    x % size
  }

  /** The slot of a counter does not depend on whether the counter wrapped. */
  lemma SlotOfWrapped(x: int, size: nat)
    requires RingSize(size)
    ensures size > 0 && Slot(x % TWO_32, size) == Slot(x, size)
  {
    RingSizeDivides(size);
    var q: nat :| q > 0 && size * q == TWO_32;
    ModTwice(x, size, q);
  }

  lemma SlotShift(x: int, y: int, size: nat)
    requires size > 0
    ensures Slot(Slot(x, size) + y, size) == Slot(x + y, size)
  {
    var q := x / size;
    assert x == size * q + x % size;
    var z := (x % size + y) % size;
    assert x % size + y == size * ((x % size + y) / size) + z;
    assert x + y == z + (q + (x % size + y) / size) * size;
    ModUnique(x + y, z, size, q + (x % size + y) / size);
  }

  lemma SlotNear(y: nat, size: nat)
    requires size > 0
    ensures y < size ==> Slot(y, size) == y
    ensures size <= y < size + size ==> Slot(y, size) == y - size
  {
    if size <= y < size + size {
      ModUnique(y, y - size, size, 1);
    }
  }

  /** Two positions less than a ring apart have different slots. */
  lemma SlotsDiffer(i: int, j: int, size: nat)
    requires size > 0 && i < j < i + size
    ensures Slot(i, size) != Slot(j, size)
  {
    var qi, qj := i / size, j / size;
    assert i == qi * size + i % size && j == qj * size + j % size;
    if i % size == j % size {
      assert (qj - qi) * size == j - i;
      ProductAtLeast(qj - qi, size);
    }
  }

  lemma SlotCases(x: int, i: nat, size: nat)
    requires size > 0 && i <= size
    ensures Slot(x + i, size) == if Slot(x, size) + i < size then Slot(x, size) + i else Slot(x, size) + i - size
  {
    SlotShift(x, i, size);
    SlotNear(Slot(x, size) + i, size);
    hide Slot;
  }

  lemma DistanceReaches(tail: nat, head: nat)
    requires tail < TWO_32 && head < TWO_32
    ensures (head + Distance(tail, head)) % TWO_32 == tail
  {
    var q := (tail - head) / TWO_32;
    assert tail - head == q * TWO_32 + Distance(tail, head);
    ModUnique(head + Distance(tail, head), tail, TWO_32, -q);
  }

  /** Counters that agree up to wrapping have the same slots behind them. */
  lemma SlotsAlike(x: nat, y: nat, i: nat, size: nat)
    requires size > 0 && Slot(x, size) == Slot(y, size)
    ensures Slot(x + i, size) == Slot(y + i, size)
  {
    SlotShift(x, i, size);
    SlotShift(y, i, size);
    hide Slot;
  }

  /** The writer's counter stands where the stored bytes end. */
  lemma EndSlot(tail: nat, head: nat, i: nat, size: nat)
    requires RingSize(size) && tail < TWO_32 && head < TWO_32
    ensures size > 0 && Slot(tail + i, size) == Slot(head + Distance(tail, head) + i, size)
  {
    var n := Distance(tail, head);
    DistanceReaches(tail, head);
    SlotOfWrapped(head + n, size);
    hide Slot, Distance, RingSize;
    SlotsAlike(tail, head + n, i, size);
  }

  function ByteAt(buf: seq<bv8>, from: nat, i: nat): bv8
    requires |buf| > 0
  {
    buf[Slot(from + i, |buf|)]
  }

  /** The bytes in n slots from a position on. */
  function Slots(buf: seq<bv8>, from: nat, n: nat): (r: seq<bv8>)
    requires |buf| > 0
    ensures |r| == n && forall i :: 0 <= i < n ==> r[i] == ByteAt(buf, from, i)
  {
    seq(n, i requires 0 <= i < n => ByteAt(buf, from, i))
  }

  // ---- counters ---------------------------------------------------------------------------------

  lemma DistanceAdvances(tail: nat, head: nat, n: nat)
    requires tail < TWO_32 && head < TWO_32 && Distance(tail, head) + n < TWO_32
    ensures Distance((tail + n) % TWO_32, head) == Distance(tail, head) + n
  {
    var d := Distance(tail, head);
    var k := (tail - head - d) / TWO_32;
    assert tail - head == d + k * TWO_32;
    var q := (tail + n) / TWO_32;
    assert (tail + n) % TWO_32 - head == d + n + (k - q) * TWO_32;
    ModUnique((tail + n) % TWO_32 - head, d + n, TWO_32, k - q);
  }

  lemma DistanceShrinks(tail: nat, head: nat, n: nat)
    requires tail < TWO_32 && head < TWO_32 && n <= Distance(tail, head)
    ensures Distance(tail, (head + n) % TWO_32) == Distance(tail, head) - n
  {
    var d := Distance(tail, head);
    var k := (tail - head - d) / TWO_32;
    assert tail - head == d + k * TWO_32;
    var q := (head + n) / TWO_32;
    assert tail - (head + n) % TWO_32 == d - n + (k + q) * TWO_32;
    ModUnique(tail - (head + n) % TWO_32, d - n, TWO_32, k + q);
  }

  /** The room the writer computes, whatever the counters have wrapped to. */
  lemma FreeSpace(tail: nat, head: nat, size: nat)
    requires Distance(tail, head) <= size <= TWO_31
    ensures (size - tail + head) % TWO_32 == size - Distance(tail, head)
  {
    var d := Distance(tail, head);
    var k := (tail - head) / TWO_32;
    assert tail - head == d + k * TWO_32;
    ModUnique(size - tail + head, size - d, TWO_32, -k);
  }

  // ---- what storing and removing does to the stored bytes ---------------------------------------

  /** Storing bytes behind the stored ones appends them. */
  lemma StoringAppends(buf: seq<bv8>, buf': seq<bv8>, head: nat, n: nat, data: seq<bv8>)
    requires |buf'| == |buf| && |buf| > 0
    requires forall i :: 0 <= i < |data| ==> ByteAt(buf', head + n, i) == data[i]
    requires forall i :: 0 <= i < n ==> ByteAt(buf', head, i) == ByteAt(buf, head, i)
    ensures Slots(buf', head, n + |data|) == Slots(buf, head, n) + data
  {
    forall i | 0 <= i < n + |data|
      ensures ByteAt(buf', head, i) == (Slots(buf, head, n) + data)[i]
    {
      if i >= n {
        assert ByteAt(buf', head + n, i - n) == data[i - n];
        assert head + n + (i - n) == head + i;
      }
    }
    hide ByteAt;
  }

  lemma DropSlots(buf: seq<bv8>, head: nat, n: nat, k: nat)
    requires RingSize(|buf|) && k <= n
    ensures |buf| > 0 && Slots(buf, (head + k) % TWO_32, n - k) == Slots(buf, head, n)[k..]
  {
    SlotOfWrapped(head + k, |buf|);
    hide Slot, RingSize;
    var rest, all := Slots(buf, (head + k) % TWO_32, n - k), Slots(buf, head, n)[k..];
    forall i | 0 <= i < n - k
      ensures rest[i] == all[i]
    {
      SlotsAlike((head + k) % TWO_32, head + k, i, |buf|);
      assert head + k + i == head + (k + i);
    }
  }

  /** A stored byte's slot is none of those the writer fills. */
  lemma NotWritten(tail: nat, head: nat, i: nat, len: nat, size: nat)
    requires RingSize(size) && tail < TWO_32 && head < TWO_32
    requires i < Distance(tail, head) && Distance(tail, head) + len <= size
    ensures size > 0
    ensures
      var slot, at := Slot(head + i, size), Slot(tail, size);
      var l := Min(len, size - at);
      !(at <= slot < at + l) && !(slot < len - l)
  {
    RingSizeDivides(size);
    var n := Distance(tail, head);
    var slot, at := Slot(head + i, size), Slot(tail, size);
    var l := Min(len, size - at);
    hide Slot, RingSize, Distance;
    if at <= slot < at + l {
      SlotCases(tail, slot - at, size);
      EndSlot(tail, head, slot - at, size);
      SlotsDiffer(head + i, head + n + (slot - at), size);
    } else if slot < len - l {
      SlotCases(tail, l + slot, size);
      EndSlot(tail, head, l + slot, size);
      SlotsDiffer(head + i, head + n + (l + slot), size);
    }
  }

  /** One byte more than the ring holds: it takes the oldest one's slot. */
  lemma FullRing(buf: seq<bv8>, buf': seq<bv8>, head: nat, c: bv8)
    requires |buf| > 0 && buf' == buf[Slot(head + |buf|, |buf|) := c]
    ensures Slots(buf', head, |buf| + 1)[1..] == Slots(buf, head, |buf|)[1..] + [c]
  {
    hide Slot;
    forall i | 1 <= i < |buf|
      ensures ByteAt(buf', head, i) == ByteAt(buf, head, i)
    {
      SlotsDiffer(head + i, head + |buf|, |buf|);
    }
    assert ByteAt(buf', head, |buf|) == c;
    hide ByteAt;
  }

  /** One byte stored at the writer's counter, the ring full or not. */
  lemma ByteStored(buf: seq<bv8>, buf': seq<bv8>, tail: nat, head: nat, c: bv8)
    requires RingSize(|buf|) && tail < TWO_32 && head < TWO_32 && Distance(tail, head) <= |buf|
    requires |buf| > 0 && buf' == buf[Slot(tail, |buf|) := c]
    ensures
      var n := Distance(tail, head);
      if n < |buf| then Slots(buf', head, n + 1) == Slots(buf, head, n) + [c]
      else Slots(buf', head, n + 1)[1..] == Slots(buf, head, n)[1..] + [c]
  {
    hide Slot, RingSize, Distance, Slots;
    var n := Distance(tail, head);
    EndSlot(tail, head, 0, |buf|);
    if n < |buf| {
      forall i | 0 <= i < n
        ensures ByteAt(buf', head, i) == ByteAt(buf, head, i)
      {
        SlotsDiffer(head + i, head + n, |buf|);
      }
      assert ByteAt(buf', head + n, 0) == c;
      StoringAppends(buf, buf', head, n, [c]);
    } else {
      FullRing(buf, buf', head, c);
    }
  }

  /** What the two copies leave in slot j. */
  function Copied(buf: seq<bv8>, at: nat, l: nat, data: seq<bv8>, j: nat): bv8
    requires j < |buf| && l <= |data|
  {
    if j < |data| - l then data[l + j] else if at <= j < at + l then data[j - at] else buf[j]
  }

  lemma CopyStores(buf: seq<bv8>, buf': seq<bv8>, tail: nat, head: nat, data: seq<bv8>)
    requires RingSize(|buf|) && tail < TWO_32 && head < TWO_32 && Distance(tail, head) + |data| <= |buf|
    requires |buf| > 0 && |buf'| == |buf|
    requires
      var at := Slot(tail, |buf|);
      var l := Min(|data|, |buf| - at);
      forall j :: 0 <= j < |buf| ==> buf'[j] == Copied(buf, at, l, data, j)
    ensures Slots(buf', head, Distance(tail, head) + |data|) == Slots(buf, head, Distance(tail, head)) + data
  {
    var n, size := Distance(tail, head), |buf|;
    hide Slot, RingSize, Distance, Slots;
    forall i | 0 <= i < |data|
      ensures ByteAt(buf', head + n, i) == data[i]
    {
      EndSlot(tail, head, i, size);
      SlotCases(tail, i, size);
    }
    forall i | 0 <= i < n
      ensures ByteAt(buf', head, i) == ByteAt(buf, head, i)
    {
      NotWritten(tail, head, i, |data|, size);
    }
    hide ByteAt;
    StoringAppends(buf, buf', head, n, data);
  }

  /** What kfifo_get copies, in two parts, are the slots from the reader's on. */
  lemma TwoParts(buf: seq<bv8>, head: nat, n: nat)
    requires n <= |buf| && |buf| > 0
    ensures
      var at := Slot(head, |buf|);
      var l := Min(n, |buf| - at);
      Slots(buf, head, n) == buf[at..at + l] + buf[..n - l]
  {
    var at := Slot(head, |buf|);
    var l := Min(n, |buf| - at);
    hide Slot;
    var parts := buf[at..at + l] + buf[..n - l];
    forall i | 0 <= i < n
      ensures ByteAt(buf, head, i) == parts[i]
    {
      SlotCases(head, i, |buf|);
    }
    hide ByteAt;
  }

  lemma FirstSlot(buf: seq<bv8>, head: nat, n: nat)
    requires n > 0 && |buf| > 0
    ensures Slots(buf, head, n)[0] == buf[Slot(head, |buf|)]
  {
    hide Slot;
  }

  lemma NothingStored(tail: nat, head: nat)
    requires tail < TWO_32 && head < TWO_32
    ensures Distance(tail, head) == 0 <==> tail == head
  {
  }

  lemma PrefixSlots(buf: seq<bv8>, head: nat, n: nat, m: nat)
    requires n <= m && |buf| > 0
    ensures Slots(buf, head, n) == Slots(buf, head, m)[..n]
  {
    hide ByteAt;
  }

  lemma TooFar(tail: nat, head: nat, size: nat)
    ensures (tail - head) % TWO_32 > size <==> Distance(tail, head) > size
  {
  }

  // ---- the ring ---------------------------------------------------------------------------------

  /** memcpy into an array. */
  method MemCpy(dst: array<bv8>, at: nat, src: seq<bv8>)
    requires at + |src| <= dst.Length
    modifies dst
    ensures forall j :: 0 <= j < dst.Length ==> dst[j] == if at <= j < at + |src| then src[j - at] else old(dst[j])
  {
    var i := 0;
    while i < |src|
      invariant 0 <= i <= |src|
      invariant forall j :: 0 <= j < dst.Length ==> dst[j] == if at <= j < at + i then src[j - at] else old(dst[j])
    {
      dst[at + i] := src[i];
      i := i + 1;
    }
  }

  class Ring {
    const buffer: array<bv8>
    var tail: nat
    var head: nat

    ghost predicate Valid()
      reads this
    {
      RingSize(buffer.Length) && tail < TWO_32 && head < TWO_32 && Distance(tail, head) <= buffer.Length
    }

    /** The bytes stored, oldest first. */
    ghost function Contents(): seq<bv8>
      reads this, buffer
      requires Valid()
    {
      RingSizeDivides(buffer.Length);
      Slots(buffer[..], head, Distance(tail, head))
    }

    /** kfifo_init. */
    constructor (storage: array<bv8>)
      requires RingSize(storage.Length)
      ensures Valid() && Contents() == [] && buffer == storage
    {
      buffer, tail, head := storage, 0, 0;
    }

    /** kfifo_len. */
    method Len() returns (n: nat)
      requires Valid()
      ensures n == |Contents()|
    {
      n := (tail - head) % TWO_32;
    }

    /** The two copies of kfifo_put: up to the end of the buffer, then from its start. */
    method CopyIn(data: seq<bv8>)
      requires Valid() && Distance(tail, head) + |data| <= buffer.Length
      modifies buffer
      ensures buffer.Length > 0
      ensures Slots(buffer[..], head, Distance(tail, head) + |data|) == old(Contents()) + data
    {
      hide Slot, RingSize, Distance, Slots;
      RingSizeDivides(buffer.Length);
      ghost var before := buffer[..];
      var at := Slot(tail, buffer.Length);
      var l := Min(|data|, buffer.Length - at);
      MemCpy(buffer, at, data[..l]);
      MemCpy(buffer, 0, data[l..]);
      CopyStores(before, buffer[..], tail, head, data);
    }

    /** kfifo_put: the longest prefix that fits is appended. */
    method Put(data: seq<bv8>) returns (n: nat)
      requires Valid()
      modifies this`tail, buffer
      ensures Valid() && n == Min(|data|, buffer.Length - |old(Contents())|)
      ensures Contents() == old(Contents()) + data[..n]
    {
      RingSizeDivides(buffer.Length);
      FreeSpace(tail, head, buffer.Length);
      n := Min(|data|, (buffer.Length - tail + head) % TWO_32);
      hide RingSize, Distance, Slots;
      CopyIn(data[..n]);
      DistanceAdvances(tail, head, n);
      tail := (tail + n) % TWO_32;
    }

    /** kfifo_get: up to len bytes are removed from the front. */
    method Get(dst: array<bv8>, len: nat) returns (n: nat)
      requires Valid() && dst != buffer && len <= dst.Length
      modifies this`head, dst
      ensures Valid() && n == Min(len, |old(Contents())|)
      ensures dst[..n] == old(Contents())[..n] && dst[n..] == old(dst[n..])
      ensures Contents() == old(Contents())[n..]
    {
      RingSizeDivides(buffer.Length);
      ghost var stored := Distance(tail, head);
      n := Min(len, (tail - head) % TWO_32);
      CopyOut(dst, n);
      hide Slot, RingSize, Distance, Slots;
      PrefixSlots(buffer[..], head, n, stored);
      DropSlots(buffer[..], head, stored, n);
      DistanceShrinks(tail, head, n);
      head := (head + n) % TWO_32;
    }

    /** The two copies of kfifo_get: from the reader's slot to the end of the buffer, then from its start. */
    method CopyOut(dst: array<bv8>, n: nat)
      requires Valid() && dst != buffer && n <= dst.Length && n <= buffer.Length
      modifies dst
      ensures buffer.Length > 0 && dst[..n] == Slots(buffer[..], head, n) && dst[n..] == old(dst[n..])
    {
      hide Slot, RingSize, Distance, Slots;
      RingSizeDivides(buffer.Length);
      var at := Slot(head, buffer.Length);
      var l := Min(n, buffer.Length - at);
      TwoParts(buffer[..], head, n);
      MemCpy(dst, 0, buffer[at..at + l]);
      MemCpy(dst, l, buffer[..n - l]);
      assert dst[..n] == buffer[..][at..at + l] + buffer[..][..n - l];
    }

    /** kfifo_putc: the byte is stored; a full ring loses its oldest one. */
    method PutC(c: bv8)
      requires Valid()
      modifies this`tail, this`head, buffer
      ensures Valid() && Contents() == LastBytes(old(Contents()) + [c], buffer.Length)
    {
      hide Slot, RingSize, Distance, Slots;
      RingSizeDivides(buffer.Length);
      ghost var stored := Distance(tail, head);
      ghost var before := buffer[..];
      buffer[Slot(tail, buffer.Length)] := c;
      assert buffer[..] == before[Slot(tail, buffer.Length) := c];
      ByteStored(before, buffer[..], tail, head, c);
      DistanceAdvances(tail, head, 1);
      tail := (tail + 1) % TWO_32;
      if (tail - head) % TWO_32 > buffer.Length {
        TooFar(tail, head, buffer.Length);
        DistanceShrinks(tail, head, 1);
        DropSlots(buffer[..], head, stored + 1, 1);
        head := (head + 1) % TWO_32;
      } else {
        TooFar(tail, head, buffer.Length);
      }
    }

    /** kfifo_getc. */
    method GetC() returns (c: Option<bv8>)
      requires Valid()
      modifies this`head
      ensures Valid()
      ensures c == if old(Contents()) == [] then None else Some(old(Contents())[0])
      ensures Contents() == if old(Contents()) == [] then [] else old(Contents())[1..]
    {
      RingSizeDivides(buffer.Length);
      NothingStored(tail, head);
      hide Slot, RingSize, Distance, Slots;
      if tail == head {
        return None;
      }
      var size := buffer.Length;
      c := Some(buffer[Slot(head, size)]);
      ghost var stored := Distance(tail, head);
      FirstSlot(buffer[..], head, stored);
      DropSlots(buffer[..], head, stored, 1);
      DistanceShrinks(tail, head, 1);
      head := (head + 1) % TWO_32;
    }
  }
}

/** The claim of kfifo.c that one concurrent reader and one concurrent writer need no lock. The two operations are
    split at every access to shared memory: each side reads the other's counter once, copies its bytes one at a time
    in any order, and publishes its own counter last; the two are interleaved arbitrarily. */
module KfifoConcurrent {
  import opened Div64
  import opened Clock
  import opened Kfifo

  /** Where kfifo_put stands: idle, or between its test and its publication, with the bytes copied so far. */
  datatype Writer = Resting | Putting(data: seq<bv8>, len: nat, done: set<nat>)

  /** Where kfifo_get stands, with the bytes read so far. */
  datatype Reader = Waiting | Getting(len: nat, got: map<nat, bv8>)

  /** The shared memory, the two sides, and what was put and got so far. */
  datatype State = State(buf: seq<bv8>, tail: nat, head: nat, w: Writer, r: Reader, put: seq<bv8>, got: seq<bv8>)

  ghost predicate Init(s: State) {
    RingSize(|s.buf|) && s == State(s.buf, 0, 0, Resting, Waiting, [], [])
  }

  // ---- the steps --------------------------------------------------------------------------------

  ghost predicate PutBegins(s: State, s': State, data: seq<bv8>) {
    s.w == Resting &&
    s' == s.(w := Putting(data, Min(|data|, (|s.buf| - s.tail + s.head) % TWO_32), {}))
  }

  ghost predicate PutCopies(s: State, s': State, i: nat) {
    |s.buf| > 0 && s.w.Putting? && i < s.w.len <= |s.w.data| && i !in s.w.done &&
    s' == s.(buf := s.buf[Slot(s.tail + i, |s.buf|) := s.w.data[i]], w := s.w.(done := s.w.done + {i}))
  }

  ghost predicate PutPublishes(s: State, s': State) {
    s.w.Putting? && s.w.len <= |s.w.data| && (forall i: nat :: i < s.w.len ==> i in s.w.done) &&
    s' == s.(tail := (s.tail + s.w.len) % TWO_32, w := Resting, put := s.put + s.w.data[..s.w.len])
  }

  ghost predicate GetBegins(s: State, s': State, len: nat) {
    s.r == Waiting && s' == s.(r := Getting(Min(len, Distance(s.tail, s.head)), map[]))
  }

  ghost predicate GetCopies(s: State, s': State, i: nat) {
    |s.buf| > 0 && s.r.Getting? && i < s.r.len && i !in s.r.got &&
    s' == s.(r := s.r.(got := s.r.got[i := s.buf[Slot(s.head + i, |s.buf|)]]))
  }

  /** The destination buffer, once every byte is in. */
  ghost predicate GetPublishes(s: State, s': State) {
    s.r.Getting? && (forall i: nat :: i < s.r.len ==> i in s.r.got) &&
    s' == s.(head := (s.head + s.r.len) % TWO_32, r := Waiting,
             got := s.got + seq(s.r.len, i requires 0 <= i < s.r.len => s.r.got[i]))
  }

  ghost predicate Next(s: State, s': State) {
    (exists data :: PutBegins(s, s', data)) || (exists i :: PutCopies(s, s', i)) || PutPublishes(s, s') ||
    (exists len :: GetBegins(s, s', len)) || (exists i :: GetCopies(s, s', i)) || GetPublishes(s, s')
  }

  ghost predicate Execution(run: seq<State>) {
    run != [] && Init(run[0]) && forall i: nat :: i + 1 < |run| ==> Next(run[i], run[i + 1])
  }

  // ---- the invariant ----------------------------------------------------------------------------

  /** No unread byte is overwritten: byte j of the stream is in slot j until it is read. */
  predicate Unread(s: State) {
    |s.buf| > 0 && forall j :: |s.got| <= j < |s.put| ==> s.buf[Slot(j, |s.buf|)] == s.put[j]
  }

  predicate WriterOk(s: State) {
    |s.buf| > 0 &&
    (s.w.Putting? ==>
      s.w.len <= |s.w.data| && |s.put| + s.w.len <= |s.got| + |s.buf| &&
      forall i :: i in s.w.done ==> i < s.w.len && s.buf[Slot(|s.put| + i, |s.buf|)] == s.w.data[i])
  }

  predicate ReaderOk(s: State) {
    s.r.Getting? ==>
      |s.got| + s.r.len <= |s.put| &&
      forall i :: i in s.r.got ==> i < s.r.len && s.r.got[i] == s.put[|s.got| + i]
  }

  ghost predicate Inv(s: State) {
    RingSize(|s.buf|) && |s.got| <= |s.put| <= |s.got| + |s.buf| &&
    s.tail == |s.put| % TWO_32 && s.head == |s.got| % TWO_32 &&
    s.got <= s.put && Unread(s) && WriterOk(s) && ReaderOk(s)
  }

  /** The distance of the wrapped counters is the number of unread bytes. */
  lemma UnreadCount(s: State)
    requires RingSize(|s.buf|) && |s.got| <= |s.put| <= |s.got| + |s.buf|
    requires s.tail == |s.put| % TWO_32 && s.head == |s.got| % TWO_32
    ensures |s.buf| <= TWO_31 && Distance(s.tail, s.head) == |s.put| - |s.got|
  {
    RingSizeDivides(|s.buf|);
    var a, b := |s.put| / TWO_32, |s.got| / TWO_32;
    assert |s.put| == a * TWO_32 + s.tail && |s.got| == b * TWO_32 + s.head;
    ModUnique(s.tail - s.head, |s.put| - |s.got|, TWO_32, b - a);
  }

  /** A published counter's slots are those of the stream position. */
  lemma StreamSlot(n: nat, i: nat, size: nat)
    requires RingSize(size)
    ensures size > 0 && Slot(n % TWO_32 + i, size) == Slot(n + i, size)
  {
    SlotOfWrapped(n, size);
    hide RingSize;
    SlotShift(n % TWO_32, i, size);
    SlotShift(n, i, size);
  }

  /** What the writer's side leaves alone in the reader's. */
  lemma WriterLeavesRest(s: State, s': State)
    requires Inv(s) && s' == s.(w := s'.w) && WriterOk(s')
    ensures Inv(s')
  {
    hide RingSize, Slot, WriterOk;
  }

  lemma PutBeginsKeeps(s: State, s': State, data: seq<bv8>)
    requires Inv(s) && PutBegins(s, s', data)
    ensures Inv(s')
  {
    UnreadCount(s);
    FreeSpace(s.tail, s.head, |s.buf|);
    hide RingSize, Slot, Distance, Unread, ReaderOk;
    WriterLeavesRest(s, s');
  }

  /** The copy of one byte touches neither an unread byte nor one already copied. */
  lemma PutCopiesKeeps(s: State, s': State, i: nat)
    requires Inv(s) && PutCopies(s, s', i)
    ensures Inv(s')
  {
    var size, n := |s.buf|, |s.put|;
    StreamSlot(n, i, size);
    hide RingSize, Slot;
    forall j | |s.got| <= j < n
      ensures Slot(j, size) != Slot(n + i, size)
    {
      SlotsDiffer(j, n + i, size);
    }
    forall j | j in s.w.done
      ensures Slot(n + j, size) != Slot(n + i, size)
    {
      if j < i { SlotsDiffer(n + j, n + i, size); } else { SlotsDiffer(n + i, n + j, size); }
    }
  }

  lemma PutPublishesKeeps(s: State, s': State)
    requires Inv(s) && PutPublishes(s, s')
    ensures Inv(s')
  {
    var n, len := |s.put|, s.w.len;
    CounterAdvances(n, len);
    hide RingSize, Slot;
    forall j | |s.got| <= j < n + len
      ensures s'.buf[Slot(j, |s.buf|)] == s'.put[j]
    {
      if j >= n {
        assert j - n in s.w.done;
        assert n + (j - n) == j;
      }
    }
  }

  lemma CounterAdvances(n: nat, len: nat)
    ensures (n % TWO_32 + len) % TWO_32 == (n + len) % TWO_32
  {
  }

  /** What the reader does leaves the writer's side of the invariant alone. */
  lemma ReaderLeavesRest(s: State, s': State)
    requires Inv(s) && s' == s.(r := s'.r) && ReaderOk(s')
    ensures Inv(s')
  {
    hide RingSize, Slot, ReaderOk;
  }

  lemma GetBeginsKeeps(s: State, s': State, len: nat)
    requires Inv(s) && GetBegins(s, s', len)
    ensures Inv(s')
  {
    UnreadCount(s);
    hide RingSize, Slot, Distance, Unread, WriterOk;
    ReaderLeavesRest(s, s');
  }

  lemma UnreadByte(s: State, i: nat)
    requires Unread(s) && |s.got| + i < |s.put|
    ensures s.buf[Slot(|s.got| + i, |s.buf|)] == s.put[|s.got| + i]
  {
    hide Slot;
  }

  lemma CopiedOk(s: State, s': State, i: nat, b: bv8)
    requires ReaderOk(s) && s.r.Getting? && i < s.r.len && |s.got| + i < |s.put| && b == s.put[|s.got| + i]
    requires s' == s.(r := s.r.(got := s.r.got[i := b]))
    ensures ReaderOk(s')
  {
  }

  lemma GetCopiesKeeps(s: State, s': State, i: nat)
    requires Inv(s) && GetCopies(s, s', i)
    ensures Inv(s')
  {
    StreamSlot(|s.got|, i, |s.buf|);
    assert |s.got| + i < |s.put|;
    UnreadByte(s, i);
    hide RingSize, Slot, WriterOk, Unread, ReaderOk;
    CopiedOk(s, s', i, s.buf[Slot(s.head + i, |s.buf|)]);
    ReaderLeavesRest(s, s');
  }

  lemma GetPublishesKeeps(s: State, s': State)
    requires Inv(s) && GetPublishes(s, s')
    ensures Inv(s')
  {
    CounterAdvances(|s.got|, s.r.len);
    Delivered(s, s');
    hide RingSize, Slot, GetPublishes;
    assert |s'.got| == |s.got| + s.r.len;
  }

  lemma Delivered(s: State, s': State)
    requires ReaderOk(s) && s.got <= s.put && GetPublishes(s, s')
    ensures s'.got == s.put[..|s.got| + s.r.len] && s'.put == s.put && s'.w == s.w && s'.buf == s.buf
    ensures s'.tail == s.tail && s'.r == Waiting && s'.head == (s.head + s.r.len) % TWO_32
  {
    forall i | 0 <= i < |s.got| + s.r.len
      ensures s'.got[i] == s.put[i]
    {
      if i >= |s.got| {
        assert s.r.got[i - |s.got|] == s.put[|s.got| + (i - |s.got|)];
      }
    }
  }

  lemma StepKeeps(s: State, s': State)
    requires Inv(s) && Next(s, s')
    ensures Inv(s')
  {
    hide Inv, PutBegins, PutCopies, PutPublishes, GetBegins, GetCopies, GetPublishes;
    if data :| PutBegins(s, s', data) {
      PutBeginsKeeps(s, s', data);
    } else if i :| PutCopies(s, s', i) {
      PutCopiesKeeps(s, s', i);
    } else if PutPublishes(s, s') {
      PutPublishesKeeps(s, s');
    } else if len :| GetBegins(s, s', len) {
      GetBeginsKeeps(s, s', len);
    } else if i :| GetCopies(s, s', i) {
      GetCopiesKeeps(s, s', i);
    } else {
      GetPublishesKeeps(s, s');
    }
  }

  lemma {:induction false} RunKeeps(run: seq<State>, i: nat)
    requires Execution(run) && i < |run|
    ensures Inv(run[i])
    decreases i
  {
    if i == 0 {
      RingSizeDivides(|run[0].buf|);
    } else {
      hide Inv, Next;
      RunKeeps(run, i - 1);
      StepKeeps(run[i - 1], run[i - 1 + 1]);
    }
  }

  /** Without any lock: at every moment of every interleaving the bytes got are a prefix of the bytes put, and no byte
      put and not yet got has been overwritten. */
  lemma NoLockNeeded(run: seq<State>, i: nat)
    requires Execution(run) && i < |run|
    ensures run[i].got <= run[i].put && |run[i].put| <= |run[i].got| + |run[i].buf| && Unread(run[i])
  {
    RunKeeps(run, i);
  }

  /** What a get in progress has copied so far is already what it will deliver, whatever the writer does meanwhile. */
  lemma ReadsAreStable(run: seq<State>, i: nat, k: nat)
    requires Execution(run) && i < |run| && run[i].r.Getting? && k in run[i].r.got
    ensures |run[i].got| + k < |run[i].put| && run[i].r.got[k] == run[i].put[|run[i].got| + k]
  {
    RunKeeps(run, i);
  }

  /** A put sets out to store the longest prefix for which there is room, wherever the wrapped counters stand. */
  lemma PutTakesWhatFits(run: seq<State>, i: nat, data: seq<bv8>)
    requires Execution(run) && i + 1 < |run| && PutBegins(run[i], run[i + 1], data)
    ensures
      var s, w := run[i], run[i + 1].w;
      w.Putting? && w.data == data && w.done == {} &&
      w.len == (if |data| <= |s.buf| - (|s.put| - |s.got|) then |data| else |s.buf| - (|s.put| - |s.got|))
  {
    RunKeeps(run, i);
    UnreadCount(run[i]);
    FreeSpace(run[i].tail, run[i].head, |run[i].buf|);
    hide RingSize, Slot, Distance, Unread, Execution;
  }

  /** A get sets out to fetch as many bytes as asked for, or all there are. */
  lemma GetTakesWhatIsThere(run: seq<State>, i: nat, len: nat)
    requires Execution(run) && i + 1 < |run| && GetBegins(run[i], run[i + 1], len)
    ensures
      var s, r := run[i], run[i + 1].r;
      r.Getting? && r.got == map[] && r.len == (if len <= |s.put| - |s.got| then len else |s.put| - |s.got|)
  {
    RunKeeps(run, i);
    UnreadCount(run[i]);
    hide RingSize, Slot, Distance, Unread, Execution;
  }
}

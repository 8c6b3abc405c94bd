/** The ring queues and the buffer pools of UTIL/util.c: each queue is a bounded sequence of buffers, whatever happens
    to the others, and a pool hands out its first free entry. */
module MessageQueues {
  import opened Options

  const NUMBER_OF_QUEUES := 3
  const INVALID_QUEUE_ID := 0xFFFF

  datatype Status = OK | QUEUE_FULL | QUEUE_EMPTY | INVALID_ID

  /** The place i steps behind a place in a ring of n. */
  function Place(from: nat, i: nat, n: nat): nat { if from + i >= n then from + i - n else from + i }

  /** A ring of pointers to message buffers, None being the null pointer, with count of them waiting. */
  predicate RingOk(ring: seq<Option<nat>>, remove: nat, insert: nat, count: nat) {
    count <= |ring| && (if ring == [] then remove == 0 && insert == 0 else remove < |ring|) &&
    (ring != [] ==> insert == Place(remove, count, |ring|)) &&
    forall i :: 0 <= i < count ==> Waits(ring, remove, i)
  }

  predicate Waits(ring: seq<Option<nat>>, remove: nat, i: nat) {
    Place(remove, i, |ring|) < |ring| && ring[Place(remove, i, |ring|)].Some?
  }

  /** The waiting buffers, oldest first. */
  function Waiting(ring: seq<Option<nat>>, remove: nat, count: nat): (c: seq<nat>)
    requires forall i :: 0 <= i < count ==> Waits(ring, remove, i)
    ensures |c| == count
  {
    seq(count, i requires 0 <= i < count => assert Waits(ring, remove, i); ring[Place(remove, i, |ring|)].value)
  }

  lemma PlacesDiffer(from: nat, i: nat, j: nat, n: nat)
    requires from < n && i < j < n
    ensures Place(from, i, n) != Place(from, j, n) && Place(from, i, n) < n && Place(from, j, n) < n
  {
  }

  lemma AddedLast(ring: seq<Option<nat>>, remove: nat, insert: nat, count: nat, p: nat)
    requires RingOk(ring, remove, insert, count) && count < |ring|
    ensures insert < |ring|
    ensures
      var ring', insert' := ring[insert := Some(p)], if insert + 1 >= |ring| then 0 else insert + 1;
      RingOk(ring', remove, insert', count + 1) &&
      Waiting(ring', remove, count + 1) == Waiting(ring, remove, count) + [p]
  {
    var ring' := ring[insert := Some(p)];
    forall i | 0 <= i < count + 1
      ensures Waits(ring', remove, i)
    {
      if i < count {
        assert Waits(ring, remove, i);
        PlacesDiffer(remove, i, count, |ring|);
      }
    }
    forall i | 0 <= i < count
      ensures Waiting(ring', remove, count + 1)[i] == Waiting(ring, remove, count)[i]
    {
      PlacesDiffer(remove, i, count, |ring|);
    }
  }

  lemma TakenFirst(ring: seq<Option<nat>>, remove: nat, insert: nat, count: nat)
    requires RingOk(ring, remove, insert, count) && count > 0
    ensures remove < |ring| && ring[remove] == Some(Waiting(ring, remove, count)[0])
    ensures
      var ring', remove' := ring[remove := None], if remove + 1 >= |ring| then 0 else remove + 1;
      RingOk(ring', remove', insert, count - 1) &&
      Waiting(ring', remove', count - 1) == Waiting(ring, remove, count)[1..]
  {
    var ring', remove' := ring[remove := None], if remove + 1 >= |ring| then 0 else remove + 1;
    assert Waits(ring, remove, 0);
    forall i | 0 <= i < count - 1
      ensures Waits(ring', remove', i) && ring'[Place(remove', i, |ring|)] == ring[Place(remove, i + 1, |ring|)]
    {
      assert Waits(ring, remove, i + 1);
      PlacesDiffer(remove, 0, i + 1, |ring|);
    }
  }

  class Queue {
    const ring: array<Option<nat>>
    var insert: nat
    var remove: nat
    var count: nat

    ghost predicate Valid()
      reads this, ring
    {
      RingOk(ring[..], remove, insert, count)
    }

    ghost function Contents(): (c: seq<nat>)
      reads this, ring
      requires Valid()
      ensures |c| == count
    {
      Waiting(ring[..], remove, count)
    }

    constructor (storage: array<Option<nat>>)
      ensures Valid() && Contents() == [] && ring == storage
    {
      ring, insert, remove, count := storage, 0, 0, 0;
    }

    /** UTIL_AddToMessageQueue. */
    method Add(p: nat) returns (status: Status)
      requires Valid()
      modifies this`insert, this`count, ring
      ensures Valid()
      ensures status == if |old(Contents())| < ring.Length then OK else QUEUE_FULL
      ensures Contents() == if |old(Contents())| < ring.Length then old(Contents()) + [p] else old(Contents())
    {
      hide RingOk, Waiting;
      if count < ring.Length {
        AddedLast(ring[..], remove, insert, count, p);
        ring[insert] := Some(p);
        count := count + 1;
        insert := insert + 1;
        if insert >= ring.Length {
          insert := 0;
        }
        return OK;
      }
      return QUEUE_FULL;
    }

    /** UTIL_GetFirstMessageFromQueue; its place is cleared. */
    method GetFirst() returns (p: Option<nat>)
      requires Valid()
      modifies this`remove, this`count, ring
      ensures Valid()
      ensures p == if old(Contents()) == [] then None else Some(old(Contents())[0])
      ensures Contents() == if old(Contents()) == [] then [] else old(Contents())[1..]
    {
      hide RingOk, Waiting;
      if count > 0 {
        TakenFirst(ring[..], remove, insert, count);
        p := ring[remove];
        ring[remove] := None;
        count := count - 1;
        remove := remove + 1;
        if remove >= ring.Length {
          remove := 0;
        }
        return p;
      }
      return None;
    }

    /** UTIL_EntriesLeftInMessageQueue. */
    method EntriesLeft() returns (n: nat)
      requires Valid()
      ensures n == ring.Length - |Contents()|
    {
      n := ring.Length - count;
    }
  }

  /** The queue system: a table of three, given out in order. */
  class QueueSystem {
    var queues: seq<Queue>

    ghost predicate Valid()
      reads this, queues, set q | q in queues :: q.ring
    {
      |queues| <= NUMBER_OF_QUEUES && (forall q :: q in queues ==> q.Valid()) &&
      forall i, j :: 0 <= i < j < |queues| ==> queues[i] != queues[j] && queues[i].ring != queues[j].ring
    }

    /** What a queue holds. */
    ghost function Contents(id: nat): (c: seq<nat>)
      requires id < |queues|
      reads this, queues, set q | q in queues :: q.ring
      requires Valid()
    {
      queues[id].Contents()
    }

    constructor ()
      ensures Valid() && queues == []
    {
      queues := [];
    }

    /** UTIL_CreateMessageQueue on storage no other queue uses. */
    method Create(storage: array<Option<nat>>) returns (id: nat)
      requires Valid() && forall q :: q in queues ==> q.ring != storage
      modifies this`queues
      ensures Valid()
      ensures |old(queues)| == NUMBER_OF_QUEUES ==> id == INVALID_QUEUE_ID && queues == old(queues)
      ensures |old(queues)| < NUMBER_OF_QUEUES ==>
        id == |old(queues)| && |queues| == id + 1 && queues[..id] == old(queues) && queues[id].ring == storage &&
        Contents(id) == [] && forall k :: 0 <= k < id ==> Contents(k) == old(Contents(k))
    {
      if |queues| >= NUMBER_OF_QUEUES {
        return INVALID_QUEUE_ID;
      }
      id := |queues|;
      var q := new Queue(storage);
      queues := queues + [q];
    }

    /** The ids the functions accept reach one past the last queue created, an entry still cleared; with the table full,
        that id is outside the table. */
    predicate InTable(id: nat)
      reads this
    {
      id == |queues| ==> id < NUMBER_OF_QUEUES
    }

    /** What an operation on a queue may change. */
    function Footprint(id: nat): set<object>
      reads this
    {
      if id < |queues| then {queues[id], queues[id].ring} else {}
    }

    /** Adding fails exactly when the queue is full, and leaves every other queue as it was; an entry not yet given out
        holds nothing, and an id beyond it is refused. */
    method Add(id: nat, p: nat) returns (status: Status)
      requires Valid() && InTable(id)
      modifies Footprint(id)
      ensures Valid() && queues == old(queues)
      ensures id < |queues| ==>
        status == (if |old(Contents(id))| < queues[id].ring.Length then OK else QUEUE_FULL) &&
        Contents(id) == if status == OK then old(Contents(id)) + [p] else old(Contents(id))
      ensures id == |queues| ==> status == QUEUE_FULL
      ensures id > |queues| ==> status == INVALID_ID
      ensures forall k :: 0 <= k < |queues| && k != id ==> Contents(k) == old(Contents(k))
    {
      if id > |queues| {
        return INVALID_ID;
      } else if id == |queues| {
        return QUEUE_FULL;
      }
      status := queues[id].Add(p);
    }

    /** Taking returns the oldest entry, and leaves every other queue as it was. */
    method GetFirst(id: nat) returns (status: Status, p: Option<nat>)
      requires Valid() && InTable(id)
      modifies Footprint(id)
      ensures Valid() && queues == old(queues)
      ensures id < |queues| ==>
        status == (if old(Contents(id)) == [] then QUEUE_EMPTY else OK) &&
        p == (if status == OK then Some(old(Contents(id))[0]) else None) &&
        Contents(id) == if status == OK then old(Contents(id))[1..] else []
      ensures id == |queues| ==> status == QUEUE_EMPTY && p == None
      ensures id > |queues| ==> status == INVALID_ID && p == None
      ensures forall k :: 0 <= k < |queues| && k != id ==> Contents(k) == old(Contents(k))
    {
      if id > |queues| {
        return INVALID_ID, None;
      } else if id == |queues| {
        return QUEUE_EMPTY, None;
      }
      p := queues[id].GetFirst();
      status := if p == None then QUEUE_EMPTY else OK;
    }

    /** What is free; nothing in an entry not given out. */
    method EntriesLeft(id: nat) returns (n: nat)
      requires Valid() && InTable(id)
      ensures n == if id < |queues| then queues[id].ring.Length - |Contents(id)| else 0
    {
      if id >= |queues| {
        return 0;
      }
      n := queues[id].EntriesLeft();
    }
  }

  // ---- buffer pools -----------------------------------------------------------------------------

  /** The entries of a pool in use. */
  function InUse(used: seq<bool>): nat {
    if used == [] then 0 else InUse(used[..|used| - 1]) + if used[|used| - 1] then 1 else 0
  }

  lemma {:induction false} InUseUpdate(used: seq<bool>, i: nat, b: bool)
    requires i < |used|
    ensures InUse(used[i := b]) == InUse(used) - (if used[i] then 1 else 0) + (if b then 1 else 0)
    decreases |used|
  {
    var n := |used| - 1;
    if i < n {
      assert used[i := b][..n] == used[..n][i := b];
      InUseUpdate(used[..n], i, b);
    } else {
      assert used[i := b][..n] == used[..n];
    }
  }

  lemma {:induction false} AllInUse(used: seq<bool>)
    ensures InUse(used) <= |used|
    ensures InUse(used) == |used| <==> forall i :: 0 <= i < |used| ==> used[i]
    decreases |used|
  {
    if used != [] {
      var n := |used| - 1;
      AllInUse(used[..n]);
      if forall i :: 0 <= i < n ==> used[..n][i] {
        assert forall i :: 0 <= i < n ==> used[i] == used[..n][i];
      } else {
        var i :| 0 <= i < n && !used[..n][i];
        assert !used[i];
      }
    }
  }

  /** UTIL_AllocateMsgBuffer: the first free entry, and none exactly if all are in use. */
  method AllocateMsgBuffer(used: array<bool>) returns (entry: Option<nat>)
    modifies used
    ensures entry.None? <==> InUse(old(used[..])) == used.Length
    ensures entry.None? ==> used[..] == old(used[..])
    ensures entry.Some? ==>
      entry.value < used.Length && !old(used[..])[entry.value] &&
      (forall i :: 0 <= i < entry.value ==> old(used[..])[i]) &&
      used[..] == old(used[..])[entry.value := true] && InUse(used[..]) == InUse(old(used[..])) + 1
  {
    AllInUse(used[..]);
    var i := 0;
    while i < used.Length
      invariant 0 <= i <= used.Length && used[..] == old(used[..])
      invariant forall j :: 0 <= j < i ==> used[j]
    {
      if !used[i] {
        InUseUpdate(used[..], i, true);
        used[i] := true;
        assert used[..] == old(used[..])[i := true];
        return Some(i);
      }
      i := i + 1;
    }
    return None;
  }

  /** UTIL_FreeMsgBuffer. */
  method FreeMsgBuffer(used: array<bool>, entry: nat)
    requires entry < used.Length
    modifies used
    ensures used[..] == old(used[..])[entry := false]
    ensures InUse(used[..]) == InUse(old(used[..])) - if old(used[..])[entry] then 1 else 0
  {
    InUseUpdate(used[..], entry, false);
    used[entry] := false;
    assert used[..] == old(used[..])[entry := false];
  }
}

/** The timer system of UTIL/util.c: a timer counts down while it is enabled, calls back once when it reaches zero, and
    stays silent until it is loaded again. */
module Timers {

  const NUMBER_OF_TIMERS := 3
  const INVALID_TIMER_ID := 0xFFFF
  const TIME_LIMIT := 65536

  datatype Status = OK | INVALID_ID

  /** One entry of the timer table; the callbacks only raise flags, so a timer is known by its place. */
  datatype Timer = Timer(enabled: bool, time: nat)

  datatype Op = Reload(time: nat) | Start | Stop | Tick(ms: nat)

  /** Whether a tick of the timer system calls this timer back. */
  predicate Expires(t: Timer, ms: nat) { t.enabled && t.time != 0 && t.time <= ms }

  function Ticked(t: Timer, ms: nat): Timer {
    if t.enabled && t.time != 0 then t.(time := if t.time <= ms then 0 else t.time - ms) else t
  }

  function Apply(t: Timer, op: Op): Timer {
    match op
    case Reload(time) => Timer(true, time)
    case Start => t.(enabled := true)
    case Stop => t.(enabled := false)
    case Tick(ms) => Ticked(t, ms)
  }

  function Run(t: Timer, ops: seq<Op>): Timer {
    if ops == [] then t else Apply(Run(t, ops[..|ops| - 1]), ops[|ops| - 1])
  }

  predicate Fires(t: Timer, op: Op) { op.Tick? && Expires(t, op.ms) }

  // ---- what counts ------------------------------------------------------------------------------

  /** Whether a loaded timer is enabled after some operations: as the last start or stop says. */
  function Enabled(ops: seq<Op>): bool {
    if ops == [] then true
    else match ops[|ops| - 1]
      case Start => true
      case Stop => false
      case _ => Enabled(ops[..|ops| - 1])
  }

  /** The milliseconds ticked while the timer was enabled. */
  function Counted(ops: seq<Op>): nat {
    if ops == [] then 0
    else
      var before := ops[..|ops| - 1];
      Counted(before) + if ops[|ops| - 1].Tick? && Enabled(before) then ops[|ops| - 1].ms else 0
  }

  predicate NoReload(ops: seq<Op>) { forall i :: 0 <= i < |ops| ==> !ops[i].Reload? }

  function Remaining(time: nat, counted: nat): nat { if counted >= time then 0 else time - counted }

  /** A timer loaded with a time shows what is left of it. */
  lemma {:induction false} TimeLeft(t: Timer, time: nat, ops: seq<Op>)
    requires NoReload(ops)
    ensures Run(Apply(t, Reload(time)), ops) == Timer(Enabled(ops), Remaining(time, Counted(ops)))
    decreases |ops|
  {
    if ops != [] {
      TimeLeft(t, time, ops[..|ops| - 1]);
    }
  }

  lemma {:induction false} CountGrows(ops: seq<Op>, i: nat, j: nat)
    requires i <= j <= |ops|
    ensures Counted(ops[..i]) <= Counted(ops[..j])
    decreases j - i
  {
    if i < j {
      CountGrows(ops, i, j - 1);
      assert ops[..j][..j - 1] == ops[..j - 1];
    }
  }

  /** It calls back at exactly the tick where the counted milliseconds reach its time. */
  lemma FiresWhenReached(t: Timer, time: nat, ops: seq<Op>, k: nat)
    requires NoReload(ops) && time > 0 && k < |ops|
    ensures
      Fires(Run(Apply(t, Reload(time)), ops[..k]), ops[k]) <==> Counted(ops[..k]) < time <= Counted(ops[..k + 1])
  {
    TimeLeft(t, time, ops[..k]);
    assert ops[..k + 1][..k] == ops[..k];
  }

  lemma {:induction false} ReachedOnce(time: nat, ops: seq<Op>, n: nat) returns (k: nat)
    requires n <= |ops| && 0 < time <= Counted(ops[..n])
    ensures k < n && Counted(ops[..k]) < time <= Counted(ops[..k + 1])
    decreases n
  {
    if Counted(ops[..n - 1]) < time {
      k := n - 1;
    } else {
      k := ReachedOnce(time, ops, n - 1);
    }
  }

  predicate FiresAt(t: Timer, time: nat, ops: seq<Op>, k: nat)
    requires k < |ops|
  {
    Fires(Run(Apply(t, Reload(time)), ops[..k]), ops[k])
  }

  /** For any sequence of start, stop and tick calls after a reload: the timer calls back at most once, and calls back
      if and only if the time counted while it was enabled reaches the time loaded. */
  lemma FiresExactlyOnce(t: Timer, time: nat, ops: seq<Op>)
    requires NoReload(ops) && time > 0
    ensures (exists k: nat :: k < |ops| && FiresAt(t, time, ops, k)) <==> Counted(ops) >= time
    ensures forall j: nat, k: nat ::
      j < |ops| && k < |ops| && FiresAt(t, time, ops, j) && FiresAt(t, time, ops, k) ==> j == k
  {
    assert ops[..|ops|] == ops;
    if Counted(ops) >= time {
      var k := ReachedOnce(time, ops, |ops|);
      FiresWhenReached(t, time, ops, k);
      assert FiresAt(t, time, ops, k);
    }
    forall j: nat, k: nat | j < |ops| && k < |ops| && FiresAt(t, time, ops, j) && FiresAt(t, time, ops, k)
      ensures j == k && Counted(ops) >= time
    {
      FiresWhenReached(t, time, ops, j);
      FiresWhenReached(t, time, ops, k);
      CountGrows(ops, k + 1, |ops|);
      if j < k { CountGrows(ops, j + 1, k); }
      if k < j { CountGrows(ops, k + 1, j); }
    }
    forall k: nat | k < |ops| && FiresAt(t, time, ops, k)
      ensures Counted(ops) >= time
    {
      FiresWhenReached(t, time, ops, k);
      CountGrows(ops, k + 1, |ops|);
    }
  }

  // ---- the table --------------------------------------------------------------------------------

  /** The timers a tick calls back, in table order. */
  function Expired(timers: seq<Timer>, ms: nat, n: nat): (ids: seq<nat>)
    requires n <= |timers|
  {
    if n == 0 then [] else Expired(timers, ms, n - 1) + if Expires(timers[n - 1], ms) then [n - 1] else []
  }

  /** Exactly the enabled ones that have no more than the tick left, and something left, each once, in order. */
  lemma {:induction false} ExpiredAre(timers: seq<Timer>, ms: nat, n: nat)
    requires n <= |timers|
    ensures
      var ids := Expired(timers, ms, n);
      (forall i: nat :: i in ids <==> i < n && timers[i].enabled && 0 < timers[i].time <= ms) &&
      forall i, j :: 0 <= i < j < |ids| ==> ids[i] < ids[j]
    decreases n
  {
    if n > 0 {
      ExpiredAre(timers, ms, n - 1);
      var earlier := Expired(timers, ms, n - 1);
      assert forall i :: 0 <= i < |earlier| ==> earlier[i] in earlier;
    }
  }

  class TimerSystem {
    const entries: array<Timer>
    var created: nat

    ghost predicate Valid()
      reads this
    {
      entries.Length == NUMBER_OF_TIMERS && created <= NUMBER_OF_TIMERS
    }

    /** UTIL_ClearTimerSystem. */
    constructor ()
      ensures Valid() && created == 0 && fresh(entries)
      ensures forall i :: 0 <= i < NUMBER_OF_TIMERS ==> entries[i] == Timer(false, 0)
    {
      entries := new Timer[NUMBER_OF_TIMERS](_ => Timer(false, 0));
      created := 0;
    }

    /** UTIL_CreateTimer; refused without a callback, or with the table full. */
    method Create(hasCallback: bool, time: nat) returns (id: nat)
      requires Valid() && time < TIME_LIMIT
      modifies this`created, entries
      ensures Valid()
      ensures old(created) == NUMBER_OF_TIMERS || !hasCallback ==>
        id == INVALID_TIMER_ID && created == old(created) && entries[..] == old(entries[..])
      ensures old(created) < NUMBER_OF_TIMERS && hasCallback ==>
        id == old(created) && created == id + 1 && entries[..] == old(entries[..])[id := Timer(false, time)]
    {
      if created >= NUMBER_OF_TIMERS {
        return INVALID_TIMER_ID;
      }
      if !hasCallback {
        return INVALID_TIMER_ID;
      }
      id := created;
      entries[id] := Timer(false, time);
      created := created + 1;
    }

    /** The ids the functions accept reach one past the last timer created; with the table full, that id is outside the
        table. */
    predicate InTable(id: nat)
      reads this
    {
      id == created ==> id < NUMBER_OF_TIMERS
    }

    /** UTIL_GetTimer: the time left. */
    method GetTimer(id: nat) returns (time: nat)
      requires Valid() && InTable(id)
      ensures time == if id <= created then entries[id].time else 0
    {
      if id <= created {
        time := entries[id].time;
      } else {
        time := 0;
      }
    }

    /** UTIL_ReloadTimer; it enables the timer too. */
    method ReloadTimer(id: nat, time: nat) returns (status: Status)
      requires Valid() && InTable(id) && time < TIME_LIMIT
      modifies entries
      ensures status == if id <= created then OK else INVALID_ID
      ensures entries[..] ==
        if status == OK then old(entries[..])[id := Timer(true, time)] else old(entries[..])
    {
      if id > created {
        return INVALID_ID;
      }
      entries[id] := entries[id].(enabled := false);
      entries[id] := entries[id].(time := time);
      entries[id] := entries[id].(enabled := true);
      return OK;
    }

    /** UTIL_StartTimer. */
    method StartTimer(id: nat) returns (status: Status)
      requires Valid() && InTable(id)
      modifies entries
      ensures status == if id <= created then OK else INVALID_ID
      ensures entries[..] ==
        if status == OK then old(entries[..])[id := Timer(true, old(entries[id]).time)] else old(entries[..])
    {
      if id > created {
        return INVALID_ID;
      }
      entries[id] := entries[id].(enabled := true);
      return OK;
    }

    /** UTIL_StopTimer. */
    method StopTimer(id: nat) returns (status: Status)
      requires Valid() && InTable(id)
      modifies entries
      ensures status == if id <= created then OK else INVALID_ID
      ensures entries[..] ==
        if status == OK then old(entries[..])[id := Timer(false, old(entries[id]).time)] else old(entries[..])
    {
      if id > created {
        return INVALID_ID;
      }
      entries[id] := entries[id].(enabled := false);
      return OK;
    }

    /** UTIL_RunTimerSystem: every created timer takes the tick; fired are the ones called back. */
    method RunTimerSystem(ms: nat) returns (fired: seq<nat>)
      requires Valid() && ms < TIME_LIMIT
      modifies entries
      ensures forall i :: 0 <= i < created ==> entries[i] == Apply(old(entries[i]), Tick(ms))
      ensures forall i :: created <= i < entries.Length ==> entries[i] == old(entries[i])
      ensures fired == Expired(old(entries[..]), ms, created)
      ensures forall i: nat :: i in fired <==>
        i < created && old(entries[i]).enabled && 0 < old(entries[i]).time <= ms
      ensures forall i, j :: 0 <= i < j < |fired| ==> fired[i] < fired[j]
    {
      fired := [];
      var i := 0;
      while i < created
        invariant 0 <= i <= created
        invariant forall j :: 0 <= j < i ==> entries[j] == Apply(old(entries[j]), Tick(ms))
        invariant forall j :: i <= j < entries.Length ==> entries[j] == old(entries[j])
        invariant fired == Expired(old(entries[..]), ms, i)
      {
        var t := entries[i];
        if t.enabled && t.time != 0 {
          if t.time <= ms {
            entries[i] := t.(time := 0);
            fired := fired + [i];
          } else {
            entries[i] := t.(time := t.time - ms);
          }
        }
        i := i + 1;
      }
      ExpiredAre(old(entries[..]), ms, created);
    }
  }
}

/** The configuration state machine of APLINK/aplink.c: four attributes are read from the module, then each read map and
    each write map is posted to it and its answer recorded. */
module Configuration {
  import opened Abp
  import opened Options
  import Remap

  type Word16 = n: int | 0 <= n < 65536

  datatype State =
    CFG_INIT | READ_MODULE_TYPE | WAIT_MODULE_TYPE | READ_NW_TYPE | WAIT_NW_TYPE | READ_PARAM_SUPPORT |
    WAIT_PARAM_SUPPORT | READ_DATA_FORMAT | WAIT_DATA_FORMAT | NEXT_READ | SEND_READ | WAIT_READ | SEND_WRITE |
    WAIT_WRITE | NEXT_WRITE

  /** One ADI to be mapped, with what the module answered. */
  datatype Mapping = Mapping(adi: Word16, dataType: bv8, elements: bv8, order: Word16, offset: bv8, status: nat)

  /** What the application wants mapped, asked for once the module's properties are known; None is the null pointer. */
  datatype Wishes = Wishes(readMaps: Option<seq<Mapping>>, writeMaps: Option<seq<Mapping>>)

  /** The variables of the machine; running means that the driver has left the configuration state. */
  datatype Cfg = Cfg(st: State, cntr: nat, entrySize: Word16, wishes: Wishes, readLen: Word16, writeLen: Word16,
                     running: bool)

  /** aplink_GetSizeOfDataType. */
  function SizeOfDataType(t: bv8): (n: nat)
    ensures n <= 8
  {
    match ByteValue(t)
    case 0 => 1
    case 1 => 1
    case 4 => 1
    case 2 => 2
    case 3 => 4
    case 5 => 2
    case 6 => 4
    case 7 => 1
    case 8 => 1
    case 16 => 8
    case 17 => 8
    case 18 => 4
    case _ => 0
  }

  function Low(w: Word16): bv8 { (w % 256) as bv8 }

  function High(w: Word16): bv8 { (w / 256) as bv8 }

  // ---- requests and answers ---------------------------------------------------------------------

  const OBJ_NW: bv8 := 3
  const GET_ATTR: bv8 := 0x41
  const MAP_WRITE_AREA: bv8 := 0x50
  const MAP_READ_AREA: bv8 := 0x51

  function AttrRequest(obj: bv8, attr: bv8): Bytes { [1, obj, 1, 0, GET_ATTR, 0, attr, 0] }

  function MapRequest(command: bv8, x: Mapping): Bytes {
    [1, OBJ_NW, 1, 0, command, 4, Low(x.adi), High(x.adi), x.dataType, x.elements, Low(x.order), High(x.order)]
  }

  /** A response without error to a request to instance 1 of an object, echoing its extension. */
  predicate Answers(m: Msg, obj: bv8, size: bv8, ext0: bv8, ext1: bv8) {
    m[0] == 1 && m[1] == obj && m[2] == 1 && m[3] == 0 && !IsCommand(m) && !IsError(m) && m[5] == size &&
    m[6] == ext0 && m[7] == ext1
  }

  predicate Maps(m: Msg, x: Mapping) { Answers(m, OBJ_NW, 1, Low(x.adi), High(x.adi)) }

  lemma MapsHasOffset(m: Msg, x: Mapping)
    requires Maps(m, x)
    ensures |m| == 9
  {
  }

  function Recorded(x: Mapping, m: Msg): Mapping {
    if Maps(m, x) then (MapsHasOffset(m, x); x.(offset := m[8], status := 1)) else x.(offset := 0, status := 0)
  }

  function EntrySize(x: Mapping): Word16 { SizeFits(x); SizeOfDataType(x.dataType) * ByteValue(x.elements) }

  lemma SizeFits(x: Mapping)
    ensures 0 <= SizeOfDataType(x.dataType) * ByteValue(x.elements) < 65536
  {
    var a, b := SizeOfDataType(x.dataType), ByteValue(x.elements);
    assert a * b <= 8 * b;
  }

  function AddSize(len: Word16, size: Word16): Word16 { (len + size) % 65536 }

  // ---- one call of the machine ------------------------------------------------------------------

  /** A list worth mapping: present, not empty, and at most 256 long. */
  function Mapped(list: Option<seq<Mapping>>): seq<Mapping> {
    if list.Some? && 0 < |list.value| <= 256 then list.value else []
  }

  predicate Ok(c: Cfg) {
    match c.st
    case SEND_READ => c.cntr < |Mapped(c.wishes.readMaps)|
    case WAIT_READ => c.cntr < |Mapped(c.wishes.readMaps)|
    case SEND_WRITE => c.cntr < |Mapped(c.wishes.writeMaps)|
    case WAIT_WRITE => c.cntr < |Mapped(c.wishes.writeMaps)|
    case NEXT_WRITE => c.cntr <= |Mapped(c.wishes.writeMaps)| && Mapped(c.wishes.writeMaps) != []
    case _ => true
  }

  /** What a call did: the request it posted, and whether it took the answer at the head of the queue. */
  datatype Effect = Nothing | Posted(request: Bytes) | Took

  predicate Waits(st: State) {
    st in {WAIT_MODULE_TYPE, WAIT_NW_TYPE, WAIT_PARAM_SUPPORT, WAIT_DATA_FORMAT, WAIT_READ, WAIT_WRITE}
  }

  /** An attribute answer: on to the next state, or straight out of the configuration. */
  function AttrAnswered(c: Cfg, m: Msg, obj: bv8, size: bv8, attr: bv8, next: State): Cfg {
    if Answers(m, obj, size, attr, 0) then c.(st := next) else c.(running := true)
  }

  function MapAnswered(list: Option<seq<Mapping>>, i: nat, m: Msg): Option<seq<Mapping>>
    requires i < |Mapped(list)|
  {
    Some(list.value[i := Recorded(list.value[i], m)])
  }

  /** One call of aplink_RunCfgStateMachine; answer is the message at the head of the inbound queue, if any, and wishes
      is what the application answers when it is asked. */
  function Step(c: Cfg, answer: Option<Msg>, wishes: Wishes): (Cfg, Effect)
    requires Ok(c)
  {
    if Waits(c.st) && answer.None? then (c, Nothing)
    else
      match c.st
      case CFG_INIT =>
        (c.(wishes := Wishes(None, None), readLen := 0, writeLen := 0, st := READ_MODULE_TYPE), Nothing)
      case READ_MODULE_TYPE => (c.(st := WAIT_MODULE_TYPE), Posted(AttrRequest(OBJ_ANB, 1)))
      case WAIT_MODULE_TYPE => (AttrAnswered(c, answer.value, OBJ_ANB, 2, 1, READ_NW_TYPE), Took)
      case READ_NW_TYPE => (c.(st := WAIT_NW_TYPE), Posted(AttrRequest(OBJ_NW, 1)))
      case WAIT_NW_TYPE => (AttrAnswered(c, answer.value, OBJ_NW, 2, 1, READ_PARAM_SUPPORT), Took)
      case READ_PARAM_SUPPORT => (c.(st := WAIT_PARAM_SUPPORT), Posted(AttrRequest(OBJ_NW, 4)))
      case WAIT_PARAM_SUPPORT =>
        var c1 := AttrAnswered(c, answer.value, OBJ_NW, 1, 4, READ_DATA_FORMAT);
        (if c1.running then c1 else c1.(wishes := wishes), Took)
      case READ_DATA_FORMAT => (c.(st := WAIT_DATA_FORMAT), Posted(AttrRequest(OBJ_NW, 3)))
      case WAIT_DATA_FORMAT =>
        var c1 := AttrAnswered(c, answer.value, OBJ_NW, 1, 3, NEXT_READ);
        (if c1.running then c1 else c1.(cntr := 0), Took)
      case NEXT_READ =>
        if c.cntr < |Mapped(c.wishes.readMaps)| then (c.(st := SEND_READ), Nothing)
        else if Mapped(c.wishes.writeMaps) != [] then (c.(cntr := 0, st := SEND_WRITE), Nothing)
        else (c.(running := true), Nothing)
      case SEND_READ =>
        var x := c.wishes.readMaps.value[c.cntr];
        (c.(entrySize := EntrySize(x), st := WAIT_READ), Posted(MapRequest(MAP_READ_AREA, x)))
      case WAIT_READ =>
        var x := c.wishes.readMaps.value[c.cntr];
        (c.(wishes := c.wishes.(readMaps := MapAnswered(c.wishes.readMaps, c.cntr, answer.value)),
            readLen := if Maps(answer.value, x) then AddSize(c.readLen, c.entrySize) else c.readLen,
            cntr := c.cntr + 1, st := NEXT_READ), Took)
      case SEND_WRITE =>
        var x := c.wishes.writeMaps.value[c.cntr];
        (c.(entrySize := EntrySize(x), st := WAIT_WRITE), Posted(MapRequest(MAP_WRITE_AREA, x)))
      case WAIT_WRITE =>
        var x := c.wishes.writeMaps.value[c.cntr];
        (c.(wishes := c.wishes.(writeMaps := MapAnswered(c.wishes.writeMaps, c.cntr, answer.value)),
            writeLen := if Maps(answer.value, x) then AddSize(c.writeLen, c.entrySize) else c.writeLen,
            cntr := c.cntr + 1, st := NEXT_WRITE), Took)
      case NEXT_WRITE =>
        if c.cntr < |Mapped(c.wishes.writeMaps)| then (c.(st := SEND_WRITE), Nothing)
        else (c.(running := true), Nothing)
  }

  lemma StepOk(c: Cfg, answer: Option<Msg>, wishes: Wishes)
    requires Ok(c)
    ensures Ok(Step(c, answer, wishes).0)
  {
    hide Answers, EntrySize, Recorded, AttrRequest, MapRequest;
  }

  // ---- a whole configuration --------------------------------------------------------------------

  /** Where a configuration ends, the requests posted on the way, the number of calls, and the answers not used. */
  datatype Trace = Trace(c: Cfg, posted: seq<Bytes>, calls: nat, rest: seq<Msg>)

  /** How far the machine is from its end: the phase, the maps left in it, the state within it. */
  function Phase(st: State): nat {
    match st
    case CFG_INIT => 10
    case READ_MODULE_TYPE => 9
    case WAIT_MODULE_TYPE => 8
    case READ_NW_TYPE => 7
    case WAIT_NW_TYPE => 6
    case READ_PARAM_SUPPORT => 5
    case WAIT_PARAM_SUPPORT => 4
    case READ_DATA_FORMAT => 3
    case WAIT_DATA_FORMAT => 2
    case NEXT_READ => 1
    case SEND_READ => 1
    case WAIT_READ => 1
    case SEND_WRITE => 0
    case WAIT_WRITE => 0
    case NEXT_WRITE => 0
  }

  function MapsLeft(c: Cfg): nat {
    var n := if Phase(c.st) == 0 then |Mapped(c.wishes.writeMaps)| else |Mapped(c.wishes.readMaps)|;
    if c.cntr <= n then n - c.cntr else 0
  }

  function Within(st: State): nat {
    if st == NEXT_READ || st == NEXT_WRITE then 2 else if st == SEND_READ || st == SEND_WRITE then 1 else 0
  }

  /** Every call moves towards the end, or ends. */
  lemma StepDescends(c: Cfg, answer: Option<Msg>, wishes: Wishes)
    requires Ok(c) && !(Waits(c.st) && answer.None?)
    ensures
      var c1 := Step(c, answer, wishes).0;
      c1.running || Phase(c1.st) < Phase(c.st) ||
      (Phase(c1.st) == Phase(c.st) &&
       (MapsLeft(c1) < MapsLeft(c) || (MapsLeft(c1) == MapsLeft(c) && Within(c1.st) < Within(c.st))))
  {
    hide Answers, EntrySize, Recorded, AttrRequest, MapRequest;
  }

  function Requests(e: Effect): seq<Bytes> { if e.Posted? then [e.request] else [] }

  /** Calls of the machine, each answer there when it is waited for, until the configuration is left or the answers are
      used up. */
  function Run(c: Cfg, answers: seq<Msg>, wishes: Wishes): Trace
    requires Ok(c)
    decreases Phase(c.st), MapsLeft(c), Within(c.st)
  {
    if c.running || (Waits(c.st) && answers == []) then Trace(c, [], 0, answers)
    else
      var answer := if Waits(c.st) then Some(answers[0]) else None;
      StepOk(c, answer, wishes);
      StepDescends(c, answer, wishes);
      var (c1, e) := Step(c, answer, wishes);
      if c1.running then Trace(c1, Requests(e), 1, if Waits(c.st) then answers[1..] else answers)
      else Before(e, Run(c1, if Waits(c.st) then answers[1..] else answers, wishes))
  }

  function Before(e: Effect, t: Trace): Trace { t.(posted := Requests(e) + t.posted, calls := t.calls + 1) }

  /** One call at the front of a run. */
  lemma RunOne(c: Cfg, answers: seq<Msg>, wishes: Wishes)
    requires Ok(c) && !c.running && (Waits(c.st) ==> answers != [])
    ensures
      var (c1, e) := Step(c, if Waits(c.st) then Some(answers[0]) else None, wishes);
      Ok(c1) && Run(c, answers, wishes) == Before(e, Run(c1, if Waits(c.st) then answers[1..] else answers, wishes))
  {
    StepOk(c, if Waits(c.st) then Some(answers[0]) else None, wishes);
    hide Step, Ok;
    var (c1, e) := Step(c, if Waits(c.st) then Some(answers[0]) else None, wishes);
    assert Requests(e) + [] == Requests(e);
  }

  // ---- what is expected -------------------------------------------------------------------------

  /** The requests for the maps from number i on. */
  function MapRequests(command: bv8, maps: seq<Mapping>): seq<Bytes> {
    seq(|maps|, i requires 0 <= i < |maps| => MapRequest(command, maps[i]))
  }

  /** Each map with its answer recorded. */
  function AllRecorded(maps: seq<Mapping>, answers: seq<Msg>): seq<Mapping>
    requires |maps| <= |answers|
  {
    seq(|maps|, i requires 0 <= i < |maps| => Recorded(maps[i], answers[i]))
  }

  /** The 16-bit sum of the sizes of the accepted maps, added to what was there. */
  function AcceptedSize(len: Word16, maps: seq<Mapping>, answers: seq<Msg>): Word16
    requires |maps| <= |answers|
    decreases |maps|
  {
    if maps == [] then len
    else
      AcceptedSize(if Maps(answers[0], maps[0]) then AddSize(len, EntrySize(maps[0])) else len, maps[1..], answers[1..])
  }

  // ---- the write maps ---------------------------------------------------------------------------

  /** The machine about to post write map number i, the earlier ones recorded. */
  predicate AtWrite(c: Cfg, i: nat, maps: seq<Mapping>) {
    c.st == SEND_WRITE && !c.running && c.cntr == i && c.wishes.writeMaps.Some? && i < |c.wishes.writeMaps.value| &&
    |c.wishes.writeMaps.value| <= 256 && c.wishes.writeMaps.value[i..] == maps
  }

  /** Three calls for one write map. */
  lemma OneWrite(c: Cfg, i: nat, maps: seq<Mapping>, answers: seq<Msg>, wishes: Wishes)
    requires AtWrite(c, i, maps) && answers != []
    ensures Ok(c) && maps != [] && Ok(WriteRecorded(c, i, maps, answers[0]))
    ensures
      Run(c, answers, wishes) ==
        Before(Posted(MapRequest(MAP_WRITE_AREA, maps[0])),
               Before(Took, Before(Nothing, Run(WriteRecorded(c, i, maps, answers[0]), answers[1..], wishes))))
  {
    hide Run, Answers, EntrySize, Recorded, MapRequest, AddSize, Maps;
    assert c.wishes.writeMaps.value[i] == maps[0];
    RunOne(c, answers, wishes);
    var c1 := Step(c, None, wishes).0;
    RunOne(c1, answers, wishes);
    var c2 := Step(c1, Some(answers[0]), wishes).0;
    RunOne(c2, answers[1..], wishes);
  }

  /** The end of a configuration: running, with the write maps from number i on recorded and their sizes summed up. */
  predicate WritesEnd(c: Cfg, t: Trace, i: nat, maps: seq<Mapping>, answers: seq<Msg>)
    requires |maps| <= |answers| && c.wishes.writeMaps.Some? && i <= |c.wishes.writeMaps.value|
  {
    t.c.running && t.c.wishes.readMaps == c.wishes.readMaps && t.c.readLen == c.readLen &&
    t.c.wishes.writeMaps == Some(c.wishes.writeMaps.value[..i] + AllRecorded(maps, answers)) &&
    t.c.writeLen == AcceptedSize(c.writeLen, maps, answers) && t.posted == MapRequests(MAP_WRITE_AREA, maps) &&
    t.calls == 3 * |maps| && t.rest == answers[|maps|..]
  }

  lemma RecordedFirst(maps: seq<Mapping>, answers: seq<Msg>)
    requires 0 < |maps| <= |answers|
    ensures AllRecorded(maps, answers) == [Recorded(maps[0], answers[0])] + AllRecorded(maps[1..], answers[1..])
    ensures forall command ::
      MapRequests(command, maps) == [MapRequest(command, maps[0])] + MapRequests(command, maps[1..])
  {
    hide Recorded, MapRequest;
  }

  /** Three calls that post one request. */
  lemma ThreeCalls(r: Bytes, t: Trace)
    ensures
      var t3 := t.(posted := [r] + t.posted, calls := t.calls + 3);
      Before(Posted(r), Before(Took, Before(Nothing, t))) == t3 &&
      Before(Nothing, Before(Posted(r), Before(Took, t))) == t3
  {
    assert [] + t.posted == t.posted && [] + ([r] + t.posted) == [r] + t.posted;
  }

  lemma Grouped<T>(a: seq<T>, b: seq<T>, c: seq<T>)
    ensures (a + b) + c == a + (b + c)
  {
  }

  lemma RunEnded(c: Cfg, answers: seq<Msg>, wishes: Wishes)
    requires Ok(c) && c.running
    ensures Run(c, answers, wishes) == Trace(c, [], 0, answers)
  {
  }

  lemma NoneLeft(maps: seq<Mapping>, answers: seq<Msg>)
    requires maps == []
    ensures AllRecorded(maps, answers) == [] && forall command :: MapRequests(command, maps) == []
  {
  }

  /** The state after the three calls for write map number i. */
  function WriteRecorded(c: Cfg, i: nat, maps: seq<Mapping>, m: Msg): Cfg
    requires AtWrite(c, i, maps) && maps != []
  {
    var len := if Maps(m, maps[0]) then AddSize(c.writeLen, EntrySize(maps[0])) else c.writeLen;
    c.(wishes := c.wishes.(writeMaps := Some(c.wishes.writeMaps.value[i := Recorded(maps[0], m)])), writeLen := len,
       cntr := i + 1, entrySize := EntrySize(maps[0]), st := if |maps| > 1 then SEND_WRITE else NEXT_WRITE,
       running := |maps| == 1)
  }

  /** One more map in front of an end. */
  lemma WritesEndStep(c: Cfg, i: nat, maps: seq<Mapping>, answers: seq<Msg>, t: Trace)
    requires AtWrite(c, i, maps) && 0 < |maps| <= |answers|
    requires WritesEnd(WriteRecorded(c, i, maps, answers[0]), t, i + 1, maps[1..], answers[1..])
    ensures
      WritesEnd(c, t.(posted := [MapRequest(MAP_WRITE_AREA, maps[0])] + t.posted, calls := t.calls + 3), i, maps,
                answers)
  {
    RecordedFirst(maps, answers);
    hide EntrySize, Recorded, MapRequest, AddSize, Maps, MapRequests, AllRecorded;
    var list := c.wishes.writeMaps.value;
    var next := list[i := Recorded(maps[0], answers[0])];
    assert next[..i + 1] == list[..i] + [Recorded(maps[0], answers[0])];
    assert answers[1..][|maps| - 1..] == answers[|maps|..];
    Grouped(list[..i], [Recorded(maps[0], answers[0])], AllRecorded(maps[1..], answers[1..]));
  }

  lemma WritesEndNone(c: Cfg, i: nat, answers: seq<Msg>)
    requires c.running && c.wishes.writeMaps.Some? && i == |c.wishes.writeMaps.value|
    ensures WritesEnd(c, Trace(c, [], 0, answers), i, [], answers)
  {
    NoneLeft([], answers);
    hide AllRecorded, MapRequests;
    assert c.wishes.writeMaps.value[..i] + [] == c.wishes.writeMaps.value && answers[0..] == answers;
  }

  lemma {:induction false} WritesDone(c: Cfg, i: nat, maps: seq<Mapping>, answers: seq<Msg>, wishes: Wishes)
    requires AtWrite(c, i, maps) && |maps| <= |answers|
    ensures Ok(c) && WritesEnd(c, Run(c, answers, wishes), i, maps, answers)
    decreases |maps|
  {
    hide Run, EntrySize, Recorded, MapRequest, AddSize, Maps, MapRequests, AllRecorded, WritesEnd;
    OneWrite(c, i, maps, answers, wishes);
    var c3 := WriteRecorded(c, i, maps, answers[0]);
    var t := Run(c3, answers[1..], wishes);
    ThreeCalls(MapRequest(MAP_WRITE_AREA, maps[0]), t);
    if |maps| > 1 {
      assert c3.wishes.writeMaps.value[i + 1..] == maps[1..];
      WritesDone(c3, i + 1, maps[1..], answers[1..], wishes);
    } else {
      RunEnded(c3, answers[1..], wishes);
      WritesEndNone(c3, i + 1, answers[1..]);
      assert maps[1..] == [];
    }
    WritesEndStep(c, i, maps, answers, t);
  }

  // ---- the read maps ----------------------------------------------------------------------------

  /** The machine looking for read map number i, the earlier ones recorded. */
  predicate AtRead(c: Cfg, i: nat, maps: seq<Mapping>) {
    c.st == NEXT_READ && !c.running && c.cntr == i && i <= |Mapped(c.wishes.readMaps)| &&
    Mapped(c.wishes.readMaps)[i..] == maps
  }

  /** The state after the three calls for read map number i. */
  function ReadRecorded(c: Cfg, i: nat, maps: seq<Mapping>, m: Msg): Cfg
    requires AtRead(c, i, maps) && maps != []
  {
    var len := if Maps(m, maps[0]) then AddSize(c.readLen, EntrySize(maps[0])) else c.readLen;
    c.(wishes := c.wishes.(readMaps := Some(c.wishes.readMaps.value[i := Recorded(maps[0], m)])), readLen := len,
       cntr := i + 1, entrySize := EntrySize(maps[0]))
  }

  /** Three calls for one read map. */
  lemma OneRead(c: Cfg, i: nat, maps: seq<Mapping>, answers: seq<Msg>, wishes: Wishes)
    requires AtRead(c, i, maps) && answers != [] && maps != []
    ensures
      var c3 := ReadRecorded(c, i, maps, answers[0]);
      Ok(c) && Ok(c3) && AtRead(c3, i + 1, maps[1..]) &&
      Run(c, answers, wishes) ==
        Before(Nothing, Before(Posted(MapRequest(MAP_READ_AREA, maps[0])), Before(Took, Run(c3, answers[1..], wishes))))
  {
    hide Run, Answers, EntrySize, Recorded, MapRequest, AddSize, Maps;
    assert c.wishes.readMaps.value[i] == maps[0];
    RunOne(c, answers, wishes);
    var c1 := Step(c, None, wishes).0;
    RunOne(c1, answers, wishes);
    var c2 := Step(c1, None, wishes).0;
    RunOne(c2, answers, wishes);
  }

  /** The list of the application with the maps recorded, if it was worth mapping. */
  function Configured(list: Option<seq<Mapping>>, answers: seq<Msg>): Option<seq<Mapping>>
    requires |Mapped(list)| <= |answers|
  {
    if Mapped(list) == [] then list else Some(AllRecorded(list.value, answers))
  }

  /** What is left of a configuration from read map number i on. */
  predicate ReadsEnd(c: Cfg, t: Trace, i: nat, maps: seq<Mapping>, answers: seq<Msg>)
    requires i <= |Mapped(c.wishes.readMaps)| && |maps| + |Mapped(c.wishes.writeMaps)| <= |answers|
  {
    var writeList := Mapped(c.wishes.writeMaps);
    t.c.running && t.c.readLen == AcceptedSize(c.readLen, maps, answers) &&
    t.c.wishes.readMaps ==
      (if Mapped(c.wishes.readMaps) == [] then c.wishes.readMaps
       else Some(c.wishes.readMaps.value[..i] + AllRecorded(maps, answers))) &&
    t.c.writeLen == AcceptedSize(c.writeLen, writeList, answers[|maps|..]) &&
    t.c.wishes.writeMaps == Configured(c.wishes.writeMaps, answers[|maps|..]) &&
    t.posted == MapRequests(MAP_READ_AREA, maps) + MapRequests(MAP_WRITE_AREA, writeList) &&
    t.calls == 3 * |maps| + 1 + 3 * |writeList| && t.rest == answers[|maps| + |writeList|..]
  }

  /** No read maps are left, and there are no write maps. */
  lemma ReadsEndNone(c: Cfg, c1: Cfg, i: nat, answers: seq<Msg>)
    requires AtRead(c, i, []) && Mapped(c.wishes.writeMaps) == [] && c1 == c.(running := true)
    ensures ReadsEnd(c, Trace(c1, [], 1, answers), i, [], answers)
  {
    NoneLeft([], answers);
    hide AllRecorded, MapRequests;
    assert answers[0..] == answers;
    if Mapped(c.wishes.readMaps) != [] {
      assert c.wishes.readMaps.value[..i] + [] == c.wishes.readMaps.value;
    }
  }

  /** No read maps are left; the write maps follow. */
  lemma ReadsEndWrites(c: Cfg, c1: Cfg, i: nat, answers: seq<Msg>, t: Trace)
    requires AtRead(c, i, []) && Mapped(c.wishes.writeMaps) != [] && |Mapped(c.wishes.writeMaps)| <= |answers|
    requires c1 == c.(cntr := 0, st := SEND_WRITE) && WritesEnd(c1, t, 0, Mapped(c.wishes.writeMaps), answers)
    ensures ReadsEnd(c, t.(calls := t.calls + 1), i, [], answers)
  {
    var writeList := Mapped(c.wishes.writeMaps);
    NoneLeft([], answers);
    hide AllRecorded, MapRequests;
    assert answers[0..] == answers;
    assert [] + MapRequests(MAP_WRITE_AREA, writeList) == MapRequests(MAP_WRITE_AREA, writeList);
    assert c.wishes.writeMaps.value[..0] + AllRecorded(writeList, answers) == AllRecorded(writeList, answers);
    if Mapped(c.wishes.readMaps) != [] {
      assert c.wishes.readMaps.value[..i] + [] == c.wishes.readMaps.value;
    }
  }

  lemma ReadsOver(c: Cfg, i: nat, answers: seq<Msg>, wishes: Wishes)
    requires AtRead(c, i, []) && |Mapped(c.wishes.writeMaps)| <= |answers|
    ensures Ok(c) && ReadsEnd(c, Run(c, answers, wishes), i, [], answers)
  {
    hide Run, EntrySize, Recorded, MapRequest, AddSize, Maps, MapRequests, AllRecorded, ReadsEnd, WritesEnd;
    RunOne(c, answers, wishes);
    var writeList := Mapped(c.wishes.writeMaps);
    var c1 := Step(c, None, wishes).0;
    QuietCall(Run(c1, answers, wishes));
    if writeList == [] {
      RunEnded(c1, answers, wishes);
      ReadsEndNone(c, c1, i, answers);
    } else {
      assert writeList[0..] == writeList;
      WritesDone(c1, 0, writeList, answers, wishes);
      ReadsEndWrites(c, c1, i, answers, Run(c1, answers, wishes));
    }
  }

  lemma QuietCall(t: Trace)
    ensures Before(Nothing, t) == t.(calls := t.calls + 1)
    ensures Before(Took, t) == t.(calls := t.calls + 1)
  {
    assert [] + t.posted == t.posted;
  }

  /** One more read map in front of an end. */
  lemma ReadsEndStep(c: Cfg, i: nat, maps: seq<Mapping>, answers: seq<Msg>, t: Trace)
    requires AtRead(c, i, maps) && maps != [] && |maps| + |Mapped(c.wishes.writeMaps)| <= |answers|
    requires AtRead(ReadRecorded(c, i, maps, answers[0]), i + 1, maps[1..])
    requires ReadsEnd(ReadRecorded(c, i, maps, answers[0]), t, i + 1, maps[1..], answers[1..])
    ensures
      ReadsEnd(c, t.(posted := [MapRequest(MAP_READ_AREA, maps[0])] + t.posted, calls := t.calls + 3), i, maps, answers)
  {
    RecordedFirst(maps, answers);
    hide EntrySize, Recorded, MapRequest, AddSize, Maps, MapRequests, AllRecorded, Configured;
    var list := c.wishes.readMaps.value;
    var writeList := Mapped(c.wishes.writeMaps);
    var next := list[i := Recorded(maps[0], answers[0])];
    assert next[..i + 1] == list[..i] + [Recorded(maps[0], answers[0])];
    Grouped(list[..i], [Recorded(maps[0], answers[0])], AllRecorded(maps[1..], answers[1..]));
    Grouped([MapRequest(MAP_READ_AREA, maps[0])], MapRequests(MAP_READ_AREA, maps[1..]),
            MapRequests(MAP_WRITE_AREA, writeList));
    assert answers[1..][|maps| - 1..] == answers[|maps|..];
    assert answers[1..][|maps| - 1 + |writeList|..] == answers[|maps| + |writeList|..];
  }

  lemma {:induction false} ReadsDone(c: Cfg, i: nat, maps: seq<Mapping>, answers: seq<Msg>, wishes: Wishes)
    requires AtRead(c, i, maps) && |maps| + |Mapped(c.wishes.writeMaps)| <= |answers|
    ensures Ok(c) && ReadsEnd(c, Run(c, answers, wishes), i, maps, answers)
    decreases |maps|
  {
    if maps == [] {
      ReadsOver(c, i, answers, wishes);
    } else {
      hide Run, EntrySize, Recorded, MapRequest, AddSize, Maps, MapRequests, AllRecorded, ReadsEnd;
      OneRead(c, i, maps, answers, wishes);
      var c3 := ReadRecorded(c, i, maps, answers[0]);
      var t := Run(c3, answers[1..], wishes);
      ThreeCalls(MapRequest(MAP_READ_AREA, maps[0]), t);
      ReadsDone(c3, i + 1, maps[1..], answers[1..], wishes);
      ReadsEndStep(c, i, maps, answers, t);
    }
  }

  // ---- the attributes ---------------------------------------------------------------------------

  /** The four attributes read first: object, attribute, size of its answer, and the state after it. */
  function AttrObject(k: nat): bv8 { if k == 0 then OBJ_ANB else OBJ_NW }

  function AttrNumber(k: nat): bv8 { if k == 2 then 4 else if k == 3 then 3 else 1 }

  function AttrSize(k: nat): bv8 { if k < 2 then 2 else 1 }

  function Asking(k: nat): State {
    if k == 0 then READ_MODULE_TYPE else if k == 1 then READ_NW_TYPE else if k == 2 then READ_PARAM_SUPPORT
    else if k == 3 then READ_DATA_FORMAT else NEXT_READ
  }

  predicate AttrOk(k: nat, m: Msg) { Answers(m, AttrObject(k), AttrSize(k), AttrNumber(k), 0) }

  function AttrRequests(n: nat): seq<Bytes> {
    if n == 0 then [] else AttrRequests(n - 1) + [AttrRequest(AttrObject(n - 1), AttrNumber(n - 1))]
  }

  /** After attribute k: the answer of the application is kept from the third on, the map counter reset by the last. */
  function Asked(c: Cfg, k: nat, wishes: Wishes): Cfg {
    c.(st := Asking(k + 1), wishes := if k == 2 then wishes else c.wishes, cntr := if k == 3 then 0 else c.cntr)
  }

  /** Two calls for one attribute. */
  lemma OneAttribute(c: Cfg, k: nat, answers: seq<Msg>, wishes: Wishes)
    requires k < 4 && c.st == Asking(k) && !c.running && answers != []
    ensures Ok(c)
    ensures
      var request := AttrRequest(AttrObject(k), AttrNumber(k));
      if AttrOk(k, answers[0]) then
        Ok(Asked(c, k, wishes)) &&
        Run(c, answers, wishes) == Before(Posted(request), Before(Took, Run(Asked(c, k, wishes), answers[1..], wishes)))
      else
        var t := Run(c, answers, wishes);
        t.c.running && t.posted == [request] && t.calls == 2 && t.rest == answers[1..] &&
        t.c.readLen == c.readLen && t.c.writeLen == c.writeLen
  {
    hide Run, Answers;
    RunOne(c, answers, wishes);
    var c1 := Step(c, None, wishes).0;
    RunOne(c1, answers, wishes);
    var c2 := Step(c1, Some(answers[0]), wishes).0;
    if !AttrOk(k, answers[0]) {
      RunEnded(c2, answers[1..], wishes);
    }
  }

  lemma TwoCalls(r: Bytes, t: Trace)
    ensures Before(Posted(r), Before(Took, t)) == t.(posted := [r] + t.posted, calls := t.calls + 2)
  {
    assert [] + t.posted == t.posted;
  }

  /** What a configuration leaves behind, the four attributes answered: lists worth mapping are mapped. */
  predicate ConfiguredFully(c: Cfg, wishes: Wishes, answers: seq<Msg>)
    requires |Mapped(wishes.readMaps)| + |Mapped(wishes.writeMaps)| <= |answers|
  {
    var n := |Mapped(wishes.readMaps)|;
    c.running &&
    c.readLen == AcceptedSize(0, Mapped(wishes.readMaps), answers) &&
    c.writeLen == AcceptedSize(0, Mapped(wishes.writeMaps), answers[n..]) &&
    c.wishes == Wishes(Configured(wishes.readMaps, answers), Configured(wishes.writeMaps, answers[n..]))
  }

  function AllMapRequests(wishes: Wishes): seq<Bytes> {
    MapRequests(MAP_READ_AREA, Mapped(wishes.readMaps)) + MapRequests(MAP_WRITE_AREA, Mapped(wishes.writeMaps))
  }

  lemma MapsConfigured(c: Cfg, answers: seq<Msg>, wishes: Wishes)
    requires c.st == NEXT_READ && !c.running && c.cntr == 0 && c.wishes == wishes && c.readLen == 0 && c.writeLen == 0
    requires |Mapped(wishes.readMaps)| + |Mapped(wishes.writeMaps)| <= |answers|
    ensures Ok(c)
    ensures
      var t := Run(c, answers, wishes);
      ConfiguredFully(t.c, wishes, answers) && t.posted == AllMapRequests(wishes) &&
      t.calls == 3 * |Mapped(wishes.readMaps)| + 1 + 3 * |Mapped(wishes.writeMaps)|
  {
    hide Run, MapRequests, AllRecorded, EntrySize, Maps;
    var readList := Mapped(wishes.readMaps);
    assert readList[0..] == readList;
    ReadsDone(c, 0, readList, answers, wishes);
    if readList != [] {
      assert wishes.readMaps.value[..0] + AllRecorded(readList, answers) == AllRecorded(readList, answers);
    }
  }

  /** With every request answered, and the four attributes answered well: the configuration ends in RUN_NO_PD after
      10 + 3 * (maps) calls; it posts the attribute requests, then each read map and then each write map once, in
      index order; a map's status is 1 exactly if its own answer accepts it; and the lengths are the 16-bit sums of
      the sizes of the accepted maps. */
  lemma ConfigurationRun(c: Cfg, answers: seq<Msg>, wishes: Wishes)
    requires c.st == CFG_INIT && !c.running
    requires |answers| >= 4 + |Mapped(wishes.readMaps)| + |Mapped(wishes.writeMaps)|
    requires forall k :: 0 <= k < 4 ==> AttrOk(k, answers[k])
    ensures Ok(c)
    ensures
      var t := Run(c, answers, wishes);
      t.posted == AttrRequests(4) + AllMapRequests(wishes) && ConfiguredFully(t.c, wishes, answers[4..]) &&
      t.calls == 10 + 3 * |Mapped(wishes.readMaps)| + 3 * |Mapped(wishes.writeMaps)|
  {
    hide Run, AttrRequest, Answers, ConfiguredFully, Mapped, AllMapRequests, AttrRequests;
    RunOne(c, answers, wishes);
    var c0 := c.(wishes := Wishes(None, None), readLen := 0, writeLen := 0, st := READ_MODULE_TYPE);
    QuietCall(Run(c0, answers, wishes));
    assert AttrOk(0, answers[0]) && AttrOk(1, answers[1..][0]) && AttrOk(2, answers[1..][1..][0]) &&
      AttrOk(3, answers[1..][1..][1..][0]);
    hide AttrOk;
    OneAttribute(c0, 0, answers, wishes);
    var c1 := Asked(c0, 0, wishes);
    OneAttribute(c1, 1, answers[1..], wishes);
    var c2 := Asked(c1, 1, wishes);
    OneAttribute(c2, 2, answers[1..][1..], wishes);
    var c3 := Asked(c2, 2, wishes);
    OneAttribute(c3, 3, answers[1..][1..][1..], wishes);
    var c4 := Asked(c3, 3, wishes);
    assert answers[1..][1..][1..][1..] == answers[4..];
    MapsConfigured(c4, answers[4..], wishes);
    FourAttributes(Run(c4, answers[4..], wishes));
  }

  function AttrCalls(k: nat, t: Trace): Trace {
    Before(Posted(AttrRequest(AttrObject(k), AttrNumber(k))), Before(Took, t))
  }

  lemma AttrList()
    ensures AttrRequests(4) == [Attr(0), Attr(1), Attr(2), Attr(3)]
  {
    hide AttrRequest, AttrObject, AttrNumber;
    assert AttrRequests(1) == [Attr(0)];
    assert AttrRequests(2) == [Attr(0), Attr(1)];
    assert AttrRequests(3) == [Attr(0), Attr(1), Attr(2)];
  }

  lemma FourAttributes(t: Trace)
    ensures AttrCalls(0, AttrCalls(1, AttrCalls(2, AttrCalls(3, t)))) ==
            t.(posted := AttrRequests(4) + t.posted, calls := t.calls + 8)
  {
    hide AttrCalls, Attr, AttrRequests;
    PrependAttr(3, t);
    PrependAttr(2, AttrCalls(3, t));
    PrependAttr(1, AttrCalls(2, AttrCalls(3, t)));
    PrependAttr(0, AttrCalls(1, AttrCalls(2, AttrCalls(3, t))));
    AttrList();
    assert [Attr(0)] + ([Attr(1)] + ([Attr(2)] + ([Attr(3)] + t.posted))) == AttrRequests(4) + t.posted;
  }

  function Attr(k: nat): Bytes { AttrRequest(AttrObject(k), AttrNumber(k)) }

  lemma PrependAttr(k: nat, t: Trace)
    ensures AttrCalls(k, t) == t.(posted := [Attr(k)] + t.posted, calls := t.calls + 2)
  {
    TwoCalls(Attr(k), t);
  }

  /** An attribute answered badly ends the configuration at once: no map is posted, both lengths stay as they were. */
  lemma BadAttribute(c: Cfg, k: nat, answers: seq<Msg>, wishes: Wishes)
    requires k < 4 && c.st == Asking(k) && !c.running && answers != [] && !AttrOk(k, answers[0])
    ensures Ok(c)
    ensures
      var t := Run(c, answers, wishes);
      t.c.running && t.posted == [AttrRequest(AttrObject(k), AttrNumber(k))] && t.c.readLen == c.readLen &&
      t.c.writeLen == c.writeLen
  {
    OneAttribute(c, k, answers, wishes);
    hide Run, AttrRequest;
  }

  /** The sizes of the accepted maps, summed up without a limit. */
  function TrueSize(maps: seq<Mapping>, answers: seq<Msg>): nat
    requires |maps| <= |answers|
    decreases |maps|
  {
    if maps == [] then 0
    else (if Maps(answers[0], maps[0]) then EntrySize(maps[0]) else 0) + TrueSize(maps[1..], answers[1..])
  }

  lemma AddTwice(len: Word16, a: Word16, b: nat)
    ensures (AddSize(len, a) + b) % 65536 == (len + (a + b)) % 65536
  {
  }

  /** The lengths are the true sums, cut to 16 bits. */
  lemma {:induction false} AcceptedSizeIsSum(len: Word16, maps: seq<Mapping>, answers: seq<Msg>)
    requires |maps| <= |answers|
    ensures AcceptedSize(len, maps, answers) == (len + TrueSize(maps, answers)) % 65536
    decreases |maps|
  {
    hide Maps, EntrySize, AddSize;
    if maps != [] {
      AddTwice(len, EntrySize(maps[0]), TrueSize(maps[1..], answers[1..]));
      AcceptedSizeIsSum(if Maps(answers[0], maps[0]) then AddSize(len, EntrySize(maps[0])) else len, maps[1..],
                        answers[1..]);
    }
  }

  /** The two tables of data type sizes, aplink.c's and appd.c's, agree on every data type the latter lists. */
  lemma SizeTablesAgree(t: bv8)
    requires ByteValue(t) < |Remap.TYPE_SIZES|
    ensures SizeOfDataType(t) == Remap.TypeSize(ByteValue(t))
  {
  }

  /** The status flags, spelled out. */
  lemma StatusIsAcceptance(maps: seq<Mapping>, answers: seq<Msg>, i: nat)
    requires i < |maps| <= |answers|
    ensures AllRecorded(maps, answers)[i].status == 1 <==> Maps(answers[i], maps[i])
    ensures AllRecorded(maps, answers)[i].adi == maps[i].adi
  {
  }

  // ---- the machine in place ---------------------------------------------------------------------

  class ConfigMachine {
    var st: State
    var mapCntr: nat
    var singleEntrySize: Word16
    var readCfg: Option<seq<Mapping>>
    var writeCfg: Option<seq<Mapping>>
    var readPdLength: Word16
    var writePdLength: Word16
    var running: bool

    ghost function Now(): Cfg
      reads this
    {
      Cfg(st, mapCntr, singleEntrySize, Wishes(readCfg, writeCfg), readPdLength, writePdLength, running)
    }

    constructor ()
      ensures Now().st == CFG_INIT && !running
    {
      st, mapCntr, singleEntrySize, readCfg, writeCfg := CFG_INIT, 0, 0, None, None;
      readPdLength, writePdLength, running := 0, 0, false;
    }

    /** An attribute answer: the next state, or an end with an error. */
    method TakeAttribute(m: Msg, obj: bv8, size: bv8, attr: bv8, next: State) returns (ok: bool)
      modifies this`st, this`running
      ensures Now() == AttrAnswered(old(Now()), m, obj, size, attr, next)
      ensures ok == Answers(m, obj, size, attr, 0)
    {
      hide Answers;
      ok := Answers(m, obj, size, attr, 0);
      if ok {
        st := next;
      } else {
        running := true;
      }
    }

    /** The answer to a read map. */
    method TakeReadMap(m: Msg)
      requires st == WAIT_READ && mapCntr < |Mapped(readCfg)|
      modifies this
      ensures Now() == Step(old(Now()), Some(m), Wishes(None, None)).0
    {
      hide Maps, AddSize, EntrySize;
      var x := readCfg.value[mapCntr];
      if Maps(m, x) {
        MapsHasOffset(m, x);
        readCfg := Some(readCfg.value[mapCntr := x.(offset := m[8], status := 1)]);
        readPdLength := AddSize(readPdLength, singleEntrySize);
      } else {
        readCfg := Some(readCfg.value[mapCntr := x.(offset := 0, status := 0)]);
      }
      mapCntr := mapCntr + 1;
      st := NEXT_READ;
    }

    /** The answer to a write map. */
    method TakeWriteMap(m: Msg)
      requires st == WAIT_WRITE && mapCntr < |Mapped(writeCfg)|
      modifies this
      ensures Now() == Step(old(Now()), Some(m), Wishes(None, None)).0
    {
      hide Maps, AddSize, EntrySize;
      var x := writeCfg.value[mapCntr];
      if Maps(m, x) {
        MapsHasOffset(m, x);
        writeCfg := Some(writeCfg.value[mapCntr := x.(offset := m[8], status := 1)]);
        writePdLength := AddSize(writePdLength, singleEntrySize);
      } else {
        writeCfg := Some(writeCfg.value[mapCntr := x.(offset := 0, status := 0)]);
      }
      mapCntr := mapCntr + 1;
      st := NEXT_WRITE;
    }

    /** The states in which an answer is taken. */
    method TakeAnswer(m: Msg, wishes: Wishes)
      requires Ok(Now()) && Waits(st)
      modifies this
      ensures Step(old(Now()), Some(m), wishes) == (Now(), Took)
    {
      hide Maps, AddSize, EntrySize, Answers, Recorded;
      match st {
        case WAIT_MODULE_TYPE =>
          var _ := TakeAttribute(m, OBJ_ANB, 2, 1, READ_NW_TYPE);
        case WAIT_NW_TYPE =>
          var _ := TakeAttribute(m, OBJ_NW, 2, 1, READ_PARAM_SUPPORT);
        case WAIT_PARAM_SUPPORT =>
          var ok := TakeAttribute(m, OBJ_NW, 1, 4, READ_DATA_FORMAT);
          if !running {
            readCfg, writeCfg := wishes.readMaps, wishes.writeMaps;
          }
        case WAIT_DATA_FORMAT =>
          var ok := TakeAttribute(m, OBJ_NW, 1, 3, NEXT_READ);
          if !running {
            mapCntr := 0;
          }
        case WAIT_READ =>
          TakeReadMap(m);
        case WAIT_WRITE =>
          TakeWriteMap(m);
      }
    }

    /** The states in which a request is posted. */
    method PostRequest(ghost answer: Option<Msg>, ghost wishes: Wishes) returns (request: Bytes)
      requires Ok(Now()) && !Waits(st) && st !in {CFG_INIT, NEXT_READ, NEXT_WRITE}
      modifies this`st, this`singleEntrySize
      ensures Step(old(Now()), answer, wishes) == (Now(), Posted(request))
    {
      hide EntrySize, AttrRequest, MapRequest;
      match st {
        case READ_MODULE_TYPE =>
          request := AttrRequest(OBJ_ANB, 1);
          st := WAIT_MODULE_TYPE;
        case READ_NW_TYPE =>
          request := AttrRequest(OBJ_NW, 1);
          st := WAIT_NW_TYPE;
        case READ_PARAM_SUPPORT =>
          request := AttrRequest(OBJ_NW, 4);
          st := WAIT_PARAM_SUPPORT;
        case READ_DATA_FORMAT =>
          request := AttrRequest(OBJ_NW, 3);
          st := WAIT_DATA_FORMAT;
        case SEND_READ =>
          request := MapRequest(MAP_READ_AREA, readCfg.value[mapCntr]);
          singleEntrySize := EntrySize(readCfg.value[mapCntr]);
          st := WAIT_READ;
        case SEND_WRITE =>
          request := MapRequest(MAP_WRITE_AREA, writeCfg.value[mapCntr]);
          singleEntrySize := EntrySize(writeCfg.value[mapCntr]);
          st := WAIT_WRITE;
      }
    }

    /** aplink_RunCfgStateMachine. */
    method RunCfg(answer: Option<Msg>, wishes: Wishes) returns (effect: Effect)
      requires Ok(Now())
      modifies this
      ensures (Now(), effect) == Step(old(Now()), answer, wishes)
      ensures answer == None && old(st) in {WAIT_MODULE_TYPE, WAIT_NW_TYPE, WAIT_PARAM_SUPPORT, WAIT_DATA_FORMAT,
                                            WAIT_READ, WAIT_WRITE} ==>
        Now() == old(Now()) && effect == Nothing
    {
      hide EntrySize, AttrRequest, MapRequest, Answers, Recorded, AttrAnswered, MapAnswered;
      effect := Nothing;
      if Waits(st) {
        if answer.Some? {
          TakeAnswer(answer.value, wishes);
          effect := Took;
        }
      } else if st == CFG_INIT {
        readCfg, writeCfg, readPdLength, writePdLength := None, None, 0, 0;
        st := READ_MODULE_TYPE;
      } else if st == NEXT_READ {
        if readCfg.Some? && |readCfg.value| != 0 && |readCfg.value| <= 256 && mapCntr < |readCfg.value| {
          st := SEND_READ;
        } else if writeCfg.Some? && |writeCfg.value| != 0 && |writeCfg.value| <= 256 {
          mapCntr := 0;
          st := SEND_WRITE;
        } else {
          running := true;
        }
      } else if st == NEXT_WRITE {
        if mapCntr < |writeCfg.value| {
          st := SEND_WRITE;
        } else {
          running := true;
        }
      } else {
        var request := PostRequest(answer, wishes);
        effect := Posted(request);
      }
    }
  }
}

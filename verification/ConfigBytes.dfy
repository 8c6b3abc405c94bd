/** The configuration in terms of the bytes on the line: the requests posted, which answers accept a map or an
    attribute, and what a whole configuration makes of them. */
module ConfigBytes {
  import opened Abp
  import opened Configuration
  import opened Options
  import opened ByteNumbers

  // ---- answers ----------------------------------------------------------------------------------

  /** A response without error to the command that maps this instance, with the offset as its one data byte. */
  predicate AcceptsMap(m: Bytes, adi: nat) {
    |m| == 9 && m[..4] == [1, 3, 1, 0] && m[4] & 0xC0 == 0 && m[5] == 1 && m[6] as nat + 256 * (m[7] as nat) == adi
  }

  /** A response without error to the attribute request number k: the module type, the network type, the parameter
      support and the data format. */
  predicate AcceptsAttribute(m: Bytes, k: nat) {
    |m| >= 8 && m[0] == 1 && m[1] == (if k == 0 then 1 else 3) && m[2] == 1 && m[3] == 0 && m[4] & 0xC0 == 0 &&
    m[5] == (if k < 2 then 2 else 1) && m[6] == (if k < 2 then 1 else if k == 2 then 4 else 3) && m[7] == 0
  }

  lemma NoneOfBoth(b: bv8)
    ensures b & 0xC0 == 0 <==> b & 0x40 == 0 && b & 0x80 == 0
  {
  }

  lemma Digits(w: nat, low: nat, high: nat)
    requires low < 256
    ensures (low == w % 256 && high == w / 256) <==> low + 256 * high == w
  {
  }

  lemma TwoBytes(w: Word16, low: bv8, high: bv8)
    ensures (low == Low(w) && high == High(w)) <==> low as nat + 256 * (high as nat) == w
  {
    ByteIs(low, w % 256);
    ByteIs(high, w / 256);
    Digits(w, low as nat, high as nat);
    assert Low(w) == (w % 256) as bv8 && High(w) == (w / 256) as bv8;
    hide Low, High;
  }

  /** What an answer must be to accept a map. */
  lemma MapAccepted(m: Msg, x: Mapping)
    ensures Maps(m, x) <==> AcceptsMap(m, x.adi)
  {
    NoneOfBoth(m[4]);
    TwoBytes(x.adi, m[6], m[7]);
    hide Low, High;
  }

  lemma AttributeAccepted(m: Msg, k: nat)
    requires k < 4
    ensures AttrOk(k, m) <==> AcceptsAttribute(m, k)
  {
    NoneOfBoth(m[4]);
  }

  // ---- requests ---------------------------------------------------------------------------------

  /** The request to map an instance: its number, type, elements and order, words low byte first. */
  predicate AsksForMap(r: Bytes, command: bv8, x: Mapping) {
    |r| == 12 && r[..6] == [1, 3, 1, 0, command, 4] && r[6] as nat + 256 * (r[7] as nat) == x.adi &&
    r[8] == x.dataType && r[9] == x.elements && r[10] as nat + 256 * (r[11] as nat) == x.order
  }

  lemma MapAskedFor(command: bv8, x: Mapping)
    ensures AsksForMap(MapRequest(command, x), command, x)
  {
    TwoBytes(x.adi, Low(x.adi), High(x.adi));
    TwoBytes(x.order, Low(x.order), High(x.order));
    hide Low, High;
  }

  /** One request for each map of the list, in order. */
  predicate AsksForAll(posted: seq<Bytes>, command: bv8, list: seq<Mapping>) {
    |posted| == |list| && forall i :: 0 <= i < |list| ==> AsksForMap(posted[i], command, list[i])
  }

  lemma AllAskedFor(command: bv8, list: seq<Mapping>)
    ensures AsksForAll(MapRequests(command, list), command, list)
  {
    hide AsksForMap, MapRequest;
    forall i | 0 <= i < |list|
      ensures AsksForMap(MapRequests(command, list)[i], command, list[i])
    {
      MapAskedFor(command, list[i]);
    }
  }

  /** The four attribute requests. */
  const ATTRIBUTES: seq<Bytes> := [[1, 1, 1, 0, 0x41, 0, 1, 0], [1, 3, 1, 0, 0x41, 0, 1, 0],
                                   [1, 3, 1, 0, 0x41, 0, 4, 0], [1, 3, 1, 0, 0x41, 0, 3, 0]]

  lemma AttributesAskedFor(k: nat)
    requires k < 4
    ensures Attr(k) == ATTRIBUTES[k]
  {
  }

  // ---- lists worth mapping ----------------------------------------------------------------------

  /** The maps of a list that is there and holds 1 to 256 of them; nothing of any other list is mapped. */
  function Listed(list: Option<seq<Mapping>>): seq<Mapping> {
    if list == None || |list.value| > 256 then [] else list.value
  }

  lemma ListedIsMapped(list: Option<seq<Mapping>>)
    ensures Listed(list) == Mapped(list)
  {
  }

  /** A map as its answer leaves it. */
  predicate MarkedBy(x: Mapping, m: Msg, x1: Mapping) {
    x1.adi == x.adi && x1.dataType == x.dataType && x1.elements == x.elements && x1.order == x.order &&
    if AcceptsMap(m, x.adi) then x1.status == 1 && x1.offset == m[8] else x1.status == 0 && x1.offset == 0
  }

  /** The list as the application finds it afterwards: mapped, each map as its own answer leaves it; else untouched. */
  predicate AllMarked(list: Option<seq<Mapping>>, answers: seq<Msg>, list1: Option<seq<Mapping>>) {
    if Listed(list) == [] then list1 == list
    else
      list1.Some? && |list1.value| == |list.value| <= |answers| &&
      forall i :: 0 <= i < |list.value| ==> MarkedBy(list.value[i], answers[i], list1.value[i])
  }

  lemma RecordedIsMarked(x: Mapping, m: Msg)
    ensures MarkedBy(x, m, Recorded(x, m))
  {
    MapAccepted(m, x);
    hide Maps, AcceptsMap;
    if Maps(m, x) {
      MapsHasOffset(m, x);
    }
  }

  lemma ConfiguredIsMarked(list: Option<seq<Mapping>>, answers: seq<Msg>)
    requires |Mapped(list)| <= |answers|
    ensures AllMarked(list, answers, Configured(list, answers))
  {
    hide MarkedBy, Recorded;
    if Mapped(list) != [] {
      forall i | 0 <= i < |list.value|
        ensures MarkedBy(list.value[i], answers[i], AllRecorded(list.value, answers)[i])
      {
        RecordedIsMarked(list.value[i], answers[i]);
      }
    }
  }

  // ---- lengths ----------------------------------------------------------------------------------

  /** The bytes of one element: ABCC's types are BOOL, SINT8, UINT8, CHAR and ENUM; SINT16 and UINT16; SINT32, UINT32
      and FLOAT; SINT64 and UINT64. */
  function TypeBytes(t: bv8): nat {
    match t
    case 0 | 1 | 4 | 7 | 8 => 1
    case 2 | 5 => 2
    case 3 | 6 | 18 => 4
    case 16 | 17 => 8
    case _ => 0
  }

  function MapBytes(x: Mapping): nat { (x.elements as nat) * TypeBytes(x.dataType) }

  /** The bytes of the accepted maps. */
  function AcceptedBytes(list: seq<Mapping>, answers: seq<Msg>): nat
    requires |list| <= |answers|
    decreases |list|
  {
    if list == [] then 0
    else
      (if AcceptsMap(answers[0], list[0].adi) then MapBytes(list[0]) else 0) + AcceptedBytes(list[1..], answers[1..])
  }

  lemma SizeInBytes(x: Mapping)
    ensures EntrySize(x) == MapBytes(x)
  {
    TypeSizes(x.dataType);
    hide TypeBytes, SizeOfDataType;
    Commutes(x.elements as nat, TypeBytes(x.dataType));
  }

  lemma Commutes(a: nat, b: nat)
    ensures a * b == b * a
  {
  }

  lemma TypeSizes(t: bv8)
    ensures SizeOfDataType(t) == TypeBytes(t)
  {
  }

  lemma {:induction false} TrueSizeInBytes(list: seq<Mapping>, answers: seq<Msg>)
    requires |list| <= |answers|
    ensures TrueSize(list, answers) == AcceptedBytes(list, answers)
    decreases |list|
  {
    if list != [] {
      MapAccepted(answers[0], list[0]);
      SizeInBytes(list[0]);
      hide Maps, AcceptsMap, EntrySize, MapBytes;
      TrueSizeInBytes(list[1..], answers[1..]);
    }
  }

  lemma LengthInBytes(list: seq<Mapping>, answers: seq<Msg>)
    requires |list| <= |answers|
    ensures AcceptedSize(0, list, answers) == AcceptedBytes(list, answers) % 65536
  {
    AcceptedSizeIsSum(0, list, answers);
    TrueSizeInBytes(list, answers);
    hide TrueSize, AcceptedBytes, AcceptedSize;
  }

  // ---- whole configurations ---------------------------------------------------------------------

  /** The end of a configuration whose attributes were answered well: maps as their answers leave them, lengths as the
      16-bit sums of the accepted maps' bytes. */
  predicate EndsMapped(c: Cfg, wishes: Wishes, answers: seq<Msg>)
    requires |answers| >= |Listed(wishes.readMaps)| + |Listed(wishes.writeMaps)|
  {
    var n := |Listed(wishes.readMaps)|;
    c.running &&
    c.readLen == AcceptedBytes(Listed(wishes.readMaps), answers) % 65536 &&
    c.writeLen == AcceptedBytes(Listed(wishes.writeMaps), answers[n..]) % 65536 &&
    AllMarked(wishes.readMaps, answers, c.wishes.readMaps) &&
    AllMarked(wishes.writeMaps, answers[n..], c.wishes.writeMaps)
  }

  lemma MappedInBytes(c: Cfg, wishes: Wishes, answers: seq<Msg>)
    requires |answers| >= |Mapped(wishes.readMaps)| + |Mapped(wishes.writeMaps)|
    requires ConfiguredFully(c, wishes, answers)
    ensures |answers| >= |Listed(wishes.readMaps)| + |Listed(wishes.writeMaps)| && EndsMapped(c, wishes, answers)
  {
    ListedIsMapped(wishes.readMaps);
    ListedIsMapped(wishes.writeMaps);
    hide Mapped, Listed, AcceptedBytes, AcceptedSize, AllMarked, Configured;
    var n := |Mapped(wishes.readMaps)|;
    LengthInBytes(Mapped(wishes.readMaps), answers);
    LengthInBytes(Mapped(wishes.writeMaps), answers[n..]);
    ConfiguredIsMarked(wishes.readMaps, answers);
    ConfiguredIsMarked(wishes.writeMaps, answers[n..]);
  }

  lemma AllRequestsInBytes(wishes: Wishes)
    ensures
      var n := |Listed(wishes.readMaps)|;
      var posted := AllMapRequests(wishes);
      |posted| == n + |Listed(wishes.writeMaps)| && AsksForAll(posted[..n], 0x51, Listed(wishes.readMaps)) &&
      AsksForAll(posted[n..], 0x50, Listed(wishes.writeMaps))
  {
    ListedIsMapped(wishes.readMaps);
    ListedIsMapped(wishes.writeMaps);
    hide Mapped, Listed, AsksForMap, MapRequest;
    var first := MapRequests(MAP_READ_AREA, Mapped(wishes.readMaps));
    AllAskedFor(MAP_READ_AREA, Mapped(wishes.readMaps));
    AllAskedFor(MAP_WRITE_AREA, Mapped(wishes.writeMaps));
    assert AllMapRequests(wishes)[..|first|] == first;
  }

  lemma AttributesInBytes()
    ensures AttrRequests(4) == ATTRIBUTES
  {
    AttrList();
    AttributesAskedFor(0);
    AttributesAskedFor(1);
    AttributesAskedFor(2);
    AttributesAskedFor(3);
  }

  /** A configuration whose four attributes are answered well: the requests posted, byte by byte, and its end. */
  lemma ConfigurationInBytes(c: Cfg, answers: seq<Msg>, wishes: Wishes)
    requires c.st == CFG_INIT && !c.running
    requires |answers| >= 4 + |Listed(wishes.readMaps)| + |Listed(wishes.writeMaps)|
    requires forall k :: 0 <= k < 4 ==> AcceptsAttribute(answers[k], k)
    ensures Ok(c)
    ensures
      var t := Run(c, answers, wishes);
      var n := |Listed(wishes.readMaps)|;
      |t.posted| == 4 + n + |Listed(wishes.writeMaps)| && t.posted[..4] == ATTRIBUTES &&
      AsksForAll(t.posted[4..4 + n], 0x51, Listed(wishes.readMaps)) &&
      AsksForAll(t.posted[4 + n..], 0x50, Listed(wishes.writeMaps)) && EndsMapped(t.c, wishes, answers[4..])
  {
    ListedIsMapped(wishes.readMaps);
    ListedIsMapped(wishes.writeMaps);
    hide Run, AcceptsAttribute, AttrOk, Mapped, Listed, AsksForAll, ConfiguredFully, EndsMapped, AllMapRequests,
      AttrRequests;
    forall k | 0 <= k < 4
      ensures AttrOk(k, answers[k])
    {
      AttributeAccepted(answers[k], k);
    }
    ConfigurationRun(c, answers, wishes);
    AttributesInBytes();
    AllRequestsInBytes(wishes);
    var t, n := Run(c, answers, wishes), |Listed(wishes.readMaps)|;
    assert t.posted[4..4 + n] == AllMapRequests(wishes)[..n];
    assert t.posted[4 + n..] == AllMapRequests(wishes)[n..];
    MappedInBytes(t.c, wishes, answers[4..]);
  }

  /** The machine about to ask for attribute k, nothing mapped yet. */
  predicate AtAttribute(c: Cfg, k: nat) {
    k < 4 && c.st == Asking(k) && !c.running && c.readLen == 0 && c.writeLen == 0
  }

  /** From attribute k on, the next n answers are accepted and the one after them is not. */
  predicate RefusedAfter(k: nat, n: nat, answers: seq<Msg>) {
    n < |answers| && (forall i :: 0 <= i < n ==> AcceptsAttribute(answers[i], k + i)) &&
    !AcceptsAttribute(answers[n], k + n)
  }

  lemma RefusedNext(k: nat, n: nat, answers: seq<Msg>)
    requires n > 0 && RefusedAfter(k, n, answers)
    ensures AcceptsAttribute(answers[0], k) && RefusedAfter(k + 1, n - 1, answers[1..])
  {
    hide AcceptsAttribute;
    assert AcceptsAttribute(answers[0], k + 0);
    forall i | 0 <= i < n - 1
      ensures AcceptsAttribute(answers[1..][i], k + 1 + i)
    {
      assert AcceptsAttribute(answers[i + 1], k + (i + 1));
    }
  }

  lemma {:induction false} EndsAfter(c: Cfg, k: nat, n: nat, answers: seq<Msg>, wishes: Wishes)
    requires AtAttribute(c, k) && k + n < 4 && RefusedAfter(k, n, answers)
    ensures Ok(c)
    ensures
      var t := Run(c, answers, wishes);
      t.c.running && t.posted == ATTRIBUTES[k..k + n + 1] && t.c.readLen == 0 && t.c.writeLen == 0
    decreases n
  {
    AttributesAskedFor(k);
    hide Run, AcceptsAttribute, AttrOk, AttrRequest, RefusedAfter, Ok;
    if n > 0 {
      RefusedNext(k, n, answers);
      AttributeAccepted(answers[0], k);
      OneAttribute(c, k, answers, wishes);
      var c1 := Asked(c, k, wishes);
      assert ATTRIBUTES[k..k + n + 1] == [ATTRIBUTES[k]] + ATTRIBUTES[k + 1..k + n + 1];
      TwoCalls(Attr(k), Run(c1, answers[1..], wishes));
      EndsAfter(c1, k + 1, n - 1, answers[1..], wishes);
    } else {
      RefusedAtOnce(c, k, answers, wishes);
    }
  }

  lemma RefusedAtOnce(c: Cfg, k: nat, answers: seq<Msg>, wishes: Wishes)
    requires AtAttribute(c, k) && answers != [] && RefusedAfter(k, 0, answers)
    ensures Ok(c)
    ensures
      var t := Run(c, answers, wishes);
      t.c.running && t.posted == ATTRIBUTES[k..k + 1] && t.c.readLen == 0 && t.c.writeLen == 0
  {
    AttributesAskedFor(k);
    AttributeAccepted(answers[0], k);
    hide Run, AcceptsAttribute, AttrOk, AttrRequest, Ok;
    OneAttribute(c, k, answers, wishes);
    assert ATTRIBUTES[k..k + 1] == [ATTRIBUTES[k]];
  }

  /** A configuration in which attribute j is the first whose answer is not accepted ends there: no map is posted, and
      both lengths are 0. */
  lemma EndsEarly(c: Cfg, j: nat, answers: seq<Msg>, wishes: Wishes)
    requires c.st == CFG_INIT && !c.running && j < 4 && j < |answers| && !AcceptsAttribute(answers[j], j)
    requires forall i :: 0 <= i < j ==> AcceptsAttribute(answers[i], i)
    ensures Ok(c)
    ensures
      var t := Run(c, answers, wishes);
      t.c.running && t.posted == ATTRIBUTES[..j + 1] && t.c.readLen == 0 && t.c.writeLen == 0
  {
    hide Run, AcceptsAttribute;
    RunOne(c, answers, wishes);
    var c0 := c.(wishes := Wishes(None, None), readLen := 0, writeLen := 0, st := READ_MODULE_TYPE);
    QuietCall(Run(c0, answers, wishes));
    EndsAfter(c0, 0, j, answers, wishes);
  }
}

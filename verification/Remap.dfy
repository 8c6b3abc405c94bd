/** The process data map of APPD/appd.c and its remap command: a splice of the map, checked first and carried out in
    place. The shift that makes room when the map grows is modelled as it is written; the theorems say exactly when
    it does what the command promises. */
module Remap {
  import opened Abp
  import opened Options

  /** An application data instance (ADI), as far as mapping needs it. */
  datatype Adi = Adi(number: nat, dataType: nat, elements: nat)

  /** One entry of a map. */
  datatype Entry = Entry(adi: nat, dataType: nat, elements: nat, first: nat, order: nat)

  const NONE := 0xFFFF
  const MAX_MAPS := 32

  const TYPE_SIZES: seq<nat> := [1, 1, 2, 4, 1, 2, 4, 1, 1, 0, 0, 0, 0, 0, 0, 0, 8, 8, 4]

  function TypeSize(t: nat): (n: nat)
    ensures n <= 8
  {
    if t < |TYPE_SIZES| then TYPE_SIZES[t] else 0
  }

  predicate ValidAdis(adis: seq<Adi>) {
    |adis| < NONE &&
    forall i :: 0 <= i < |adis| ==> adis[i].dataType < |TYPE_SIZES| && adis[i].elements < 256 && adis[i].number < 65536
  }

  lemma FewAdis(adis: seq<Adi>)
    requires ValidAdis(adis)
    ensures |adis| < NONE
  {
  }

  function EntrySize(e: Entry): (n: nat)
    ensures e.elements < 256 ==> n <= 2040
  {
    EntrySizeBound(e);
    e.elements * TypeSize(e.dataType)
  }

  lemma EntrySizeBound(e: Entry)
    ensures e.elements * TypeSize(e.dataType) >= 0
    ensures e.elements < 256 ==> e.elements * TypeSize(e.dataType) <= 2040
  {
    var t := TypeSize(e.dataType);
    if e.elements < 256 {
      assert e.elements * t <= 255 * t;
    }
  }

  /** The bytes a map takes up. */
  function Total(s: seq<Entry>): nat
    decreases |s|
  {
    if s == [] then 0 else Total(s[..|s| - 1]) + EntrySize(s[|s| - 1])
  }

  lemma {:induction false} TotalAppend(s: seq<Entry>, t: seq<Entry>)
    ensures Total(s + t) == Total(s) + Total(t)
    decreases |t|
  {
    if t == [] {
      assert s + t == s;
    } else {
      var n := |t| - 1;
      assert (s + t)[..|s + t| - 1] == s + t[..n];
      TotalAppend(s, t[..n]);
    }
  }

  lemma TotalParts(s: seq<Entry>, i: nat, j: nat)
    requires i <= j <= |s|
    ensures Total(s) == Total(s[..i]) + Total(s[i..j]) + Total(s[j..])
  {
    hide Total;
    assert s == s[..i] + (s[i..j] + s[j..]);
    TotalAppend(s[..i], s[i..j] + s[j..]);
    TotalAppend(s[i..j], s[j..]);
  }

  // ---- finding an instance ----------------------------------------------------------------------

  /** The first instance with a number, or 0xFFFF. */
  function Find(adis: seq<Adi>, number: nat): (i: nat)
    ensures i == NONE || i < |adis|
  {
    FindFrom(adis, number, 0)
  }

  function FindFrom(adis: seq<Adi>, number: nat, i: nat): (k: nat)
    requires i <= |adis|
    ensures k == NONE || i <= k < |adis|
    decreases |adis| - i
  {
    if i == |adis| then NONE else if adis[i].number == number then i else FindFrom(adis, number, i + 1)
  }

  lemma {:induction false} FindFromFirst(adis: seq<Adi>, number: nat, i: nat)
    requires i <= |adis| < NONE
    ensures
      var k := FindFrom(adis, number, i);
      (k < |adis| ==> adis[k].number == number) &&
      forall j :: i <= j < |adis| && j < k ==> adis[j].number != number
    decreases |adis| - i
  {
    if i < |adis| && adis[i].number != number {
      FindFromFirst(adis, number, i + 1);
    }
  }

  /** An instance is found at its first place, and missed only if there is none. */
  lemma FindFirst(adis: seq<Adi>, number: nat)
    requires |adis| < NONE
    ensures
      var k := Find(adis, number);
      (k < |adis| ==> adis[k].number == number && forall j :: 0 <= j < k ==> adis[j].number != number) &&
      (k == NONE <==> forall j :: 0 <= j < |adis| ==> adis[j].number != number)
  {
    FindFromFirst(adis, number, 0);
  }

  /** APPD_FindAdiIndex. */
  method FindAdiIndex(adis: seq<Adi>, number: nat) returns (index: nat)
    requires |adis| < NONE
    ensures index == Find(adis, number)
    ensures index < |adis| ==> adis[index].number == number
  {
    index := 0;
    while index < |adis|
      invariant 0 <= index <= |adis|
      invariant FindFrom(adis, number, index) == Find(adis, number)
    {
      if adis[index].number == number {
        return;
      }
      index := index + 1;
    }
    index := NONE;
  }

  // ---- the command ------------------------------------------------------------------------------

  datatype Refusal = NOT_ENOUGH_DATA | INV_CMD_EXT_0 | OUT_OF_RANGE | NO_RESOURCES | TOO_MUCH_DATA |
                     INVALID_NUM_ELEMENTS | INVALID_TOTAL_SIZE

  datatype Item = Item(adi: nat, first: nat, elements: nat)

  function Word(data: Bytes, i: nat): (w: nat)
    requires i + 1 < |data|
    ensures w < 65536
  {
    ByteValue(data[i]) + 256 * ByteValue(data[i + 1])
  }

  function ItemAt(data: Bytes, i: nat): (x: Item)
    requires 8 + 4 * i <= |data|
    ensures x.elements < 256 && x.first < 256 && x.adi < 65536
  {
    Item(Word(data, 4 + 4 * i), ByteValue(data[6 + 4 * i]), ByteValue(data[7 + 4 * i]))
  }

  /** What is wrong with one item. */
  function ItemFault(adis: seq<Adi>, x: Item): Option<Refusal> {
    var index := Find(adis, x.adi);
    if index == NONE || index >= |adis| then Some(OUT_OF_RANGE)
    else if x.adi == 6 && (x.first != 0 || x.elements != 2) then Some(NOT_ENOUGH_DATA)
    else if x.first + x.elements > adis[index].elements then Some(INVALID_NUM_ELEMENTS)
    else None
  }

  /** The first faulty item's fault. */
  function ItemsFault(adis: seq<Adi>, data: Bytes, n: nat): Option<Refusal>
    requires 4 + 4 * n <= |data|
  {
    if n == 0 then None
    else
      var earlier := ItemsFault(adis, data, n - 1);
      if earlier.Some? then earlier else ItemFault(adis, ItemAt(data, n - 1))
  }

  /** The entry an accepted item becomes. */
  function NewEntry(adis: seq<Adi>, x: Item): Entry {
    var index := Find(adis, x.adi);
    Entry(x.adi, if index < |adis| then adis[index].dataType else 0, x.elements, x.first, index + 1)
  }

  function NewEntries(adis: seq<Adi>, data: Bytes, n: nat): (s: seq<Entry>)
    requires 4 + 4 * n <= |data|
    ensures |s| == n
  {
    if n == 0 then [] else NewEntries(adis, data, n - 1) + [NewEntry(adis, ItemAt(data, n - 1))]
  }

  /** All checks in the order they are made, over the map in use. */
  function Verdict(adis: seq<Adi>, inUse: seq<Entry>, start: nat, data: Bytes): Option<Refusal> {
    if |data| < 4 then Some(NOT_ENOUGH_DATA)
    else if start > |inUse| then Some(INV_CMD_EXT_0)
    else
      var removed, added := Word(data, 0), Word(data, 2);
      if start + removed > |inUse| then Some(OUT_OF_RANGE)
      else if |inUse| - removed + added > MAX_MAPS then Some(NO_RESOURCES)
      else if |data| < 4 + 4 * added then Some(NOT_ENOUGH_DATA)
      else if |data| > 4 + 4 * added then Some(TOO_MUCH_DATA)
      else if ItemsFault(adis, data, added).Some? then ItemsFault(adis, data, added)
      else if Total(Spliced(inUse, start, removed, NewEntries(adis, data, added))) > MAX_PD
      then Some(INVALID_TOTAL_SIZE)
      else None
  }

  // ---- the command's bytes ----------------------------------------------------------------------

  /** Bytes i and i + 1 of the data, low byte first. */
  function LowHigh(data: Bytes, i: nat): nat
    requires i + 1 < |data|
  {
    (data[i] as nat) + 256 * (data[i + 1] as nat)
  }

  /** k is the first instance with this number. */
  predicate FirstWith(adis: seq<Adi>, number: nat, k: nat) {
    k < |adis| && adis[k].number == number && forall j :: 0 <= j < k ==> adis[j].number != number
  }

  /** The four bytes of item i name an instance and elements it has; instance 6 only whole. */
  ghost predicate GoodItem(adis: seq<Adi>, data: Bytes, i: nat)
    requires 8 + 4 * i <= |data|
  {
    var number, first, count := LowHigh(data, 4 + 4 * i), data[6 + 4 * i] as nat, data[7 + 4 * i] as nat;
    exists k: nat :: FirstWith(adis, number, k) && first + count <= adis[k].elements &&
                (number == 6 ==> first == 0 && count == 2)
  }

  /** The entry that the four bytes of item i ask for. */
  ghost predicate EntryOfItem(adis: seq<Adi>, data: Bytes, i: nat, e: Entry)
    requires 8 + 4 * i <= |data|
  {
    e.adi == LowHigh(data, 4 + 4 * i) && e.first == data[6 + 4 * i] as nat && e.elements == data[7 + 4 * i] as nat &&
    exists k: nat :: FirstWith(adis, e.adi, k) && e.dataType == adis[k].dataType && e.order == k + 1
  }

  lemma ItemBytes(data: Bytes, i: nat)
    requires 8 + 4 * i <= |data|
    ensures
      ItemAt(data, i) ==
        Item(LowHigh(data, 4 + 4 * i), data[6 + 4 * i] as nat, data[7 + 4 * i] as nat)
  {
  }

  lemma FoundIsFirst(adis: seq<Adi>, number: nat, k: nat)
    requires |adis| < NONE && FirstWith(adis, number, k)
    ensures Find(adis, number) == k
  {
    FindFirst(adis, number);
  }

  /** An item draws no fault if and only if its bytes are good. */
  lemma FaultlessItem(adis: seq<Adi>, data: Bytes, i: nat)
    requires |adis| < NONE && 8 + 4 * i <= |data|
    ensures ItemFault(adis, ItemAt(data, i)) == None <==> GoodItem(adis, data, i)
  {
    ItemBytes(data, i);
    var x := ItemAt(data, i);
    FindFirst(adis, x.adi);
    if ItemFault(adis, x) == None {
      assert FirstWith(adis, x.adi, Find(adis, x.adi));
    }
    if GoodItem(adis, data, i) {
      var k: nat :| FirstWith(adis, x.adi, k) && x.first + x.elements <= adis[k].elements &&
               (x.adi == 6 ==> x.first == 0 && x.elements == 2);
      FoundIsFirst(adis, x.adi, k);
    }
  }

  lemma {:induction false} FaultlessItems(adis: seq<Adi>, data: Bytes, n: nat)
    requires |adis| < NONE && 4 + 4 * n <= |data|
    ensures ItemsFault(adis, data, n) == None <==> forall i :: 0 <= i < n ==> GoodItem(adis, data, i)
    decreases n
  {
    hide ItemFault, ItemAt, GoodItem;
    if n > 0 {
      FaultlessItems(adis, data, n - 1);
      FaultlessItem(adis, data, n - 1);
    }
  }

  /** The entry made of a good item is the one its bytes ask for. */
  lemma EntryBytes(adis: seq<Adi>, data: Bytes, i: nat)
    requires |adis| < NONE && 8 + 4 * i <= |data| && GoodItem(adis, data, i)
    ensures EntryOfItem(adis, data, i, NewEntry(adis, ItemAt(data, i)))
  {
    ItemBytes(data, i);
    var x := ItemAt(data, i);
    var k: nat :| FirstWith(adis, x.adi, k) && x.first + x.elements <= adis[k].elements &&
             (x.adi == 6 ==> x.first == 0 && x.elements == 2);
    FoundIsFirst(adis, x.adi, k);
  }

  /** The entries that the bytes of n items ask for. */
  ghost predicate AskedEntries(adis: seq<Adi>, data: Bytes, n: nat, entries: seq<Entry>)
    requires 4 + 4 * n <= |data|
  {
    |entries| == n && forall i :: 0 <= i < n ==> EntryOfItem(adis, data, i, entries[i])
  }

  /** The entries made of good items are the ones their bytes ask for. */
  lemma {:induction false} NewEntriesBytes(adis: seq<Adi>, data: Bytes, n: nat)
    requires |adis| < NONE && 4 + 4 * n <= |data| && forall i :: 0 <= i < n ==> GoodItem(adis, data, i)
    ensures AskedEntries(adis, data, n, NewEntries(adis, data, n))
    decreases n
  {
    hide ItemAt, NewEntry, EntryOfItem, GoodItem;
    if n > 0 {
      NewEntriesBytes(adis, data, n - 1);
      EntryBytes(adis, data, n - 1);
    }
  }

  lemma OneEntryOfItem(adis: seq<Adi>, data: Bytes, i: nat, e: Entry, e1: Entry)
    requires 8 + 4 * i <= |data| && EntryOfItem(adis, data, i, e) && EntryOfItem(adis, data, i, e1)
    ensures e == e1
  {
    var k: nat :| FirstWith(adis, e.adi, k) && e.dataType == adis[k].dataType && e.order == k + 1;
    var k1: nat :| FirstWith(adis, e.adi, k1) && e1.dataType == adis[k1].dataType && e1.order == k1 + 1;
  }

  /** No other entries are asked for. */
  lemma AskedOnce(adis: seq<Adi>, data: Bytes, n: nat, entries: seq<Entry>)
    requires |adis| < NONE && 4 + 4 * n <= |data| && forall i :: 0 <= i < n ==> GoodItem(adis, data, i)
    requires AskedEntries(adis, data, n, entries)
    ensures entries == NewEntries(adis, data, n)
  {
    NewEntriesBytes(adis, data, n);
    hide EntryOfItem, GoodItem, NewEntries;
    forall i | 0 <= i < n
      ensures entries[i] == NewEntries(adis, data, n)[i]
    {
      OneEntryOfItem(adis, data, i, entries[i], NewEntries(adis, data, n)[i]);
    }
  }

  lemma WordIsLowHigh(data: Bytes, i: nat)
    requires i + 1 < |data|
    ensures Word(data, i) == LowHigh(data, i)
  {
  }

  /** What a command must be to be carried out: it has its four bytes of counts; the range removed lies within the map;
      the new map has at most 32 entries; there are exactly four bytes for each item; every item is good; and the new
      map's size is at most 256. */
  ghost predicate Acceptable(adis: seq<Adi>, inUse: seq<Entry>, start: nat, data: Bytes) {
    |data| >= 4 &&
    var removed, added := LowHigh(data, 0), LowHigh(data, 2);
    start + removed <= |inUse| && |inUse| - removed + added <= 32 && |data| == 4 + 4 * added &&
    (forall i :: 0 <= i < added ==> GoodItem(adis, data, i)) &&
    forall entries :: AskedEntries(adis, data, added, entries) ==>
      Total(inUse[..start] + entries + inUse[start + removed..]) <= 256
  }

  lemma SizeOfAsked(adis: seq<Adi>, inUse: seq<Entry>, start: nat, removed: nat, data: Bytes, n: nat)
    requires |adis| < NONE && 4 + 4 * n <= |data| && forall i :: 0 <= i < n ==> GoodItem(adis, data, i)
    requires start + removed <= |inUse|
    ensures
      Total(Spliced(inUse, start, removed, NewEntries(adis, data, n))) <= MAX_PD <==>
      forall entries :: AskedEntries(adis, data, n, entries) ==>
        Total(inUse[..start] + entries + inUse[start + removed..]) <= 256
  {
    NewEntriesBytes(adis, data, n);
    hide Total, GoodItem, NewEntries, AskedEntries;
    forall entries | AskedEntries(adis, data, n, entries)
      ensures entries == NewEntries(adis, data, n)
    {
      AskedOnce(adis, data, n, entries);
    }
  }

  /** The checks refuse nothing if and only if the bytes are acceptable. */
  lemma AcceptedIff(adis: seq<Adi>, inUse: seq<Entry>, start: nat, data: Bytes)
    requires |adis| < NONE
    ensures Verdict(adis, inUse, start, data) == None <==> Acceptable(adis, inUse, start, data)
  {
    if |data| >= 4 {
      WordIsLowHigh(data, 0);
      WordIsLowHigh(data, 2);
      hide Word, ItemFault, GoodItem, Total, NewEntries, ItemsFault, Spliced, AskedEntries;
      var removed, added := LowHigh(data, 0), LowHigh(data, 2);
      if |data| == 4 + 4 * added && start + removed <= |inUse| {
        FaultlessItems(adis, data, added);
        if forall i :: 0 <= i < added ==> GoodItem(adis, data, i) {
          SizeOfAsked(adis, inUse, start, removed, data, added);
        }
      }
    }
  }

  /** What a faulty item is told. */
  function ItemTold(adis: seq<Adi>, number: nat, first: nat, count: nat): Refusal {
    if forall j :: 0 <= j < |adis| ==> adis[j].number != number then OUT_OF_RANGE
    else if number == 6 && !(first == 0 && count == 2) then NOT_ENOUGH_DATA
    else INVALID_NUM_ELEMENTS
  }

  lemma ItemRefusedWith(adis: seq<Adi>, data: Bytes, i: nat)
    requires |adis| < NONE && 8 + 4 * i <= |data| && !GoodItem(adis, data, i)
    ensures
      ItemFault(adis, ItemAt(data, i)) ==
        Some(ItemTold(adis, LowHigh(data, 4 + 4 * i), data[6 + 4 * i] as nat, data[7 + 4 * i] as nat))
  {
    ItemBytes(data, i);
    FaultlessItem(adis, data, i);
    FindFirst(adis, ItemAt(data, i).adi);
    hide Find, ItemAt, GoodItem;
  }

  ghost predicate FirstBad(adis: seq<Adi>, data: Bytes, i: nat)
    requires 8 + 4 * i <= |data|
  {
    !GoodItem(adis, data, i) && forall j :: 0 <= j < i ==> GoodItem(adis, data, j)
  }

  lemma FirstBadItem(adis: seq<Adi>, data: Bytes, n: nat, i: nat)
    requires |adis| < NONE && 4 + 4 * n <= |data| && i < n && FirstBad(adis, data, i)
    ensures
      ItemsFault(adis, data, n) ==
        Some(ItemTold(adis, LowHigh(data, 4 + 4 * i), data[6 + 4 * i] as nat, data[7 + 4 * i] as nat))
  {
    FaultlessItems(adis, data, i);
    ItemRefusedWith(adis, data, i);
    hide ItemFault, GoodItem, ItemAt, ItemTold;
    FaultPersists(adis, data, i + 1, n);
  }

  /** What a refused command is told: the first thing wrong with it, the first faulty item before a size too large. */
  lemma RefusedWith(adis: seq<Adi>, inUse: seq<Entry>, start: nat, data: Bytes)
    requires |adis| < NONE
    ensures
      var verdict := Verdict(adis, inUse, start, data);
      if |data| < 4 then verdict == Some(NOT_ENOUGH_DATA)
      else if start > |inUse| then verdict == Some(INV_CMD_EXT_0)
      else
        var removed, added := LowHigh(data, 0), LowHigh(data, 2);
        if start + removed > |inUse| then verdict == Some(OUT_OF_RANGE)
        else if |inUse| - removed + added > 32 then verdict == Some(NO_RESOURCES)
        else if |data| < 4 + 4 * added then verdict == Some(NOT_ENOUGH_DATA)
        else if |data| > 4 + 4 * added then verdict == Some(TOO_MUCH_DATA)
        else
          (forall i :: 0 <= i < added && FirstBad(adis, data, i) ==>
             verdict == Some(ItemTold(adis, LowHigh(data, 4 + 4 * i), data[6 + 4 * i] as nat,
                                      data[7 + 4 * i] as nat))) &&
          ((forall i :: 0 <= i < added ==> GoodItem(adis, data, i)) ==>
             verdict == None || verdict == Some(INVALID_TOTAL_SIZE))
  {
    if |data| >= 4 {
      WordIsLowHigh(data, 0);
      WordIsLowHigh(data, 2);
      hide Word, ItemFault, GoodItem, Total, NewEntries, ItemsFault, ItemTold;
      var added := LowHigh(data, 2);
      if |data| == 4 + 4 * added {
        FaultlessItems(adis, data, added);
        forall i | 0 <= i < added && FirstBad(adis, data, i)
          ensures
            ItemsFault(adis, data, added) ==
              Some(ItemTold(adis, LowHigh(data, 4 + 4 * i), data[6 + 4 * i] as nat, data[7 + 4 * i] as nat))
        {
          FirstBadItem(adis, data, added, i);
        }
      }
    }
  }

  /** The map that the bytes of a command ask for: what stays keeps its order, and the items stand in between. */
  ghost predicate AskedMap(adis: seq<Adi>, inUse: seq<Entry>, start: nat, data: Bytes, m: seq<Entry>) {
    |data| >= 4 &&
    var removed, added := LowHigh(data, 0), LowHigh(data, 2);
    start + removed <= |inUse| && |data| == 4 + 4 * added && |m| == |inUse| - removed + added &&
    m[..start] == inUse[..start] && m[start + added..] == inUse[start + removed..] &&
    AskedEntries(adis, data, added, m[start..start + added])
  }

  /** The command does not make the map longer, or makes it longer at its end and the map is not empty. */
  predicate RoomInPlace(nbr: nat, start: nat, data: Bytes) {
    |data| >= 4 && (LowHigh(data, 2) <= LowHigh(data, 0) || (start + LowHigh(data, 0) == nbr && nbr > 0))
  }

  /** The promised map is the one asked for. */
  lemma SplicedAsAsked(adis: seq<Adi>, inUse: seq<Entry>, start: nat, data: Bytes)
    requires |adis| < NONE && Verdict(adis, inUse, start, data) == None
    ensures
      AskedMap(adis, inUse, start, data,
               Spliced(inUse, start, Word(data, 0), NewEntries(adis, data, Word(data, 2))))
  {
    AcceptedIff(adis, inUse, start, data);
    WordIsLowHigh(data, 0);
    WordIsLowHigh(data, 2);
    hide Verdict, Word, GoodItem, Total, EntryOfItem;
    NewEntriesBytes(adis, data, LowHigh(data, 2));
    hide NewEntries;
  }

  /** What the command promises: the removed entries replaced by the new ones. */
  function Spliced(inUse: seq<Entry>, start: nat, removed: nat, entries: seq<Entry>): seq<Entry>
    requires start + removed <= |inUse|
  {
    inUse[..start] + entries + inUse[start + removed..]
  }

  // ---- the shift, as written --------------------------------------------------------------------

  /** Entries move down when the map shrinks. */
  function ShiftDown(t: seq<Entry>, nbr: nat, from: nat, cnt: nat): (r: seq<Entry>)
    requires cnt <= from <= nbr <= |t|
    ensures |r| == |t|
  {
    t[..from - cnt] + t[from..nbr] + t[nbr - cnt..]
  }

  lemma MovedNone(t: seq<Entry>, from: nat, cnt: nat)
    requires cnt <= from <= |t|
    ensures ShiftDown(t, from, from, cnt) == t
  {
  }

  /** One turn of the loop: the next entry moves down. */
  lemma MovedOne(t: seq<Entry>, n: nat, from: nat, cnt: nat)
    requires cnt <= from <= n < |t|
    ensures
      var moved := ShiftDown(t, n, from, cnt);
      moved[n] == t[n] && moved[n - cnt := moved[n]] == ShiftDown(t, n + 1, from, cnt)
  {
    assert t[from..n + 1] == t[from..n] + [t[n]];
    assert t[n - cnt..] == [t[n - cnt]] + t[n + 1 - cnt..];
  }

  /** The loop that should move entries up when the map grows: from the last entry in use down to the end of the
      removed range, each slot takes the entry cnt slots below it. None stands for an access outside the table:
      below its start, or at the wrapped index of an empty map. */
  function GrowLoop(t: seq<Entry>, i: nat, from: nat, cnt: nat): (r: Option<seq<Entry>>)
    requires cnt > 0
    ensures r.Some? ==> |r.value| == |t|
    decreases i
  {
    if i < from then Some(t)
    else if i < cnt || i >= |t| then None
    else if i == 0 then None
    else GrowLoop(t[i := t[i - cnt]], i - 1, from, cnt)
  }

  function Grow(t: seq<Entry>, nbr: nat, from: nat, cnt: nat): (r: Option<seq<Entry>>)
    requires cnt > 0
    ensures r.Some? ==> |r.value| == |t|
  {
    GrowLoop(t, if nbr == 0 then 65535 else nbr - 1, from, cnt)
  }

  /** The whole table after the command, or None if the shift leaves the table. */
  function Carried(t: seq<Entry>, nbr: nat, start: nat, removed: nat, entries: seq<Entry>): (r: Option<seq<Entry>>)
    requires start + removed <= nbr && nbr - removed + |entries| <= |t| && nbr <= |t|
    ensures r.Some? ==> |r.value| == |t|
  {
    var added := |entries|;
    var shifted :=
      if removed > added then Some(ShiftDown(t, nbr, start + removed, removed - added))
      else if removed < added then Grow(t, nbr, start + removed, added - removed)
      else Some(t);
    if shifted.None? then None
    else Some(shifted.value[..start] + entries + shifted.value[start + added..])
  }

  /** The condition under which the shift is right: the map does not grow, or it grows at its end and was not empty. */
  predicate ShiftsRight(nbr: nat, start: nat, removed: nat, added: nat) {
    added <= removed || (start + removed == nbr && nbr > 0)
  }

  /** The map the table holds afterwards is the promised one. */
  predicate Promised(t: seq<Entry>, nbr: nat, start: nat, removed: nat, entries: seq<Entry>)
    requires start + removed <= nbr && nbr - removed + |entries| <= |t| && nbr <= |t|
  {
    var r := Carried(t, nbr, start, removed, entries);
    r.Some? && r.value[..nbr - removed + |entries|] == Spliced(t[..nbr], start, removed, entries)
  }

  lemma PromiseKept(t: seq<Entry>, nbr: nat, start: nat, removed: nat, entries: seq<Entry>)
    requires start + removed <= nbr && nbr - removed + |entries| <= |t| && nbr <= |t|
    requires ShiftsRight(nbr, start, removed, |entries|)
    ensures Promised(t, nbr, start, removed, entries)
  {
  }

  lemma {:induction false} GrowLoopLeavesAbove(t: seq<Entry>, i: nat, from: nat, cnt: nat, k: nat)
    requires cnt > 0 && i < k < |t| && GrowLoop(t, i, from, cnt).Some?
    ensures GrowLoop(t, i, from, cnt).value[k] == t[k]
    decreases i
  {
    if i >= from && i > 0 {
      GrowLoopLeavesAbove(t[i := t[i - cnt]], i - 1, from, cnt, k);
    }
  }

  /** Growing anywhere else leaves the last entry of the new map as the table happened to hold it. */
  lemma LastEntryStale(t: seq<Entry>, nbr: nat, start: nat, removed: nat, entries: seq<Entry>)
    requires start + removed < nbr <= |t| && nbr - removed + |entries| <= |t| && removed < |entries|
    ensures
      var r := Carried(t, nbr, start, removed, entries);
      var last := nbr - removed + |entries| - 1;
      r.Some? ==> r.value[last] == t[last]
  {
    var cnt := |entries| - removed;
    if Grow(t, nbr, start + removed, cnt).Some? {
      GrowLoopLeavesAbove(t, nbr - 1, start + removed, cnt, nbr + cnt - 1);
    }
  }

  /** The loop that should make room stays within the table if and only if its range begins no lower than the distance
      it moves entries by. */
  lemma {:induction false} GrowLoopStays(t: seq<Entry>, i: nat, from: nat, cnt: nat)
    requires cnt > 0 && from <= i < |t|
    ensures GrowLoop(t, i, from, cnt).Some? <==> from >= cnt
    decreases i
  {
    if i > from && i >= cnt {
      GrowLoopStays(t[i := t[i - cnt]], i - 1, from, cnt);
    }
  }

  /** What it leaves in slot k: in its range the entry cnt slots below. */
  lemma {:induction false} GrowLoopLeaves(t: seq<Entry>, i: nat, from: nat, cnt: nat, k: nat)
    requires 0 < cnt <= from <= i < |t| && k < |t| && GrowLoop(t, i, from, cnt).Some?
    ensures GrowLoop(t, i, from, cnt).value[k] == if from <= k <= i then t[k - cnt] else t[k]
    decreases i
  {
    var t1 := t[i := t[i - cnt]];
    if i > from {
      GrowLoopLeaves(t1, i - 1, from, cnt, k);
    } else {
      assert GrowLoop(t1, i - 1, from, cnt) == Some(t1);
    }
  }

  lemma SplicedAt(inUse: seq<Entry>, start: nat, removed: nat, entries: seq<Entry>, k: nat)
    requires start + removed <= |inUse| && k < |inUse| - removed + |entries|
    ensures |Spliced(inUse, start, removed, entries)| == |inUse| - removed + |entries|
    ensures
      Spliced(inUse, start, removed, entries)[k] ==
        if k < start then inUse[k] else if k < start + |entries| then entries[k - start]
        else inUse[k - |entries| + removed]
  {
  }

  lemma PutAt(t: seq<Entry>, start: nat, entries: seq<Entry>, k: nat)
    requires start + |entries| <= |t| && k < |t|
    ensures
      (t[..start] + entries + t[start + |entries|..])[k] ==
        if start <= k < start + |entries| then entries[k - start] else t[k]
  {
  }

  /** A command that grows the map in the middle, or grows an empty one: it leaves the table if it removes from too low
      a place or the map is empty; otherwise the new map is the promised one except behind the old map's end, where the
      entries are whatever the table held there. */
  lemma GrownInTheMiddle(t: seq<Entry>, nbr: nat, start: nat, removed: nat, entries: seq<Entry>)
    requires start + removed <= nbr <= |t| < 65536 && nbr - removed + |entries| <= |t| && removed < |entries|
    requires start + removed < nbr || nbr == 0
    ensures
      var carried := Carried(t, nbr, start, removed, entries);
      var promised := Spliced(t[..nbr], start, removed, entries);
      (carried.Some? <==> nbr > 0 && start + removed >= |entries| - removed) &&
      (carried.Some? ==> forall k :: 0 <= k < |promised| ==>
         carried.value[k] == if k >= nbr && k >= start + |entries| then t[k] else promised[k])
  {
    var cnt := |entries| - removed;
    if nbr > 0 {
      GrowLoopStays(t, nbr - 1, start + removed, cnt);
      if start + removed >= cnt {
        forall k | 0 <= k < nbr + cnt
          ensures |Spliced(t[..nbr], start, removed, entries)| == nbr + cnt
          ensures Carried(t, nbr, start, removed, entries).value[k] ==
            if k >= nbr && k >= start + |entries| then t[k] else Spliced(t[..nbr], start, removed, entries)[k]
        {
          GrownAt(t, nbr, start, removed, entries, k);
        }
      }
    }
  }

  lemma GrownAt(t: seq<Entry>, nbr: nat, start: nat, removed: nat, entries: seq<Entry>, k: nat)
    requires start + removed < nbr <= |t| && nbr - removed + |entries| <= |t| && removed < |entries|
    requires start + removed >= |entries| - removed && k < nbr - removed + |entries|
    ensures |Spliced(t[..nbr], start, removed, entries)| == nbr - removed + |entries|
    ensures
      var carried := Carried(t, nbr, start, removed, entries);
      carried.Some? &&
      carried.value[k] ==
        if k >= nbr && k >= start + |entries| then t[k] else Spliced(t[..nbr], start, removed, entries)[k]
  {
    var cnt := |entries| - removed;
    GrowLoopStays(t, nbr - 1, start + removed, cnt);
    GrowLoopLeaves(t, nbr - 1, start + removed, cnt, k);
    SplicedAt(t[..nbr], start, removed, entries, k);
    var shifted := GrowLoop(t, nbr - 1, start + removed, cnt).value;
    PutAt(shifted, start, entries, k);
    hide GrowLoop, Spliced;
  }

  /** A table for which a growth in the middle, or of an empty map, goes wrong. */
  function BadTable(capacity: nat, last: nat): (t: seq<Entry>)
    ensures |t| == capacity
    ensures forall i :: 0 <= i < capacity ==> (t[i].adi == 2 <==> i == last)
  {
    seq(capacity, i => Entry(if i == last then 2 else 1, 0, 0, 0, 0))
  }

  lemma PromiseBroken(capacity: nat, nbr: nat, start: nat, removed: nat, entries: seq<Entry>)
    requires start + removed <= nbr && nbr - removed + |entries| <= capacity < 65536 && nbr <= capacity
    requires !ShiftsRight(nbr, start, removed, |entries|)
    ensures !Promised(BadTable(capacity, nbr - removed + |entries| - 1), nbr, start, removed, entries)
  {
    var last := nbr - removed + |entries| - 1;
    var t := BadTable(capacity, last);
    if nbr > 0 {
      LastEntryStale(t, nbr, start, removed, entries);
      hide Carried, BadTable;
      assert Spliced(t[..nbr], start, removed, entries)[last] == t[nbr - 1];
    }
  }

  /** A command keeps its promise whatever the table holds if and only if the map does not grow, or grows at the end
      of a map that is not empty. */
  lemma RemapPromise(capacity: nat, nbr: nat, start: nat, removed: nat, entries: seq<Entry>)
    requires start + removed <= nbr && nbr - removed + |entries| <= capacity < 65536 && nbr <= capacity
    ensures
      (forall t: seq<Entry> :: |t| == capacity ==> Promised(t, nbr, start, removed, entries))
      <==> ShiftsRight(nbr, start, removed, |entries|)
  {
    hide Promised;
    if ShiftsRight(nbr, start, removed, |entries|) {
      forall t: seq<Entry> | |t| == capacity
        ensures Promised(t, nbr, start, removed, entries)
      {
        PromiseKept(t, nbr, start, removed, entries);
      }
    } else {
      PromiseBroken(capacity, nbr, start, removed, entries);
    }
  }

  /** What the command promises about sizes: the new map's size, at most 256 bytes, in place of the old one's. */
  lemma SplicedSize(inUse: seq<Entry>, start: nat, removed: nat, entries: seq<Entry>)
    requires start + removed <= |inUse|
    ensures Total(Spliced(inUse, start, removed, entries)) ==
            Total(inUse) - Total(inUse[start..start + removed]) + Total(entries)
  {
    TotalParts(inUse, start, start + removed);
    TotalAppend(inUse[..start] + entries, inUse[start + removed..]);
    TotalAppend(inUse[..start], entries);
  }

  lemma {:induction false} TotalBound(s: seq<Entry>)
    requires forall i :: 0 <= i < |s| ==> s[i].elements < 256
    ensures Total(s) <= 2040 * |s|
    decreases |s|
  {
    if s != [] {
      TotalBound(s[..|s| - 1]);
    }
  }

  /** The number of items a well-sized command adds. */
  function Removed(data: Bytes): nat
    requires |data| >= 4
  {
    Word(data, 0)
  }

  function Added(data: Bytes): nat
    requires |data| >= 4
  {
    Word(data, 2)
  }

  predicate ValidEntries(s: seq<Entry>) {
    forall i :: 0 <= i < |s| ==> s[i].dataType < |TYPE_SIZES| && s[i].elements < 256
  }

  lemma {:induction false} NewEntriesValid(adis: seq<Adi>, data: Bytes, n: nat)
    requires ValidAdis(adis) && 4 + 4 * n <= |data|
    ensures ValidEntries(NewEntries(adis, data, n))
  {
    if n > 0 {
      NewEntriesValid(adis, data, n - 1);
    }
  }

  /** The running 16-bit size never wraps: what stays is at most 256 bytes, and if 32 entries are added nothing
      stays. */
  lemma NoSizeWrap(rest: seq<Entry>, entries: seq<Entry>)
    requires Total(rest) <= MAX_PD && |rest| + |entries| <= MAX_MAPS && ValidEntries(entries)
    ensures Total(rest) + Total(entries) < 65536
  {
    TotalBound(entries);
  }

  lemma {:induction false} FaultPersists(adis: seq<Adi>, data: Bytes, i: nat, n: nat)
    requires i <= n && 4 + 4 * n <= |data| && ItemsFault(adis, data, i).Some?
    ensures ItemsFault(adis, data, n) == ItemsFault(adis, data, i)
    decreases n - i
  {
    if i < n {
      hide ItemFault;
      FaultPersists(adis, data, i, n - 1);
    }
  }

  datatype Outcome = Refused(why: Refusal) | Done(size: nat) | OutOfTable

  // ---- one command after the other --------------------------------------------------------------

  /** The table of a map, the number of entries in use and the stored size. */
  datatype Stored = Stored(table: seq<Entry>, nbr: nat, size: nat)

  predicate StoredOk(m: Stored) {
    m.nbr <= MAX_MAPS <= |m.table| < 65536 && ValidEntries(m.table[..m.nbr]) &&
    m.size == Total(m.table[..m.nbr]) <= MAX_PD
  }

  datatype Command = Command(start: nat, data: Bytes)

  /** One command, from m to m1: refused, it changes nothing; carried out, it leaves table, count and size as Carried
      and Spliced say, unless the shift leaves the table. */
  predicate Commanded(adis: seq<Adi>, m: Stored, c: Command, m1: Stored, outcome: Outcome)
    requires StoredOk(m)
  {
    var inUse := m.table[..m.nbr];
    var fault := Verdict(adis, inUse, c.start, c.data);
    if fault.Some? then outcome == Refused(fault.value) && m1 == m
    else
      var removed, entries := Removed(c.data), NewEntries(adis, c.data, Added(c.data));
      var carried := Carried(m.table, m.nbr, c.start, removed, entries);
      if carried.None? then outcome == OutOfTable
      else
        m1.table == carried.value && m1.nbr == m.nbr - removed + |entries| &&
        m1.size == Total(Spliced(inUse, c.start, removed, entries)) <= MAX_PD && outcome == Done(m1.size)
  }

  /** A command that is refused, or whose shift is right. */
  predicate Safe(adis: seq<Adi>, inUse: seq<Entry>, c: Command) {
    Verdict(adis, inUse, c.start, c.data).None? ==> ShiftsRight(|inUse|, c.start, Removed(c.data), Added(c.data))
  }

  /** What a command makes of the table. */
  function AfterCommand(adis: seq<Adi>, m: Stored, c: Command): Stored
    requires ValidAdis(adis) && StoredOk(m) && Safe(adis, m.table[..m.nbr], c)
  {
    if Verdict(adis, m.table[..m.nbr], c.start, c.data).Some? then m
    else
      AcceptedIsSpliced(adis, m.table, m.nbr, c.start, c.data);
      var removed, entries := Removed(c.data), NewEntries(adis, c.data, Added(c.data));
      Stored(Carried(m.table, m.nbr, c.start, removed, entries).value, m.nbr - removed + |entries|,
             Total(Spliced(m.table[..m.nbr], c.start, removed, entries)))
  }

  /** What a command should make of the entries in use. */
  function Promise(adis: seq<Adi>, inUse: seq<Entry>, c: Command): seq<Entry> {
    if Verdict(adis, inUse, c.start, c.data).Some? then inUse
    else Spliced(inUse, c.start, Removed(c.data), NewEntries(adis, c.data, Added(c.data)))
  }

  lemma CommandKeepsPromise(adis: seq<Adi>, m: Stored, c: Command)
    requires ValidAdis(adis) && StoredOk(m) && Safe(adis, m.table[..m.nbr], c)
    ensures
      var m1 := AfterCommand(adis, m, c);
      StoredOk(m1) && m1.table[..m1.nbr] == Promise(adis, m.table[..m.nbr], c)
  {
    hide Total, Carried, Spliced, NewEntries, ValidEntries, ValidAdis, ShiftsRight, Word, ItemsFault;
    if Verdict(adis, m.table[..m.nbr], c.start, c.data).None? {
      AcceptedIsSpliced(adis, m.table, m.nbr, c.start, c.data);
    }
  }

  /** Each command is refused or safe on the map the earlier ones promise. */
  predicate AllSafe(adis: seq<Adi>, inUse: seq<Entry>, commands: seq<Command>)
    decreases |commands|
  {
    commands == [] ||
    (Safe(adis, inUse, commands[0]) && AllSafe(adis, Promise(adis, inUse, commands[0]), commands[1..]))
  }

  function AllPromised(adis: seq<Adi>, inUse: seq<Entry>, commands: seq<Command>): seq<Entry>
    decreases |commands|
  {
    if commands == [] then inUse else AllPromised(adis, Promise(adis, inUse, commands[0]), commands[1..])
  }

  /** The table after any sequence of commands, each refused or safe. */
  function AfterAll(adis: seq<Adi>, m: Stored, commands: seq<Command>): Stored
    requires ValidAdis(adis) && StoredOk(m) && AllSafe(adis, m.table[..m.nbr], commands)
    decreases |commands|
  {
    if commands == [] then m
    else
      CommandKeepsPromise(adis, m, commands[0]);
      AfterAll(adis, AfterCommand(adis, m, commands[0]), commands[1..])
  }

  /** Any sequence of commands, each refused or safe, leaves a valid table that holds exactly the promised splices, with
      the size of what it holds. */
  lemma {:induction false} CommandsKeepPromises(adis: seq<Adi>, m: Stored, commands: seq<Command>)
    requires ValidAdis(adis) && StoredOk(m) && AllSafe(adis, m.table[..m.nbr], commands)
    ensures
      var m1 := AfterAll(adis, m, commands);
      StoredOk(m1) && m1.table[..m1.nbr] == AllPromised(adis, m.table[..m.nbr], commands)
    decreases |commands|
  {
    hide StoredOk, ValidAdis, AfterCommand, Promise, Safe;
    if commands != [] {
      CommandKeepsPromise(adis, m, commands[0]);
      CommandsKeepPromises(adis, AfterCommand(adis, m, commands[0]), commands[1..]);
    }
  }

  // ---- the map in place -------------------------------------------------------------------------

  class PdMap {
    const maps: array<Entry>
    var nbr: nat
    var size: nat

    ghost function Now(): Stored
      reads this, maps
    {
      Stored(maps[..], nbr, size)
    }

    ghost predicate Valid()
      reads this, maps
    {
      MAX_MAPS <= maps.Length < 65536 && nbr <= MAX_MAPS && ValidEntries(Map()) && size == Total(Map()) <= MAX_PD
    }

    /** The entries in use. */
    ghost function Map(): seq<Entry>
      reads this, maps
      requires nbr <= maps.Length
    {
      maps[..nbr]
    }

    constructor Empty(table: array<Entry>)
      ensures maps == table && nbr == 0 && size == 0
    {
      maps, nbr, size := table, 0, 0;
    }

    method Append(e: Entry)
      requires nbr < maps.Length
      modifies this`nbr, this`size, maps
      ensures nbr == old(nbr) + 1 && Map() == old(Map()) + [e] && size == (old(size) + EntrySize(e)) % 65536
    {
      hide EntrySize;
      maps[nbr] := e;
      size := (size + EntrySize(e)) % 65536;
      nbr := nbr + 1;
    }

    /** One turn of the loop of APPD_MapAdiToPd. */
    method MapNext(adis: seq<Adi>, number: nat)
      requires |adis| < NONE && Find(adis, number) < |adis| && nbr < maps.Length
      modifies this`nbr, this`size, maps
      ensures nbr == old(nbr) + 1 && Map() == old(Map()) + [WholeEntry(adis, number)]
      ensures size == (old(size) + EntrySize(WholeEntry(adis, number))) % 65536
    {
      hide EntrySize, Find;
      var index := FindAdiIndex(adis, number);
      Append(Entry(adis[index].number, adis[index].dataType, adis[index].elements, 0, index + 1));
    }

    /** APPD_MapAdiToPd for one direction: the instances of the initial list, each mapped whole. */
    method MapInitial(adis: seq<Adi>, initial: seq<nat>)
      requires ValidAdis(adis) && |initial| <= maps.Length < 65536
      requires forall i :: 0 <= i < |initial| ==> Find(adis, initial[i]) < |adis|
      modifies this`nbr, this`size, maps
      ensures nbr == |initial| && Map() == Whole(adis, initial) && size == Total(Map()) % 65536
      ensures forall i :: 0 <= i < nbr ==> MappedWhole(adis, initial[i], Map()[i])
      ensures MAX_MAPS <= maps.Length ==>
        (Valid() <==> |initial| <= MAX_MAPS && Total(Whole(adis, initial)) <= MAX_PD)
    {
      hide Total, EntrySize, Find, ValidEntries, ValidAdis, WholeEntry;
      ghost var all := Whole(adis, initial);
      WholeValid(adis, initial);
      FewAdis(adis);
      TotalOne(Entry(0, 0, 0, 0, 0));
      nbr, size := 0, 0;
      assert all[..0] == [];
      while nbr < |initial|
        invariant nbr <= |initial| && Map() == all[..nbr] && size == Total(all[..nbr]) % 65536
      {
        NextTotal(all, nbr);
        MapNext(adis, initial[nbr]);
      }
      assert all[..nbr] == all;
      forall i | 0 <= i < nbr
        ensures MappedWhole(adis, initial[i], all[i])
      {
        WholeIsWhole(adis, initial[i]);
      }
    }

    /** The sizes of the entries to be removed come off the stored size. */
    method SizeWithout(start: nat, removed: nat) returns (newSize: nat)
      requires Valid() && start + removed <= nbr
      ensures newSize == size - Total(Map()[start..start + removed])
      ensures newSize == Total(Map()[..start]) + Total(Map()[start + removed..])
    {
      hide Total, EntrySize, ValidEntries, TypeSize;
      ghost var m := Map();
      ghost var gone := m[start..start + removed];
      TotalParts(m, start, start + removed);
      TotalOne(Entry(0, 0, 0, 0, 0));
      newSize := size;
      assert gone[..0] == [];
      var cnt := 0;
      while cnt < removed
        invariant 0 <= cnt <= removed && newSize == size - Total(gone[..cnt])
      {
        NextTotal(gone, cnt);
        assert gone[cnt] == maps[start + cnt];
        newSize := (newSize - EntrySize(maps[start + cnt])) % 65536;
        cnt := cnt + 1;
      }
      assert gone[..removed] == gone;
    }

    /** The items are checked one by one, and their sizes added up. */
    static method CheckItems(adis: seq<Adi>, data: Bytes, added: nat, ghost rest: seq<Entry>, without: nat)
      returns (fault: Option<Refusal>, newSize: nat)
      requires ValidAdis(adis) && |data| == 4 + 4 * added && without == Total(rest) <= MAX_PD
      requires |rest| + added <= MAX_MAPS
      ensures fault == ItemsFault(adis, data, added)
      ensures fault == None ==> newSize == Total(rest) + Total(NewEntries(adis, data, added))
    {
      hide Total, EntrySize, ItemFault, NewEntry, ItemAt, ValidAdis, ValidEntries, TypeSize, Word, Find;
      FewAdis(adis);
      newSize := without;
      var cnt := 0;
      TotalOne(Entry(0, 0, 0, 0, 0));
      while cnt < added
        invariant 0 <= cnt <= added && ItemsFault(adis, data, cnt) == None
        invariant newSize == Total(rest) + Total(NewEntries(adis, data, cnt))
      {
        var x := ItemAt(data, cnt);
        fault := CheckItem(adis, x);
        if fault.Some? {
          FaultPersists(adis, data, cnt + 1, added);
          return fault, newSize;
        }
        var index := FindAdiIndex(adis, x.adi);
        NewSize(adis, data, cnt, rest);
        newSize := (newSize + x.elements * TypeSize(adis[index].dataType)) % 65536;
        cnt := cnt + 1;
      }
      fault := None;
    }

    static method CheckItem(adis: seq<Adi>, x: Item) returns (fault: Option<Refusal>)
      requires |adis| < NONE
      ensures fault == ItemFault(adis, x)
      ensures fault == None ==> Find(adis, x.adi) < |adis|
    {
      var index := FindAdiIndex(adis, x.adi);
      if index == NONE {
        return Some(OUT_OF_RANGE);
      } else if x.adi == 6 {
        if x.first != 0 || x.elements != 2 {
          return Some(NOT_ENOUGH_DATA);
        }
      }
      if x.first + x.elements > adis[index].elements {
        return Some(INVALID_NUM_ELEMENTS);
      }
      return None;
    }

    /** Entries move down. */
    method MoveDown(from: nat, cnt: nat)
      requires cnt <= from <= nbr <= maps.Length
      modifies maps
      ensures maps[..] == ShiftDown(old(maps[..]), nbr, from, cnt)
    {
      hide ShiftDown;
      ghost var t := maps[..];
      var mapIndex := from;
      MovedNone(t, from, cnt);
      while mapIndex < nbr
        invariant from <= mapIndex <= nbr && maps[..] == ShiftDown(t, mapIndex, from, cnt)
      {
        MovedOne(t, mapIndex, from, cnt);
        ghost var before := maps[..];
        maps[mapIndex - cnt] := maps[mapIndex];
        assert maps[..] == before[mapIndex - cnt := before[mapIndex]];
        mapIndex := mapIndex + 1;
      }
    }

    /** Entries should move up; the loop is the one of the source. */
    method MoveUp(from: nat, cnt: nat) returns (ok: bool)
      requires from <= nbr <= maps.Length < 65536 && cnt > 0
      modifies maps
      ensures ok == Grow(old(maps[..]), nbr, from, cnt).Some?
      ensures ok ==> maps[..] == Grow(old(maps[..]), nbr, from, cnt).value
    {
      var mapIndex := if nbr == 0 then 65535 else nbr - 1;
      while mapIndex >= from
        invariant mapIndex >= 0
        invariant GrowLoop(maps[..], mapIndex, from, cnt) == Grow(old(maps[..]), nbr, from, cnt)
        decreases mapIndex
      {
        if mapIndex < cnt || mapIndex >= maps.Length {
          return false;
        }
        ghost var before := maps[..];
        maps[mapIndex] := maps[mapIndex - cnt];
        assert maps[..] == before[mapIndex := before[mapIndex - cnt]];
        mapIndex := mapIndex - 1;
      }
      return true;
    }

    /** The shift of the entries behind the removed range. */
    method ShiftEntries(from: nat, removed: nat, added: nat) returns (ok: bool)
      requires removed <= from <= nbr <= maps.Length < 65536
      modifies maps
      ensures
        var t := old(maps[..]);
        if removed > added then ok && maps[..] == ShiftDown(t, nbr, from, removed - added)
        else if removed < added then
          ok == Grow(t, nbr, from, added - removed).Some? &&
          (ok ==> maps[..] == Grow(t, nbr, from, added - removed).value)
        else ok && maps[..] == t
    {
      hide Grow, ShiftDown;
      ok := true;
      if removed > added {
        MoveDown(from, removed - added);
      } else if removed < added {
        ok := MoveUp(from, added - removed);
      }
    }

    /** The new entries are written into place. */
    method WriteEntries(adis: seq<Adi>, data: Bytes, start: nat, added: nat)
      requires |adis| < NONE && |data| == 4 + 4 * added && start + added <= maps.Length
      requires ItemsFault(adis, data, added) == None
      modifies maps
      ensures maps[..] == old(maps[..])[..start] + NewEntries(adis, data, added) + old(maps[..])[start + added..]
      ensures AskedEntries(adis, data, added, maps[..][start..start + added])
    {
      hide ItemFault, ItemAt, Word, Find, AskedEntries;
      var mapIndex := start;
      while mapIndex < start + added
        invariant start <= mapIndex <= start + added
        invariant maps[..] ==
          old(maps[..])[..start] + NewEntries(adis, data, mapIndex - start) + old(maps[..])[mapIndex..]
      {
        ghost var n := mapIndex - start;
        var x := ItemAt(data, mapIndex - start);
        ItemIsGood(adis, data, n, added);
        var index := FindAdiIndex(adis, x.adi);
        maps[mapIndex] := Entry(x.adi, adis[index].dataType, x.elements, x.first, index + 1);
        assert NewEntries(adis, data, n + 1) == NewEntries(adis, data, n) + [maps[mapIndex]];
        mapIndex := mapIndex + 1;
      }
      WrittenAsAsked(adis, data, start, added, old(maps[..]), maps[..]);
    }

    /** The checks of the remap command. */
    method Check(adis: seq<Adi>, start: nat, data: Bytes) returns (fault: Option<Refusal>, newSize: nat)
      requires Valid() && ValidAdis(adis)
      ensures fault == Verdict(adis, Map(), start, data)
      ensures fault == None ==>
        newSize == Total(Spliced(Map(), start, Removed(data), NewEntries(adis, data, Added(data))))
    {
      hide Total, EntrySize, ItemFault, ValidAdis, ValidEntries, TypeSize, Find, Word, NewEntries, ItemsFault;
      newSize := size;
      if |data| < 4 {
        return Some(NOT_ENOUGH_DATA), newSize;
      }
      if start > nbr {
        return Some(INV_CMD_EXT_0), newSize;
      }
      var removed := Word(data, 0);
      if start + removed > nbr {
        return Some(OUT_OF_RANGE), newSize;
      }
      newSize := SizeWithout(start, removed);
      var added := Word(data, 2);
      if nbr - removed + added > MAX_MAPS {
        return Some(NO_RESOURCES), newSize;
      }
      if |data| < 4 + added * 4 {
        return Some(NOT_ENOUGH_DATA), newSize;
      }
      if |data| > 4 + added * 4 {
        return Some(TOO_MUCH_DATA), newSize;
      }
      ghost var m := Map();
      ghost var rest := m[..start] + m[start + removed..];
      TotalAppend(m[..start], m[start + removed..]);
      TotalParts(m, start, start + removed);
      fault, newSize := CheckItems(adis, data, added, rest, newSize);
      if fault.Some? {
        return;
      }
      SplicedSize(m, start, removed, NewEntries(adis, data, added));
      if newSize > MAX_PD {
        return Some(INVALID_TOTAL_SIZE), newSize;
      }
    }

    /** The checks and, if none fails, the shift and the new entries. */
    method CheckAndCarry(adis: seq<Adi>, start: nat, data: Bytes) returns (outcome: Outcome)
      requires Valid() && ValidAdis(adis)
      modifies this`nbr, this`size, maps
      ensures Commanded(adis, old(Now()), Command(start, data), Now(), outcome)
    {
      hide Total, EntrySize, ItemFault, ValidAdis, ValidEntries, TypeSize, Find, Word, NewEntries, ItemsFault, GrowLoop,
        Grow, ShiftDown, Carried, Spliced, AskedEntries, Verdict;
      FewAdis(adis);
      ghost var t := maps[..];
      var fault, newSize := Check(adis, start, data);
      if fault.Some? {
        return Refused(fault.value);
      }
      AcceptedItems(adis, Map(), start, data);
      var removed, added := Removed(data), Added(data);
      var ok := ShiftEntries(start + removed, removed, added);
      ghost var entries := NewEntries(adis, data, added);
      if !ok {
        LeftTheTable(t, nbr, start, removed, entries);
        return OutOfTable;
      }
      ghost var shifted := maps[..];
      WriteEntries(adis, data, start, added);
      StayedInTable(t, nbr, start, removed, entries, shifted);
      nbr := nbr + added - removed;
      size := newSize;
      return Done(size);
    }

    /** appd_RemapProcessDataCommand. A command that is refused or safe keeps the table valid and its promise. */
    method Remap(adis: seq<Adi>, start: nat, data: Bytes) returns (outcome: Outcome)
      requires Valid() && ValidAdis(adis)
      modifies this`nbr, this`size, maps
      ensures Commanded(adis, old(Now()), Command(start, data), Now(), outcome)
      ensures Safe(adis, old(Map()), Command(start, data)) ==>
        Valid() && Now() == AfterCommand(adis, old(Now()), Command(start, data)) &&
        Map() == Promise(adis, old(Map()), Command(start, data))
      ensures outcome.Refused? <==> !Acceptable(adis, old(Map()), start, data)
      ensures outcome.Refused? ==> Now() == old(Now())
      ensures outcome.Done? && RoomInPlace(old(nbr), start, data) ==>
        DoneAsAsked(adis, old(Now()), Command(start, data), Now(), outcome)
    {
      hide Safe, AfterCommand, Commanded, Promise, ValidAdis, ValidEntries, Total, Acceptable, DoneAsAsked,
        RoomInPlace;
      ghost var before, c := Now(), Command(start, data);
      outcome := CheckAndCarry(adis, start, data);
      CommandedAsAsked(adis, before, c, Now(), outcome);
      if Safe(adis, before.table[..before.nbr], c) {
        CommandedSafely(adis, before, c, Now(), outcome);
      }
    }
  }

  lemma WrittenAsAsked(adis: seq<Adi>, data: Bytes, start: nat, added: nat, t: seq<Entry>, t1: seq<Entry>)
    requires |adis| < NONE && |data| == 4 + 4 * added && start + added <= |t| && ItemsFault(adis, data, added) == None
    requires t1 == t[..start] + NewEntries(adis, data, added) + t[start + added..]
    ensures AskedEntries(adis, data, added, t1[start..start + added])
  {
    FaultlessItems(adis, data, added);
    NewEntriesBytes(adis, data, added);
    hide GoodItem, AskedEntries, NewEntries;
    assert t1[start..start + added] == NewEntries(adis, data, added);
  }

  /** What one command does, in terms of its bytes. */
  lemma CommandedAsAsked(adis: seq<Adi>, m: Stored, c: Command, m1: Stored, outcome: Outcome)
    requires ValidAdis(adis) && StoredOk(m) && Commanded(adis, m, c, m1, outcome)
    ensures outcome.Refused? <==> !Acceptable(adis, m.table[..m.nbr], c.start, c.data)
    ensures outcome.Refused? ==> m1 == m
    ensures outcome.Done? && RoomInPlace(m.nbr, c.start, c.data) ==> DoneAsAsked(adis, m, c, m1, outcome)
  {
    AcceptedIff(adis, m.table[..m.nbr], c.start, c.data);
    hide Verdict, Acceptable, Total, ValidEntries, Carried, Spliced, NewEntries, DoneAsAsked, Word, RoomInPlace;
    if Verdict(adis, m.table[..m.nbr], c.start, c.data).None? && RoomInPlace(m.nbr, c.start, c.data) {
      CarriedAsAsked(adis, m, c, m1, outcome);
    }
  }

  /** The map is the one asked for, and its size is stored and answered. */
  ghost predicate DoneAsAsked(adis: seq<Adi>, m: Stored, c: Command, m1: Stored, outcome: Outcome)
    requires m.nbr <= |m.table|
  {
    m1.nbr <= |m1.table| && AskedMap(adis, m.table[..m.nbr], c.start, c.data, m1.table[..m1.nbr]) &&
    outcome == Done(m1.size) && m1.size == Total(m1.table[..m1.nbr]) <= 256
  }

  lemma CarriedAsAsked(adis: seq<Adi>, m: Stored, c: Command, m1: Stored, outcome: Outcome)
    requires ValidAdis(adis) && StoredOk(m) && Commanded(adis, m, c, m1, outcome)
    requires Verdict(adis, m.table[..m.nbr], c.start, c.data).None? && RoomInPlace(m.nbr, c.start, c.data)
    ensures DoneAsAsked(adis, m, c, m1, outcome)
  {
    FewAdis(adis);
    hide AskedMap, Total, ValidEntries, RoomInPlace, ValidAdis, StoredOk, Commanded, Verdict, Word, NewEntries, Spliced;
    DoneAsPromised(adis, m, c, m1, outcome);
    SplicedAsAsked(adis, m.table[..m.nbr], c.start, c.data);
  }

  lemma DoneAsPromised(adis: seq<Adi>, m: Stored, c: Command, m1: Stored, outcome: Outcome)
    requires ValidAdis(adis) && StoredOk(m) && Commanded(adis, m, c, m1, outcome)
    requires Verdict(adis, m.table[..m.nbr], c.start, c.data).None? && RoomInPlace(m.nbr, c.start, c.data)
    ensures |c.data| >= 4 && c.start + Word(c.data, 0) <= m.nbr <= |m.table| && 4 + 4 * Word(c.data, 2) <= |c.data|
    ensures
      var promised := Spliced(m.table[..m.nbr], c.start, Word(c.data, 0), NewEntries(adis, c.data, Word(c.data, 2)));
      m1.nbr <= |m1.table| && m1.table[..m1.nbr] == promised && outcome == Done(m1.size) &&
      m1.size == Total(promised) <= 256
  {
    ShiftIsRight(adis, m.table[..m.nbr], c.start, c.data);
    AcceptedIsSpliced(adis, m.table, m.nbr, c.start, c.data);
    AcceptedItems(adis, m.table[..m.nbr], c.start, c.data);
    hide Verdict, Total, ValidEntries, Carried, Spliced, NewEntries, Word, RoomInPlace, ValidAdis, ShiftsRight;
  }

  lemma AcceptedItems(adis: seq<Adi>, inUse: seq<Entry>, start: nat, data: Bytes)
    requires Verdict(adis, inUse, start, data).None?
    ensures |data| >= 4 && |data| == 4 + 4 * Added(data) && ItemsFault(adis, data, Added(data)) == None
    ensures start + Removed(data) <= |inUse| && |inUse| - Removed(data) + Added(data) <= MAX_MAPS
    ensures Total(Spliced(inUse, start, Removed(data), NewEntries(adis, data, Added(data)))) <= MAX_PD
  {
    hide Word, ItemsFault, NewEntries, Spliced, Total;
  }

  /** The table after the shift and the new entries is the one Carried says. */
  lemma StayedInTable(t: seq<Entry>, nbr: nat, start: nat, removed: nat, entries: seq<Entry>, shifted: seq<Entry>)
    requires start + removed <= nbr && nbr - removed + |entries| <= |t| && nbr <= |t| && |shifted| == |t|
    requires
      if removed > |entries| then shifted == ShiftDown(t, nbr, start + removed, removed - |entries|)
      else if removed < |entries| then Grow(t, nbr, start + removed, |entries| - removed) == Some(shifted)
      else shifted == t
    ensures
      Carried(t, nbr, start, removed, entries) == Some(shifted[..start] + entries + shifted[start + |entries|..])
  {
    hide ShiftDown, Grow;
  }

  lemma LeftTheTable(t: seq<Entry>, nbr: nat, start: nat, removed: nat, entries: seq<Entry>)
    requires start + removed <= nbr && nbr - removed + |entries| <= |t| && nbr <= |t|
    requires removed < |entries| && Grow(t, nbr, start + removed, |entries| - removed).None?
    ensures Carried(t, nbr, start, removed, entries).None?
  {
    hide Grow;
  }

  lemma ShiftIsRight(adis: seq<Adi>, inUse: seq<Entry>, start: nat, data: Bytes)
    requires Verdict(adis, inUse, start, data).None? && RoomInPlace(|inUse|, start, data)
    ensures |data| >= 4 && ShiftsRight(|inUse|, start, Word(data, 0), Word(data, 2))
  {
    hide ItemsFault, NewEntries, Spliced, Total;
    WordIsLowHigh(data, 0);
    WordIsLowHigh(data, 2);
  }

  lemma CarriedWhenSafe(adis: seq<Adi>, m: Stored, c: Command)
    requires ValidAdis(adis) && StoredOk(m) && Safe(adis, m.table[..m.nbr], c)
    ensures Verdict(adis, m.table[..m.nbr], c.start, c.data).None? ==>
      Carried(m.table, m.nbr, c.start, Removed(c.data), NewEntries(adis, c.data, Added(c.data))).Some?
  {
    hide Total, Carried, Spliced, NewEntries, ValidEntries, ValidAdis, ShiftsRight, Word, ItemsFault;
    if Verdict(adis, m.table[..m.nbr], c.start, c.data).None? {
      AcceptedIsSpliced(adis, m.table, m.nbr, c.start, c.data);
    }
  }

  lemma CommandedIs(adis: seq<Adi>, m: Stored, c: Command, m1: Stored, outcome: Outcome)
    requires ValidAdis(adis) && StoredOk(m) && Safe(adis, m.table[..m.nbr], c) && Commanded(adis, m, c, m1, outcome)
    ensures m1 == AfterCommand(adis, m, c)
  {
    CarriedWhenSafe(adis, m, c);
    hide Total, Carried, Spliced, NewEntries, ValidEntries, ValidAdis, ShiftsRight, Safe, Word, Verdict;
  }

  lemma CommandedSafely(adis: seq<Adi>, m: Stored, c: Command, m1: Stored, outcome: Outcome)
    requires ValidAdis(adis) && StoredOk(m) && Safe(adis, m.table[..m.nbr], c) && Commanded(adis, m, c, m1, outcome)
    ensures StoredOk(m1) && m1 == AfterCommand(adis, m, c) && m1.table[..m1.nbr] == Promise(adis, m.table[..m.nbr], c)
  {
    CommandedIs(adis, m, c, m1, outcome);
    CommandKeepsPromise(adis, m, c);
    hide Total, ValidEntries, ValidAdis, Safe, Verdict, AfterCommand, Promise, Commanded;
  }

  lemma ItemIsGood(adis: seq<Adi>, data: Bytes, i: nat, n: nat)
    requires i < n && 4 + 4 * n <= |data| && ItemsFault(adis, data, n) == None
    ensures Find(adis, ItemAt(data, i).adi) < |adis|
    decreases n - i
  {
    hide ItemAt, Find;
    if i + 1 < n {
      ItemIsGood(adis, data, i, n - 1);
    }
  }

  /** One more item: its size is added, and the sum stays within 16 bits. */
  lemma NewSize(adis: seq<Adi>, data: Bytes, n: nat, rest: seq<Entry>)
    requires ValidAdis(adis) && 8 + 4 * n <= |data| && Total(rest) <= MAX_PD && |rest| + n < MAX_MAPS
    requires Find(adis, ItemAt(data, n).adi) < |adis|
    ensures
      var x := ItemAt(data, n);
      Total(NewEntries(adis, data, n + 1)) ==
        Total(NewEntries(adis, data, n)) + x.elements * TypeSize(adis[Find(adis, x.adi)].dataType) &&
      Total(rest) + Total(NewEntries(adis, data, n + 1)) < 65536
  {
    hide Total, EntrySize, NewEntry, ItemAt, ValidEntries, TypeSize, Find;
    NewEntriesNext(adis, data, n);
    NewEntriesValid(adis, data, n + 1);
    NoSizeWrap(rest, NewEntries(adis, data, n + 1));
    ItemSize(adis, ItemAt(data, n));
  }

  lemma ItemSize(adis: seq<Adi>, x: Item)
    requires Find(adis, x.adi) < |adis|
    ensures EntrySize(NewEntry(adis, x)) == x.elements * TypeSize(adis[Find(adis, x.adi)].dataType)
  {
    hide Find, TypeSize;
  }

  lemma NewEntriesNext(adis: seq<Adi>, data: Bytes, n: nat)
    requires 8 + 4 * n <= |data|
    ensures Total(NewEntries(adis, data, n + 1)) ==
            Total(NewEntries(adis, data, n)) + EntrySize(NewEntry(adis, ItemAt(data, n)))
  {
    TotalOne(NewEntry(adis, ItemAt(data, n)));
    TotalAppend(NewEntries(adis, data, n), [NewEntry(adis, ItemAt(data, n))]);
    hide Total, EntrySize, NewEntry, ItemAt;
  }

  function WholeEntry(adis: seq<Adi>, number: nat): Entry
    requires Find(adis, number) < |adis|
  {
    var k := Find(adis, number);
    Entry(adis[k].number, adis[k].dataType, adis[k].elements, 0, k + 1)
  }

  /** A list of instance numbers mapped whole. */
  function Whole(adis: seq<Adi>, numbers: seq<nat>): (s: seq<Entry>)
    requires forall i :: 0 <= i < |numbers| ==> Find(adis, numbers[i]) < |adis|
    ensures |s| == |numbers|
  {
    seq(|numbers|, i requires 0 <= i < |numbers| => WholeEntry(adis, numbers[i]))
  }

  /** All elements of the first instance with a number. */
  ghost predicate MappedWhole(adis: seq<Adi>, number: nat, e: Entry) {
    e.adi == number && e.first == 0 &&
    exists k: nat :: FirstWith(adis, number, k) && e.dataType == adis[k].dataType &&
                     e.elements == adis[k].elements && e.order == k + 1
  }

  lemma WholeIsWhole(adis: seq<Adi>, number: nat)
    requires |adis| < NONE && Find(adis, number) < |adis|
    ensures MappedWhole(adis, number, WholeEntry(adis, number))
  {
    FindFirst(adis, number);
    hide Find;
    assert FirstWith(adis, number, Find(adis, number));
  }

  lemma WholeValid(adis: seq<Adi>, numbers: seq<nat>)
    requires ValidAdis(adis) && forall i :: 0 <= i < |numbers| ==> Find(adis, numbers[i]) < |adis|
    ensures ValidEntries(Whole(adis, numbers))
  {
    hide Find;
  }

  lemma TotalOne(e: Entry)
    ensures Total([e]) == EntrySize(e) && Total([]) == 0
  {
    assert [e][..0] == [];
  }

  lemma NextTotal(s: seq<Entry>, n: nat)
    requires n < |s|
    ensures Total(s[..n + 1]) == Total(s[..n]) + EntrySize(s[n])
    ensures Total(s[..n + 1]) <= Total(s) && s[..n + 1] == s[..n] + [s[n]]
  {
    TotalOne(s[n]);
    hide Total, EntrySize;
    assert s[..n + 1] == s[..n] + [s[n]];
    TotalAppend(s[..n], [s[n]]);
    assert s == s[..n + 1] + s[n + 1..];
    TotalAppend(s[..n + 1], s[n + 1..]);
  }

  /** The command as a whole, on the map in use: accepted and not growing in the middle, it is the promised splice, with
      a size that is the sum of its entries' sizes and fits the process data area. */
  lemma AcceptedIsSpliced(adis: seq<Adi>, t: seq<Entry>, nbr: nat, start: nat, data: Bytes)
    requires ValidAdis(adis) && nbr <= MAX_MAPS <= |t| < 65536 && ValidEntries(t[..nbr])
    requires Verdict(adis, t[..nbr], start, data) == None
    requires ShiftsRight(nbr, start, Removed(data), Added(data))
    ensures
      var entries := NewEntries(adis, data, Added(data));
      var carried := Carried(t, nbr, start, Removed(data), entries);
      carried.Some? &&
      var m := carried.value[..nbr - Removed(data) + |entries|];
      m == Spliced(t[..nbr], start, Removed(data), entries) && |m| <= MAX_MAPS && ValidEntries(m) && Total(m) <= MAX_PD
  {
    hide Total, EntrySize, ItemFault, TypeSize, Find, Word, ItemsFault, NewEntries, Carried;
    var entries := NewEntries(adis, data, Added(data));
    PromiseKept(t, nbr, start, Removed(data), entries);
    NewEntriesValid(adis, data, Added(data));
  }
}

/** What one run of the link machine means for the protocol: a telegram accepted goes through the receiving side, and
    the next one built carries what the sending side has next. */
module Rounds {
  import opened Abp
  import opened Options
  import opened DriverSpec
  import opened Fragments

  /** The receiving side of the driver. */
  function RxSide(d: Drv): Rx { Rx(d.inBuf, d.l.recFrags, M(d.l.last)) }

  predicate WriterOk(wr: Option<OutBuf>) { wr.Some? ==> UnderWay(wr.value) }

  // ---- the telegram built -----------------------------------------------------------------------

  lemma SpliceKeepsFront(s: Bytes, at: nat, b: Bytes)
    requires 17 <= at && at + |b| <= |s|
    ensures Splice(s, at, b)[0] == s[0] && Splice(s, at, b)[1..17] == s[1..17]
  {
  }

  lemma SpliceEnd(s: Bytes, at: nat, b: Bytes)
    requires at + |b| <= |s|
    ensures Splice(s, at, b)[..at + |b|] == s[..at] + b
  {
    hide Splice;
    var r := Splice(s, at, b);
    assert r[..at + |b|] == r[..at] + r[at..at + |b|];
  }

  lemma FrontOf(body: Bytes, crc: Bytes)
    requires |body| >= 17 && |crc| == 2
    ensures (body + crc)[0] == body[0] && FragmentOf(body + crc) == body[1..17]
  {
  }

  /** Sealing leaves bits and fragment alone and makes the checksum fit. */
  lemma SealFacts(d: Drv)
    ensures Telegram(Seal(d))[0] == d.tx[0] && FragmentOf(Telegram(Seal(d))) == d.tx[1..17]
    ensures CrcOk(Telegram(Seal(d)))
    ensures Seal(d) == d.(tx := Seal(d).tx, l := d.l.(serialWrite := OVERHEAD + d.l.pdWriteLen))
    ensures Telegram(Seal(d)) == d.tx[..17 + d.l.pdWriteLen] + CrcBytes(d.tx[..17 + d.l.pdWriteLen])
  {
    hide Splice, CrcOk, CrcBytes, FragmentOf;
    var n: int := 17 + d.l.pdWriteLen;
    var crc := CrcBytes(d.tx[..n]);
    SealedPasses(d.tx[..n]);
    SpliceEnd(d.tx, n, crc);
    FrontOf(d.tx[..n], crc);
    assert d.tx[..n][1..17] == d.tx[1..17];
  }

  lemma PutProcessDataFacts(d: Drv)
    ensures PutProcessData(d).tx[0] == d.tx[0] && PutProcessData(d).tx[1..17] == d.tx[1..17]
    ensures PutProcessData(d) == d.(tx := PutProcessData(d).tx, a := d.a.(newPd := PutProcessData(d).a.newPd))
  {
    var len: int := d.l.pdWriteLen;
    if TakesNewPd(d.a, d.l.pdWriteLen) {
      SpliceKeepsFront(d.tx, 17, d.writeData[..len]);
    }
  }

  /** What a new telegram leaves unchanged: everything but the buffer, the bits, the fragment counter, the telegram's
      length and the process data flag. */
  predicate OnlySent(d: Drv, d1: Drv) {
    d1 == d.(tx := d1.tx, a := d.a.(newPd := d1.a.newPd),
             l := d.l.(ctrl := d1.l.ctrl, wr := d1.l.wr, serialWrite := d1.l.serialWrite, st := WAIT_FOR_TELEGRAM))
  }

  lemma HeadOfBuild(d: Drv, env: Env)
    requires d.l.wr.Some? && d.l.wr.value.cnt < d.l.wr.value.nFrags
    ensures
      var d1, b := d.(tx := Splice(d.tx, 0, [d.l.ctrl])), d.l.wr.value;
      var d2 := PutFragment(d1, env);
      d2.tx[0] == d.l.ctrl && d2.tx[1..17] == FragmentAt(b.msg, b.cnt, env.pad) &&
      d2 == d.(tx := d2.tx, l := d.l.(wr := Some(b.(cnt := b.cnt + 1))))
  {
    hide FragmentAt;
    var d1, b := d.(tx := Splice(d.tx, 0, [d.l.ctrl])), d.l.wr.value;
    var d2 := PutFragment(d1, env);
    assert d1.tx[0] == d.l.ctrl;
    assert d2.tx[0] == d2.tx[..1][0] == d1.tx[..1][0];
  }

  lemma BuildFacts(d: Drv, withMessage: bool, env: Env)
    requires withMessage ==> d.l.wr.Some? && d.l.wr.value.cnt < d.l.wr.value.nFrags
    ensures
      var d1 := Build(d, withMessage, env);
      Telegram(d1)[0] == d.l.ctrl && CrcOk(Telegram(d1)) &&
      (withMessage ==>
        var b := d.l.wr.value;
        d1.l.wr == Some(b.(cnt := b.cnt + 1)) && FragmentOf(Telegram(d1)) == FragmentAt(b.msg, b.cnt, env.pad)) &&
      (!withMessage ==> d1.l.wr == d.l.wr) &&
      d1 == d.(tx := d1.tx, a := d.a.(newPd := d1.a.newPd),
               l := d.l.(wr := d1.l.wr, serialWrite := d1.l.serialWrite))
  {
    var d1 := d.(tx := Splice(d.tx, 0, [d.l.ctrl]));
    var d2 := if withMessage then PutFragment(d1, env) else d1;
    assert d1.tx[0] == d.l.ctrl;
    if withMessage {
      HeadOfBuild(d, env);
    }
    hide Splice, FragmentAt, PutFragment, FragmentOf, CrcOk, PutProcessData, Seal;
    PutProcessDataFacts(d2);
    SealFacts(PutProcessData(d2));
  }

  lemma RoomIs(a: Ap)
    ensures FreeCmdSlots(a) <==> a.nFrom < a.lim.abcc && |a.inQ| < a.lim.abcc + a.lim.appl
  {
  }

  lemma SendFacts(d: Drv, withMessage: bool, env: Env)
    requires withMessage ==> d.l.wr.Some? && d.l.wr.value.cnt < d.l.wr.value.nFrags
    ensures
      var d1 := Send(d, withMessage, env);
      var tel := Telegram(d1);
      OnlySent(d, d1) && CrcOk(tel) && tel[0] == d1.l.ctrl &&
      T(d1.l.ctrl) == !T(d.l.ctrl) && M(d1.l.ctrl) == withMessage && R(d1.l.ctrl) == FreeCmdSlots(d.a) &&
      (R(d1.l.ctrl) <==> d.a.nFrom < d.a.lim.abcc && |d.a.inQ| < d.a.lim.abcc + d.a.lim.appl) &&
      (withMessage ==>
        var b := d.l.wr.value;
        d1.l.wr == Some(b.(cnt := b.cnt + 1)) && FragmentOf(tel) == FragmentAt(b.msg, b.cnt, env.pad)) &&
      (!withMessage ==> d1.l.wr == d.l.wr)
  {
    RoomIs(d.a);
    hide Build, ToggleT, WithR, WithM, T, M, R, Splice, FragmentAt, FragmentOf, CrcOk, FreeCmdSlots, FragCount,
      SizesFit, Telegram;
    var d0 := if withMessage then d else d.(tx := Splice(d.tx, 1, Zeros(FRAG)));
    var ctrl := ToggleT(WithR(WithM(d.l.ctrl, withMessage), FreeCmdSlots(d.a)));
    BuildFacts(d0.(l := d0.l.(ctrl := ctrl)), withMessage, env);
    SameTelegram(Build(d0.(l := d0.l.(ctrl := ctrl)), withMessage, env));
  }

  lemma SameTelegram(d: Drv)
    ensures Telegram(d.(l := d.l.(st := WAIT_FOR_TELEGRAM))) == Telegram(d)
  {
  }

  // ---- queues and counters over a round ---------------------------------------------------------

  /** Buffers wait in the queue of their kind with no fragment sent yet. */
  predicate QueuesOk(a: Ap) {
    (forall i :: 0 <= i < |a.cmdQ| ==> a.cmdQ[i].cnt == 0 && IsCommand(a.cmdQ[i].msg)) &&
    (forall i :: 0 <= i < |a.rspQ| ==> a.rspQ[i].cnt == 0 && !IsCommand(a.rspQ[i].msg))
  }

  /** The inbound queue holds every inbound buffer in use. */
  predicate InboundOk(a: Ap) { a.inUsed == |a.inQ| }

  /** The commands among some messages, and the responses, in order. */
  function CommandsOf(s: seq<Msg>): seq<Msg> {
    if s == [] then []
    else CommandsOf(s[..|s| - 1]) + if IsCommand(s[|s| - 1]) then [s[|s| - 1]] else []
  }

  function ResponsesOf(s: seq<Msg>): seq<Msg> {
    if s == [] then []
    else ResponsesOf(s[..|s| - 1]) + if IsCommand(s[|s| - 1]) then [] else [s[|s| - 1]]
  }

  function Commands(s: seq<Msg>): nat { |CommandsOf(s)| }

  function Responses(s: seq<Msg>): nat { |ResponsesOf(s)| }

  /** At most one message, from the head of the queue of its kind. */
  predicate FromQueue(a: Ap, a1: Ap, took: seq<Msg>) {
    if took == [] then a1.cmdQ == a.cmdQ && a1.rspQ == a.rspQ
    else
      |took| == 1 &&
      if IsCommand(took[0])
      then a.cmdQ != [] && took[0] == a.cmdQ[0].msg && a1.cmdQ == a.cmdQ[1..] && a1.rspQ == a.rspQ
      else a.rspQ != [] && took[0] == a.rspQ[0].msg && a1.rspQ == a.rspQ[1..] && a1.cmdQ == a.cmdQ
  }

  function SubNat(n: nat, m: nat): nat { if n >= m then n - m else 0 }

  /** The counters after delivering got and completing done (at most one message each). */
  predicate Counted(a: Ap, a1: Ap, got: seq<Msg>, done: seq<Msg>) {
    a1.lim == a.lim && a1.nTo == a.nTo && a1.inQ == a.inQ + got && a1.inUsed == a.inUsed + |got| &&
    a1.nFrom == SubNat((a.nFrom + Commands(got)) % 256, Responses(done)) &&
    a1.cmdUsed == SubNat(a.cmdUsed, Commands(done)) && a1.rspUsed == SubNat(a.rspUsed, Responses(done))
  }

  lemma OneMessage(m: Msg)
    ensures Commands([m]) == if IsCommand(m) then 1 else 0
    ensures Responses([m]) == if IsCommand(m) then 0 else 1
    ensures Commands([]) == 0 && Responses([]) == 0
    ensures CommandsOf([m]) == (if IsCommand(m) then [m] else [])
    ensures ResponsesOf([m]) == (if IsCommand(m) then [] else [m])
  {
    hide IsCommand;
    assert [m][..0] == [];
    assert CommandsOf([m]) == CommandsOf([]) + if IsCommand(m) then [m] else [];
    assert ResponsesOf([m]) == ResponsesOf([]) + if IsCommand(m) then [] else [m];
  }

  /** At most the telegram sizes and the pending remap differ. */
  predicate Resized(l: Link, l1: Link) {
    l1 == l.(serialRead := l1.serialRead, pdReadLen := l1.pdReadLen, pdWriteLen := l1.pdWriteLen,
             completeRemap := l1.completeRemap)
  }

  lemma ReceivedLinkFacts(l: Link, m: Msg, env: Env)
    ensures Resized(l, ReceivedLink(l, m, env))
  {
    hide IsSetupAck;
  }

  lemma CompletedLinkFacts(l: Link, a: Ap, m: OutMsg)
    ensures Resized(l, CompletedLink(l, a, m))
  {
    hide IsError, Command, WordAt, IsRemapAck, Fragmented;
  }

  /** Delivery of a message the pool has room for: nothing is dropped. */
  lemma ReceivedApFacts(a: Ap, m: Msg, env: Env)
    requires |a.inQ| < a.lim.Inbound() && InboundOk(a) && a.nFrom < 256
    ensures
      var a1 := Enqueue(ReceivedAp(a.(inUsed := a.inUsed + 1), m, env), m);
      Counted(a, a1, [m], []) && InboundOk(a1) && a1.cmdQ == a.cmdQ && a1.rspQ == a.rspQ
  {
    OneMessage(m);
    hide IsError, Command, IsSetupAck, IsCommand, Commands, Responses;
  }

  lemma CompletedApFacts(a: Ap, m: OutMsg)
    requires a.nFrom < 256
    ensures
      var a1 := CompletedAp(a, m);
      Counted(a, a1, [], [m]) && a1.cmdQ == a.cmdQ && a1.rspQ == a.rspQ
  {
    OneMessage(m);
    hide IsError, Command, WordAt, AckLengthValue, IsCommand, Fragmented, Commands, Responses;
  }

  /** A message ends: it is delivered, with room for it. */
  lemma IncomingMessage(d: Drv, env: Env)
    requires !M(d.l.cur) && M(d.l.last) && d.a.inUsed < d.a.lim.Inbound() && InboundOk(d.a) && d.a.nFrom < 256
    ensures
      var (d1, got) := Incoming(d, env);
      got == [MessageIn(d.inBuf)] && d1.inBuf == d.inBuf && d1.l.recFrags == 0 &&
      d1 == d.(l := d1.l, a := d1.a) && Resized(d.l.(recFrags := 0), d1.l) &&
      d1.a.cmdQ == d.a.cmdQ && d1.a.rspQ == d.a.rspQ && Counted(d.a, d1.a, got, []) && InboundOk(d1.a)
  {
    hide MessageIn, M, IsCommand, ReceivedLink, ReceivedAp, StoreFragment, Counted, Resized, Enqueue;
    var m := MessageIn(d.inBuf);
    ReceivedLinkFacts(d.l, m, env);
    ReceivedApFacts(d.a, m, env);
    WithoutFragments(d.l, ReceivedLink(d.l, m, env));
  }

  lemma WithoutFragments(l: Link, l1: Link)
    requires Resized(l, l1)
    ensures Resized(l.(recFrags := 0), l1.(recFrags := 0))
  {
  }

  lemma IncomingFacts(d: Drv, env: Env)
    requires !Blocked(d) && InboundOk(d.a) && d.a.nFrom < 256
    ensures
      var (d1, got) := Incoming(d, env);
      var (rx, more) := Receive(RxSide(d), M(d.l.cur), FragmentOf(d.l.rx));
      got == more && d1.inBuf == rx.buf && d1.l.recFrags == rx.frags && |got| <= 1 &&
      d1 == d.(l := d1.l, a := d1.a, inBuf := d1.inBuf) &&
      Resized(d.l.(recFrags := d1.l.recFrags), d1.l) &&
      d1.a.cmdQ == d.a.cmdQ && d1.a.rspQ == d.a.rspQ && Counted(d.a, d1.a, got, []) && InboundOk(d1.a)
  {
    hide StoreFragment, MessageIn, FragmentOf, M, IsCommand, ReceivedLink, ReceivedAp, Counted, Resized,
      MessageReceived;
    if !M(d.l.cur) && M(d.l.last) {
      IncomingMessage(d, env);
    } else {
      NothingCounted(d.a);
      NotResized(Incoming(d, env).0.l);
    }
  }

  lemma NothingCounted(a: Ap)
    requires a.nFrom < 256
    ensures Counted(a, a, [], [])
  {
    OneMessage(Zeros(HEADER));
  }

  lemma NotResized(l: Link)
    ensures Resized(l, l)
  {
  }

  lemma ResizedThen(l: Link, l1: Link)
    requires Resized(l, l1)
    ensures Resized(l.(st := SEND_WITHOUT_MESSAGE, wr := None), l1.(st := SEND_WITHOUT_MESSAGE, wr := None))
  {
  }

  /** What the sending half decides: state, buffer, and what it completes. */
  lemma OutgoingFinished(d: Drv)
    requires Finished(d.l.wr) && d.a.nFrom < 256
    ensures
      var (d1, done) := Outgoing(d);
      d1 == d.(l := d1.l, a := d1.a) && done == [d.l.wr.value.msg] &&
      Resized(d.l.(last := d.l.cur, st := SEND_WITHOUT_MESSAGE, wr := None), d1.l) &&
      d1.a.cmdQ == d.a.cmdQ && d1.a.rspQ == d.a.rspQ && Counted(d.a, d1.a, [], done)
  {
    hide CompletedLink, CompletedAp, Counted, Resized, FragCount;
    var l := d.l.(last := d.l.cur);
    CompletedLinkFacts(l, d.a, d.l.wr.value.msg);
    ResizedThen(l, CompletedLink(l, d.a, d.l.wr.value.msg));
    CompletedApFacts(d.a, d.l.wr.value.msg);
  }

  lemma TakeCommandFacts(d: Drv)
    requires QueuesOk(d.a) && d.a.cmdQ != []
    ensures
      var d1 := TakeCommand(d);
      var m := d.a.cmdQ[0].msg;
      OnlySelected(d, d1) && FromQueue(d.a, d1.a, [m]) && QueuesOk(d1.a) && IsCommand(m) &&
      d1.l.wr == Some(Buf(m, Abp.FragCount(|m|), 0))
  {
    hide IsCommand, FragCount;
  }

  lemma TakeResponseFacts(d: Drv)
    requires QueuesOk(d.a) && d.a.rspQ != []
    ensures
      var d1 := TakeResponse(d);
      var m := d.a.rspQ[0].msg;
      OnlySelected(d, d1) && FromQueue(d.a, d1.a, [m]) && QueuesOk(d1.a) && !IsCommand(m) &&
      d1.l.wr == Some(Buf(m, Abp.FragCount(|m|), 0))
  {
    hide IsCommand, FragCount;
  }

  /** At most the choice differs: what Select leaves unchanged. */
  predicate OnlySelected(d: Drv, d1: Drv) {
    d1 == d.(l := d.l.(st := d1.l.st, wr := d1.l.wr, lastSentCmd := d1.l.lastSentCmd),
             a := d.a.(cmdQ := d1.a.cmdQ, rspQ := d1.a.rspQ))
  }

  /** Arbitration at the idle state: a message comes from the head of its queue. */
  lemma SelectFacts(d: Drv)
    requires QueuesOk(d.a)
    ensures
      var (d1, took) := Select(d);
      OnlySelected(d, d1) && FromQueue(d.a, d1.a, took) && QueuesOk(d1.a) &&
      (took == [] ==> d1.l.st == SEND_WITHOUT_MESSAGE && d1.l.wr == d.l.wr) &&
      (took != [] ==> d1.l.st == SEND_WITH_MESSAGE && d1.l.wr == Some(Buf(took[0], Abp.FragCount(|took[0]|), 0)))
  {
    hide IsCommand, FragCount, R, OnlySelected, FromQueue, QueuesOk;
    match Choice(d.l, d.a) {
      case PickCommand => TakeCommandFacts(d);
      case PickResponse => TakeResponseFacts(d);
      case PickNothing => NothingSelected(d);
    }
  }

  lemma NothingSelected(d: Drv)
    requires QueuesOk(d.a)
    ensures FromQueue(d.a, d.a, []) && OnlySelected(d, d.(l := d.l.(st := SEND_WITHOUT_MESSAGE)))
  {
  }

  // ---- a whole round ----------------------------------------------------------------------------

  /** A new telegram goes out, well formed and toggled, with the R bit telling of room for a command. */
  ghost predicate Transmits(d: Drv, d1: Drv, out: Out) {
    out.tel == Some(Telegram(d1)) && out.isNew && d1.l.st == WAIT_FOR_TELEGRAM && CrcOk(Telegram(d1)) &&
    Telegram(d1)[0] == d1.l.ctrl && T(d1.l.ctrl) == !T(d.l.ctrl) && R(d1.l.ctrl) == FreeCmdSlots(d1.a) &&
    d1.l.received == d.l.received && d1.l.rx == d.l.rx
  }

  /** Arbitration: a command only on the R bit, the other kind first if both are waiting, and with nothing under way
      never idle while something may be sent. */
  predicate Arbitrates(d: Drv, d1: Drv, took: seq<Msg>) {
    var r := R(d1.l.last);
    if took == [] then
      d1.l.lastSentCmd == d.l.lastSentCmd &&
      (d.l.wr == None ==> d.a.rspQ == [] && (r ==> d.a.cmdQ == []))
    else
      d1.l.lastSentCmd == IsCommand(took[0]) && (IsCommand(took[0]) ==> r) &&
      (r && d.a.cmdQ != [] && d.a.rspQ != [] ==> IsCommand(took[0]) == !d.l.lastSentCmd)
  }

  /** It carries what the sending side has next, taken from the head of a queue if nothing was under way, and the
      queues and counters change accordingly. */
  ghost predicate Round(d: Drv, d1: Drv, out: Out) {
    Transmits(d, d1, out) && Sent(d.l.wr, d1.l.wr, out.took, Telegram(d1)) && WriterOk(d1.l.wr) &&
    QueuesOk(d1.a) && InboundOk(d1.a) && FromQueue(d.a, d1.a, out.took) && Counted(d.a, d1.a, out.got, out.done) &&
    Arbitrates(d, d1, out.took) && out.done == (if Finished(d.l.wr) then [d.l.wr.value.msg] else [])
  }

  /** Sending from the states that do. */
  lemma DispatchRound(d: Drv, env: Env, out: Out)
    requires d.l.st == SEND_WITH_MESSAGE || d.l.st == SEND_WITHOUT_MESSAGE
    requires d.l.st == SEND_WITH_MESSAGE <==> Unfinished(d.l.wr)
    ensures
      var (d1, out1) := Dispatch(d, env, out);
      var tel := Telegram(d1);
      Transmits(d, d1, out1) && OnlySent(d, d1) && out1 == out.(tel := Some(tel), isNew := true) &&
      M(tel[0]) == Unfinished(d.l.wr) &&
      (if Unfinished(d.l.wr)
       then d1.l.wr == Some(d.l.wr.value.(cnt := d.l.wr.value.cnt + 1)) &&
            Carries(tel, d.l.wr.value.msg, d.l.wr.value.cnt)
       else d1.l.wr == d.l.wr)
  {
    hide Send, FragmentAt, FragmentOf, CrcOk, T, M, R, FragCount, FreeCmdSlots;
    SendFacts(d, d.l.st == SEND_WITH_MESSAGE, env);
    SameSlots(d, Send(d, d.l.st == SEND_WITH_MESSAGE, env));
  }

  lemma SameSlots(d: Drv, d1: Drv)
    requires OnlySent(d, d1)
    ensures FreeCmdSlots(d1.a) == FreeCmdSlots(d.a) && d1.l.received == d.l.received && d1.l.rx == d.l.rx
  {
  }

  /** What an idle round leaves alone: everything that belongs to receiving, and the counters. */
  predicate SameInbound(d: Drv, d1: Drv) {
    RxSide(d1) == RxSide(d) && d1.l.last == d.l.last && d1.a.lim == d.a.lim && d1.a.inQ == d.a.inQ &&
    d1.a.inUsed == d.a.inUsed && d1.a.nFrom == d.a.nFrom && d1.a.nTo == d.a.nTo && d1.a.cmdUsed == d.a.cmdUsed &&
    d1.a.rspUsed == d.a.rspUsed
  }

  lemma IdleFrame(d: Drv, d0: Drv, d1: Drv, took: seq<Msg>, out: Out)
    requires OnlySelected(d, d0) && OnlySent(d0, d1) && FromQueue(d.a, d0.a, took) && QueuesOk(d0.a)
    requires Transmits(d0, d1, out) && Arbitrates(d, d0, took)
    ensures SameInbound(d, d1) && FromQueue(d.a, d1.a, took) && QueuesOk(d1.a) && Transmits(d, d1, out)
    ensures Arbitrates(d, d1, took)
  {
    hide CrcOk, T, M, R, FreeCmdSlots, IsCommand;
  }

  lemma FirstFragment(wr1: Option<OutBuf>, took: seq<Msg>, tel: RxTelegram)
    requires |took| <= 1
    requires took == [] ==> wr1 == None && !M(tel[0])
    requires took != [] ==> wr1 == Some(Buf(took[0], Abp.FragCount(|took[0]|), 1)) && Carries(tel, took[0], 0)
    ensures Sent(None, wr1, took, tel) && WriterOk(wr1)
  {
    hide M, Carries;
    if took != [] {
      assert took == [took[0]];
      FragCountBounds(took[0]);
    }
  }

  /** Nothing under way: the choice of the idle state, then its first telegram. */
  lemma IdleRound(d: Drv, env: Env, out: Out)
    requires d.l.wr == None && QueuesOk(d.a) && out.took == []
    ensures
      var (d1, out1) := RunIdle(d, env, out);
      Transmits(d, d1, out1) && Sent(None, d1.l.wr, out1.took, Telegram(d1)) && WriterOk(d1.l.wr) &&
      QueuesOk(d1.a) && FromQueue(d.a, d1.a, out1.took) && out1.got == out.got && out1.done == out.done &&
      SameInbound(d, d1) && Arbitrates(d, d1, out1.took)
  {
    hide Select, Dispatch, Carries, OnlySent, OnlySelected, FromQueue, QueuesOk, SameInbound, Transmits, T, M, R, Sent,
      WriterOk, Arbitrates, Telegram, FragCount, SizesFit, CrcOk;
    var (d0, took) := Select(d);
    SelectFacts(d);
    SelectArbitrates(d);
    AtMostOne(d.a, d0.a, took);
    DispatchFirst(d0, env, out.(took := out.took + took), took);
    var (d1, out1) := Dispatch(d0, env, out.(took := out.took + took));
    IdleFrame(d, d0, d1, took, out1);
    FirstFragment(d1.l.wr, took, Telegram(d1));
    assert out.took + took == took;
  }

  lemma ChoiceFacts(l: Link, a: Ap)
    ensures
      match Choice(l, a)
      case PickCommand => R(l.last) && a.cmdQ != [] && (a.rspQ != [] ==> !l.lastSentCmd)
      case PickResponse => a.rspQ != [] && (R(l.last) && a.cmdQ != [] ==> l.lastSentCmd)
      case PickNothing => a.rspQ == [] && (R(l.last) ==> a.cmdQ == [])
  {
    hide R;
  }

  lemma SelectArbitrates(d: Drv)
    requires QueuesOk(d.a) && d.l.wr == None
    ensures Arbitrates(d, Select(d).0, Select(d).1)
  {
    ChoiceFacts(d.l, d.a);
    hide IsCommand, R, FragCount, Choice;
    match Choice(d.l, d.a) {
      case PickCommand => assert IsCommand(d.a.cmdQ[0].msg);
      case PickResponse => assert !IsCommand(d.a.rspQ[0].msg);
      case PickNothing =>
    }
  }

  lemma AtMostOne(a: Ap, a1: Ap, took: seq<Msg>)
    requires FromQueue(a, a1, took)
    ensures |took| <= 1
  {
  }

  lemma DispatchFirst(d: Drv, env: Env, out: Out, took: seq<Msg>)
    requires |took| <= 1
    requires took == [] ==> d.l.st == SEND_WITHOUT_MESSAGE && d.l.wr == None
    requires took != [] ==> d.l.st == SEND_WITH_MESSAGE && d.l.wr == Some(Buf(took[0], Abp.FragCount(|took[0]|), 0))
    ensures
      var (d1, out1) := Dispatch(d, env, out);
      var tel := Telegram(d1);
      Transmits(d, d1, out1) && OnlySent(d, d1) && out1 == out.(tel := Some(tel), isNew := true) &&
      (took == [] ==> d1.l.wr == None && !M(tel[0])) &&
      (took != [] ==>
        d1.l.wr == Some(Buf(took[0], Abp.FragCount(|took[0]|), 1)) && Carries(tel, took[0], 0))
  {
    hide Dispatch, Carries, OnlySent, Transmits, M;
    if took != [] {
      FragCountBounds(took[0]);
    }
    hide FragCount;
    DispatchRound(d, env, out);
  }

  lemma CountedTwice(a: Ap, a1: Ap, a2: Ap, got: seq<Msg>, done: seq<Msg>)
    requires Counted(a, a1, got, []) && Counted(a1, a2, [], done)
    ensures Counted(a, a2, got, done)
  {
    OneMessage(Zeros(HEADER));
    assert got + [] == got;
  }

  lemma CountedIdle(a: Ap, d: Drv, d1: Drv, got: seq<Msg>, done: seq<Msg>)
    requires Counted(a, d.a, got, done) && SameInbound(d, d1)
    ensures Counted(a, d1.a, got, done)
  {
  }

  lemma CountedSent(a: Ap, d: Drv, d1: Drv, got: seq<Msg>, done: seq<Msg>)
    requires Counted(a, d.a, got, done) && OnlySent(d, d1)
    ensures Counted(a, d1.a, got, done)
    ensures d1.a.cmdQ == d.a.cmdQ && d1.a.rspQ == d.a.rspQ && d1.l.last == d.l.last && RxSide(d1) == RxSide(d)
    ensures d1.l.lastSentCmd == d.l.lastSentCmd
  {
  }

  /** The state between the two halves of processing, and after them. */
  ghost predicate Between(d: Drv, d1: Drv, got: seq<Msg>) {
    (RxSide(d1.(l := d1.l.(last := d.l.cur))), got) == Receive(RxSide(d), M(d.l.cur), FragmentOf(d.l.rx)) &&
    d1.l.wr == d.l.wr && d1.l.ctrl == d.l.ctrl && d1.l.cur == d.l.cur && d1.l.received == d.l.received &&
    d1.l.rx == d.l.rx && d1.l.lastSentCmd == d.l.lastSentCmd &&
    d1.a.cmdQ == d.a.cmdQ && d1.a.rspQ == d.a.rspQ && Counted(d.a, d1.a, got, []) && |got| <= 1 &&
    d1.a.nFrom < 256
  }

  lemma IncomingBetween(d: Drv, env: Env)
    requires !Blocked(d) && InboundOk(d.a) && d.a.nFrom < 256
    ensures Between(d, Incoming(d, env).0, Incoming(d, env).1)
  {
    hide StoreFragment, MessageIn, FragmentOf, M, IsCommand, ReceivedLink, ReceivedAp;
    IncomingFacts(d, env);
    OneMessage(Zeros(HEADER));
  }

  ghost predicate Decided(d: Drv, d2: Drv, got: seq<Msg>, done: seq<Msg>) {
    (RxSide(d2), got) == Receive(RxSide(d), M(d.l.cur), FragmentOf(d.l.rx)) && d2.l.last == d.l.cur &&
    d2.l.ctrl == d.l.ctrl && d2.l.received == d.l.received && d2.l.rx == d.l.rx &&
    d2.l.lastSentCmd == d.l.lastSentCmd &&
    d2.a.cmdQ == d.a.cmdQ && d2.a.rspQ == d.a.rspQ &&
    Counted(d.a, d2.a, got, done) && done == (if Finished(d.l.wr) then [d.l.wr.value.msg] else []) &&
    d2.l.wr == (if Finished(d.l.wr) then None else d.l.wr) &&
    d2.l.st == (if Finished(d.l.wr) then SEND_WITHOUT_MESSAGE
                else if Unfinished(d.l.wr) then SEND_WITH_MESSAGE else IDLE)
  }

  lemma OutgoingDecided(d: Drv, d1: Drv, got: seq<Msg>)
    requires Between(d, d1, got)
    ensures Decided(d, Outgoing(d1).0, got, Outgoing(d1).1)
  {
    hide Receive, M, FragmentOf, CompletedLink, CompletedAp, Counted;
    if Finished(d1.l.wr) {
      OutgoingFinished(d1);
    } else {
      NothingCounted(d1.a);
    }
    CountedTwice(d.a, d1.a, Outgoing(d1).0.a, got, Outgoing(d1).1);
  }

  /** The accepted telegram went through the receiving side. */
  ghost predicate TookIn(d: Drv, d1: Drv, out: Out) {
    (RxSide(d1), out.got) == Receive(RxSide(d), M(d.l.cur), FragmentOf(d.l.rx)) && d1.l.last == d.l.cur
  }

  lemma InboundCounted(a: Ap, a1: Ap, got: seq<Msg>, done: seq<Msg>)
    requires InboundOk(a) && Counted(a, a1, got, done)
    ensures InboundOk(a1)
  {
  }

  /** After the decision: from the idle state. */
  lemma RoundFromIdle(d: Drv, d2: Drv, env: Env, got: seq<Msg>, done: seq<Msg>)
    requires Decided(d, d2, got, done) && QueuesOk(d.a) && InboundOk(d.a) && d.l.wr == None
    ensures
      var (d3, out) := RunIdle(d2, env, QUIET.(got := got, done := done));
      Round(d, d3, out) && TookIn(d, d3, out)
  {
    var out0 := QUIET.(got := got, done := done);
    assert QueuesOk(d2.a) by { SameQueues(d.a, d2.a); }
    IdleRound(d2, env, out0);
    var (d3, out) := RunIdle(d2, env, out0);
    CountedIdle(d.a, d2, d3, got, done);
    InboundCounted(d.a, d3.a, got, done);
    TransmitsFrom(d, d2, d3, out);
    FromSameQueues(d.a, d2.a, d3.a, out.took);
    ArbitratesFrom(d, d2, d3, out.took);
    hide RunIdle, Arbitrates, Transmits, Counted, QueuesOk, InboundOk, FromQueue, Receive, FragmentOf, M, Sent;
  }

  lemma SameQueues(a: Ap, a1: Ap)
    requires QueuesOk(a) && a1.cmdQ == a.cmdQ && a1.rspQ == a.rspQ
    ensures QueuesOk(a1)
  {
  }

  lemma FromSameQueues(a: Ap, a1: Ap, a2: Ap, took: seq<Msg>)
    requires FromQueue(a1, a2, took) && a1.cmdQ == a.cmdQ && a1.rspQ == a.rspQ
    ensures FromQueue(a, a2, took)
  {
  }

  lemma ArbitratesFrom(d: Drv, d2: Drv, d3: Drv, took: seq<Msg>)
    requires Arbitrates(d2, d3, took) && d2.l.lastSentCmd == d.l.lastSentCmd && d2.l.wr == d.l.wr
    requires d2.a.cmdQ == d.a.cmdQ && d2.a.rspQ == d.a.rspQ
    ensures Arbitrates(d, d3, took)
  {
    hide R, IsCommand;
  }

  lemma TransmitsFrom(d: Drv, d2: Drv, d3: Drv, out: Out)
    requires Transmits(d2, d3, out) && d2.l.ctrl == d.l.ctrl && d2.l.received == d.l.received && d2.l.rx == d.l.rx
    ensures Transmits(d, d3, out)
  {
    hide CrcOk, T, R, FreeCmdSlots;
  }

  /** After the decision: a message is under way or has just ended. */
  lemma RoundFromMessage(d: Drv, d2: Drv, env: Env, got: seq<Msg>, done: seq<Msg>)
    requires Decided(d, d2, got, done) && QueuesOk(d.a) && InboundOk(d.a) && d.l.wr.Some? && WriterOk(d.l.wr)
    ensures
      var (d3, out) := Dispatch(d2, env, QUIET.(got := got, done := done));
      Round(d, d3, out) && TookIn(d, d3, out)
  {
    var out0 := QUIET.(got := got, done := done);
    hide FragCount, T, R, M, CrcOk, Dispatch, OnlySent, Transmits, Counted, QueuesOk, InboundOk, Receive, FragmentOf,
      Carries;
    DispatchRound(d2, env, out0);
    var (d3, out) := Dispatch(d2, env, out0);
    CountedSent(d.a, d2, d3, got, done);
    InboundCounted(d.a, d3.a, got, done);
    TransmitsFrom(d, d2, d3, out);
    SameQueues(d.a, d3.a);
  }

  lemma RunProcessParts(d: Drv, env: Env)
    requires !Blocked(d)
    ensures
      var (d1, got) := Incoming(d, env);
      var (d2, done) := Outgoing(d1);
      var out0 := QUIET.(got := got, done := done);
      RunProcess(d, env, QUIET) == if d2.l.st == IDLE then RunIdle(d2, env, out0) else Dispatch(d2, env, out0)
  {
    hide Incoming, Outgoing, RunIdle, Dispatch, Blocked;
    var (d1, got) := Incoming(d, env);
    var (d2, done) := Outgoing(d1);
    assert QUIET.(got := [] + got, done := [] + done) == QUIET.(got := got, done := done);
  }

  /** One telegram processed: in through the receiving side, out with what the sending side has next. */
  lemma ProcessRound(d: Drv, env: Env)
    requires !Blocked(d) && WriterOk(d.l.wr) && QueuesOk(d.a) && InboundOk(d.a) && d.a.nFrom < 256
    ensures
      var (d1, out) := RunProcess(d, env, QUIET);
      Round(d, d1, out) && TookIn(d, d1, out)
  {
    hide Incoming, Outgoing, Between, RunIdle, Dispatch, Round, TookIn, QueuesOk, InboundOk, Receive, Counted, Blocked,
      M, FragmentOf, RunProcess, FragCount;
    RunProcessParts(d, env);
    var (d1, got) := Incoming(d, env);
    IncomingBetween(d, env);
    var (d2, done) := Outgoing(d1);
    OutgoingDecided(d, d1, got);
    if d.l.wr == None {
      RoundFromIdle(d, d2, env, got, done);
    } else {
      RoundFromMessage(d, d2, env, got, done);
    }
  }

  // ---- retransmission ---------------------------------------------------------------------------

  /** A timeout sends the same bytes again; no fragment counter, toggle bit, queue or buffer moves. */
  lemma Retransmits(d: Drv)
    requires d.l.st == WAIT_FOR_TELEGRAM
    ensures
      var (d1, out) := RunTimeouts(d, QUIET);
      d1 == d.(l := d.l.(telegramTo := d1.l.telegramTo, wdTo := d1.l.wdTo, wdOccurred := d1.l.wdOccurred)) &&
      (out == QUIET || out == QUIET.(tel := Some(Telegram(d))))
    ensures RunTimeouts(d, QUIET).1.tel.Some? <==> d.l.telegramTo || d.l.wdTo
  {
    hide Telegram, FragCount, SizesFit;
  }
}

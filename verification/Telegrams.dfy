/** The telegrams in terms of their bytes: what a new one holds, what is accepted, and what each timeout sends. */
module Telegrams {
  import opened Abp
  import opened Options
  import opened DriverSpec
  import opened Rounds
  import opened ExactlyOnce
  import opened ProcessData
  import opened Sizes
  import Crc

  // ---- a new telegram ---------------------------------------------------------------------------

  /** The control byte: T turned over, M and R as told, the five low bits kept. */
  predicate Turned(b: bv8, before: bv8, withMessage: bool, withRoom: bool) {
    b & 0x80 != before & 0x80 && (b & 0x40 == 0x40 <==> withMessage) && (b & 0x20 == 0x20 <==> withRoom) &&
    b & 0x1F == before & 0x1F
  }

  lemma BitsTurned(before: bv8, withMessage: bool, withRoom: bool)
    ensures Turned(ToggleT(WithR(WithM(before, withMessage), withRoom)), before, withMessage, withRoom)
  {
  }

  /** Sixteen bytes of a message from position i on; behind its end, whatever the memory holds. */
  predicate PartOfMessage(field: Bytes, m: Msg, i: nat, pad: Frag) {
    |field| == 16 && forall j :: 0 <= j < 16 ==>
      field[j] == if i + j < |m| then m[i + j] else if i + j - |m| < 16 then pad[i + j - |m|] else 0
  }

  predicate NoMessage(field: Bytes) { |field| == 16 && forall j :: 0 <= j < 16 ==> field[j] == 0 }

  lemma FragmentIsPart(m: Msg, i: nat, pad: Frag)
    requires i < FragCount(|m|)
    ensures PartOfMessage(FragmentAt(m, i, pad), m, 16 * i, pad)
  {
    FragCountBounds(m);
    assert FragmentAt(m, i, pad) == (m + pad)[16 * i..16 * i + 16];
  }

  function High(crc: bv16): bv8 { ((crc >> 8) & 0x00FF) as bv8 }

  function Low(crc: bv16): bv8 { (crc & 0x00FF) as bv8 }

  /** The last two bytes are the checksum of those before them, high byte first. */
  predicate Closed(tel: Bytes) {
    var n := |tel| - 2;
    n >= 17 && tel[n] == High(Crc.Reference(tel[..n])) && tel[n + 1] == Low(Crc.Reference(tel[..n]))
  }

  lemma HighLow(crc: bv16, high: bv8, low: bv8)
    ensures crc == Crc.Word(high, low) <==> high == High(crc) && low == Low(crc)
  {
    SplitWord(crc);
    WordSplits(high, low);
    hide Crc.Word;
  }

  lemma ClosedIsCrcOk(tel: Bytes)
    requires |tel| >= OVERHEAD
    ensures CrcOk(tel) <==> Closed(tel)
  {
    HighLow(Crc.Reference(tel[..|tel| - 2]), tel[|tel| - 2], tel[|tel| - 1]);
    hide Crc.Word, Crc.Reference, High, Low;
  }

  /** Whether the module may send one more command: fewer are open than it is allowed, and there is a place for it. */
  predicate CommandWelcome(a: Ap) { a.nFrom < a.lim.abcc && |a.inQ| < a.lim.abcc + a.lim.appl }

  /** Whether the application's newest data goes into the telegram. */
  predicate DataDue(a: Ap) { a.state == IN_RUN && !a.remapWrite && a.newPd }

  /** A telegram with a message has a fragment of it left to send. */
  predicate HasSomething(l: Link, withMessage: bool) { withMessage ==> Unfinished(l.wr) }

  /** The bytes of a new telegram built from d: control byte, message field, process data, checksum. */
  predicate BuiltFrom(d: Drv, withMessage: bool, pad: Frag, tel: Bytes)
    requires HasSomething(d.l, withMessage)
  {
    var len: int := d.l.pdWriteLen;
    |tel| == len + 19 && Turned(tel[0], d.l.ctrl, withMessage, CommandWelcome(d.a)) &&
    (if withMessage then PartOfMessage(tel[1..17], d.l.wr.value.msg, 16 * d.l.wr.value.cnt, pad)
     else NoMessage(tel[1..17])) &&
    tel[17..17 + len] == (if DataDue(d.a) then d.writeData[..len] else d.tx[17..17 + len]) &&
    Closed(tel)
  }

  /** A new telegram, byte by byte. The flag of new process data is cleared exactly if data went out. */
  lemma NewTelegram(d: Drv, withMessage: bool, env: Env)
    requires HasSomething(d.l, withMessage)
    ensures
      var d1 := Send(d, withMessage, env);
      BuiltFrom(d, withMessage, env.pad, Telegram(d1)) &&
      d1.a.newPd == (d.a.newPd && !(DataDue(d.a) && d.l.pdWriteLen > 0))
  {
    hide Send, Headed, PutProcessData, Seal, Telegram, PdField, CrcOk, CrcBytes, FragmentOf, Closed, Turned,
      PartOfMessage, NoMessage;
    SendParts(d, withMessage, env);
    HeadedArea(d, withMessage, env);
    var d3 := Headed(d, withMessage, env);
    HeadBytes(d, withMessage, env);
    PutProcessDataFacts(d3);
    DataBytes(d3);
    var d4 := PutProcessData(d3);
    SealFacts(d4);
    SealCoherent(d4);
    SameState(Seal(d4));
    ClosedIsCrcOk(Telegram(Seal(d4)));
    FieldsAre(Telegram(Seal(d4)), d4);
    HeadedFrame(d, withMessage, env);
  }

  lemma SendInBytes(d: Drv, withMessage: bool, env: Env)
    ensures HasSomething(d.l, withMessage) ==>
      BuiltFrom(d, withMessage, env.pad, Telegram(Send(d, withMessage, env)))
  {
    if HasSomething(d.l, withMessage) {
      NewTelegram(d, withMessage, env);
    }
  }

  /** Where the fields of a telegram lie. */
  lemma FieldsAre(tel: RxTelegram, d: Drv)
    requires tel == d.tx[..17 + d.l.pdWriteLen] + CrcBytes(d.tx[..17 + d.l.pdWriteLen])
    ensures |tel| == d.l.pdWriteLen + 19 && tel[0] == d.tx[0] && tel[1..17] == d.tx[1..17]
    ensures tel[17..17 + d.l.pdWriteLen] == Area(d)
  {
    hide CrcBytes;
  }

  lemma HeadBytes(d: Drv, withMessage: bool, env: Env)
    requires withMessage ==> d.l.wr.Some? && d.l.wr.value.cnt < d.l.wr.value.nFrags
    ensures
      var tx := Headed(d, withMessage, env).tx;
      Turned(tx[0], d.l.ctrl, withMessage, CommandWelcome(d.a)) &&
      if withMessage then PartOfMessage(tx[1..17], d.l.wr.value.msg, 16 * d.l.wr.value.cnt, env.pad)
      else NoMessage(tx[1..17])
  {
    hide ToggleT, WithR, WithM, T, M, R, Turned, PartOfMessage, FragmentAt, FragCount, SizesFit;
    assert FreeCmdSlots(d.a) == CommandWelcome(d.a);
    hide FreeCmdSlots, CommandWelcome;
    var ctrl := ToggleT(WithR(WithM(d.l.ctrl, withMessage), FreeCmdSlots(d.a)));
    BitsTurned(d.l.ctrl, withMessage, FreeCmdSlots(d.a));
    if withMessage {
      var d1 := d.(l := d.l.(ctrl := ctrl));
      HeadOfBuild(d1, env);
      FragmentIsPart(d.l.wr.value.msg, d.l.wr.value.cnt, env.pad);
    } else {
      var cleared := Splice(d.tx, 1, Zeros(FRAG));
      forall j | 0 <= j < 17
        ensures Splice(cleared, 0, [ctrl])[j] == if j == 0 then ctrl else 0
      {
        SpliceAt(cleared, 0, [ctrl], j);
        SpliceAt(d.tx, 1, Zeros(FRAG), j);
      }
    }
  }

  lemma DataBytes(d: Drv)
    ensures
      var d1 := PutProcessData(d);
      Area(d1) == (if DataDue(d.a) then d.writeData[..d.l.pdWriteLen] else Area(d)) &&
      d1.a.newPd == (d.a.newPd && !(DataDue(d.a) && d.l.pdWriteLen > 0))
  {
    hide Splice;
    if d.l.pdWriteLen == 0 {
      assert d.writeData[..0] == Area(d);
    }
  }

  // ---- what is accepted -------------------------------------------------------------------------

  /** A telegram of the expected length, with the T bit turned over and a checksum that fits. */
  predicate Fitting(l: Link) {
    |l.rx| == l.serialRead && l.rx[0] & 0x80 != l.last & 0x80 && Closed(l.rx)
  }

  lemma Toggled(a: bv8, b: bv8)
    ensures T(a) != T(b) <==> a & 0x80 != b & 0x80
  {
  }

  lemma AcceptsFitting(l: Link)
    ensures Accepts(l) <==> Fitting(l)
  {
    Toggled(l.rx[0], l.last);
    ClosedIsCrcOk(l.rx);
    hide T, CrcOk, Closed;
  }

  // ---- timeouts ---------------------------------------------------------------------------------

  /** What the timers and the line have reported and the driver has not yet dealt with, and whether the module counts as
      lost. */
  datatype Reports = Reports(telegram: bool, watchdog: bool, arrived: bool, lost: bool)

  function ReportsOf(l: Link): Reports { Reports(l.telegramTo, l.wdTo, l.received, l.wdOccurred) }

  lemma IncomingReports(d: Drv, env: Env)
    requires !Blocked(d)
    ensures ReportsOf(Incoming(d, env).0.l) == ReportsOf(d.l)
  {
    hide StoreFragment, MessageIn, FragmentOf, M, ReceivedLink, Blocked;
    ReceivedLinkFacts(d.l, MessageIn(d.inBuf), env);
  }

  lemma OutgoingReports(d: Drv)
    ensures ReportsOf(Outgoing(d).0.l) == ReportsOf(d.l)
  {
    hide CompletedLink, CompletedAp, FragCount, SizesFit;
    if Finished(d.l.wr) {
      CompletedLinkFacts(d.l.(last := d.l.cur), d.a, d.l.wr.value.msg);
    }
  }

  lemma SelectReports(d: Drv)
    ensures ReportsOf(Select(d).0.l) == ReportsOf(d.l)
  {
    hide Choice, FragCount, SizesFit, Fragmented, WellFormed;
    match Choice(d.l, d.a) {
      case PickCommand =>
      case PickResponse =>
      case PickNothing =>
    }
  }

  lemma SendReports(d: Drv, withMessage: bool, env: Env)
    ensures ReportsOf(Send(d, withMessage, env).l) == ReportsOf(d.l)
  {
    SendFrame(d, withMessage, env);
    hide Send;
  }

  lemma IdleReports(d: Drv, env: Env, out: Out)
    ensures ReportsOf(RunIdle(d, env, out).0.l) == ReportsOf(d.l)
    ensures RunIdle(d, env, out).1.tel.Some? && RunIdle(d, env, out).1.isNew
  {
    hide Send, Select, Telegram, ReportsOf;
    SelectReports(d);
    var d1 := Select(d).0;
    SendReports(d1, d1.l.st == SEND_WITH_MESSAGE, env);
  }

  lemma ProcessReports(d: Drv, env: Env)
    requires !Blocked(d)
    ensures ReportsOf(RunProcess(d, env, QUIET).0.l) == ReportsOf(d.l)
    ensures RunProcess(d, env, QUIET).1.tel.Some? && RunProcess(d, env, QUIET).1.isNew
  {
    hide RunProcess, RunIdle, Incoming, Outgoing, Send, Blocked, ReportsOf;
    RunProcessParts(d, env);
    IncomingReports(d, env);
    var (d1, got) := Incoming(d, env);
    OutgoingReports(d1);
    var (d2, done) := Outgoing(d1);
    IdleReports(d2, env, QUIET.(got := got, done := done));
    SendReports(d2, d2.l.st == SEND_WITH_MESSAGE, env);
  }

  /** A message of the module ends with this telegram, and no buffer is left for it. */
  predicate HeldUp(d: Drv) {
    d.l.rx[0] & 0x40 == 0 && d.l.last & 0x40 == 0x40 && d.a.inUsed >= d.a.lim.abcc + d.a.lim.appl
  }

  lemma MBit(b: bv8)
    ensures M(b) <==> b & 0x40 == 0x40
    ensures M(b) <==> b & 0x40 != 0
  {
  }

  lemma HeldUpIsBlocked(d: Drv)
    ensures HeldUp(d) <==> Blocked(Accept(d))
  {
    MBit(d.l.rx[0]);
    MBit(d.l.last);
    hide M, FragCount, SizesFit;
  }

  /** A run that waits for the answer sends a new telegram if and only if a fitting answer has arrived and is not held
      up by a lack of buffers; nothing reported is then left over, and the module does not count as lost. Otherwise it
      sends the last telegram again, unchanged, if and only if a timeout was reported; each report is good for one
      telegram; and the module counts as lost from the watchdog's on. */
  lemma WhatIsSent(d: Drv, env: Env)
    requires d.l.st == WAIT_FOR_TELEGRAM
    ensures
      var (d1, out) := Run(d, env, QUIET);
      var l := d.l;
      if l.received && Fitting(l) then
        ReportsOf(d1.l) == Reports(false, false, false, false) &&
        (if HeldUp(d) then out == QUIET else out.tel.Some? && out.isNew)
      else
        out == QUIET.(tel := if l.telegramTo || l.wdTo then Some(d.tx[..l.serialWrite]) else None) &&
        ReportsOf(d1.l) ==
          Reports(false, l.wdTo && l.telegramTo, false, l.wdOccurred || (l.wdTo && !l.telegramTo)) &&
        d1.tx == d.tx && d1.a == d.a && d1.l.st == WAIT_FOR_TELEGRAM
  {
    AcceptsFitting(d.l);
    HeldUpIsBlocked(d);
    hide HeldUp, Fitting, Accepts, RunProcess, Blocked, CrcOk, T, FragCount, SizesFit;
    if d.l.received && Accepts(d.l) {
      AcceptState(d);
      AcceptedReports(d);
      hide Accept;
      if Blocked(Accept(d)) {
        BlockedReturns(Accept(d), env);
      } else {
        ProcessReports(Accept(d), env);
      }
    }
  }

  lemma AcceptedReports(d: Drv)
    ensures ReportsOf(Accept(d).l) == Reports(false, false, false, false)
  {
  }

  /** A reported timeout makes the very next run send the last telegram again, once: the run after that is silent. */
  lemma OneTelegramPerTimeout(d: Drv, env: Env, env1: Env, telegram: bool)
    requires d.l.st == WAIT_FOR_TELEGRAM && ReportsOf(d.l).(lost := false) == Reports(false, false, false, false)
    ensures
      var (d1, out1) := Run(Timeouts(d, telegram, !telegram, false), env, QUIET);
      var (d2, out2) := Run(d1, env1, QUIET);
      out1 == QUIET.(tel := Some(d.tx[..d.l.serialWrite])) && out2 == QUIET && d2 == d1 &&
      d1 == d.(l := d.l.(wdOccurred := d.l.wdOccurred || !telegram))
  {
    hide FragCount, SizesFit;
  }

  // ---- the first telegram -----------------------------------------------------------------------

  /** The driver begins in the configuration; it says nothing until the handshake timer has run out. Its first telegram
      then holds the control byte T and R, no message and no process data. */
  lemma FirstTelegram(lim: Limits, env: Env, env1: Env, env2: Env)
    requires lim.Valid()
    ensures
      var (d1, out1) := Run(Initial(lim), env, QUIET);
      var (d2, out2) := Run(d1, env1, QUIET);
      var (d3, out3) := Run(Timeouts(d2, false, false, true), env2, QUIET);
      d1.a.state == IN_CONFIGURATION && out1 == QUIET && out2 == QUIET && out3.tel.Some? && out3.isNew &&
      |out3.tel.value| == 19 && out3.tel.value[0] == 0xA0 && NoMessage(out3.tel.value[1..17]) &&
      Closed(out3.tel.value)
  {
    var d := Timeouts(Initial(lim).(l := DoInit(Initial(lim).l)), false, false, true);
    var d0 := d.(l := d.l.(st := SEND_WITHOUT_MESSAGE));
    NewTelegram(d0, false, env2);
    FirstBits(Telegram(Send(d0, false, env2))[0]);
    hide Send, Closed, T, M, R, FragCount, SizesFit;
    assert Choice(d.l.(st := IDLE), d.a) == PickNothing;
  }

  lemma FirstBits(b: bv8)
    requires Turned(b, 0, false, true)
    ensures b == 0xA0
  {
  }
}

/** Exactly-once, in-order transfer in both directions, whatever the line does: the invariant of the toggle protocol
    with its fragments, and the theorem that in every run what one side delivered is a prefix of what the other side
    took from its queues. */
module ExactlyOnce {
  import opened Abp
  import opened Options
  import opened DriverSpec
  import opened Fragments
  import opened Rounds
  import opened LinkSystem

  // ---- the line ---------------------------------------------------------------------------------

  /** What an undamaged telegram on the line tells: its T bit is the parity of its round, and one of the newest round
      is the newest telegram. */
  predicate ItemOk(x: Item, lo: nat, hi: nat, top: RxTelegram) {
    lo <= x.idx <= hi &&
    (CrcOk(x.tel) ==> T(x.tel[0]) == Odd(x.idx) && (x.idx == hi ==> x.tel == top))
  }

  ghost predicate ChannelOk(ch: seq<Item>, lo: nat, hi: nat, top: RxTelegram) {
    (forall i :: 0 <= i < |ch| ==> ItemOk(ch[i], lo, hi, top)) &&
    (forall i, j :: 0 <= i < j < |ch| ==> ch[i].idx <= ch[j].idx)
  }

  lemma LossKeepsChannel(ch: seq<Item>, i: nat, lo: nat, hi: nat, top: RxTelegram)
    requires ChannelOk(ch, lo, hi, top) && i < |ch|
    ensures ChannelOk(ch[..i] + ch[i + 1..], lo, hi, top)
  {
    hide ItemOk;
    var ch' := ch[..i] + ch[i + 1..];
    assert forall j :: 0 <= j < |ch'| ==> ch'[j] == ch[if j < i then j else j + 1];
  }

  lemma RepeatKeepsChannel(ch: seq<Item>, i: nat, lo: nat, hi: nat, top: RxTelegram)
    requires ChannelOk(ch, lo, hi, top) && i < |ch|
    ensures ChannelOk(ch[..i] + [ch[i]] + ch[i..], lo, hi, top)
  {
    hide ItemOk;
    var ch' := ch[..i] + [ch[i]] + ch[i..];
    assert forall j :: 0 <= j < |ch'| ==> ch'[j] == ch[if j <= i then j else j - 1];
  }

  lemma DamageKeepsChannel(ch: seq<Item>, i: nat, bad: RxTelegram, lo: nat, hi: nat, top: RxTelegram)
    requires ChannelOk(ch, lo, hi, top) && i < |ch| && !CrcOk(bad)
    ensures ChannelOk(ch[i := Item(ch[i].idx, bad)], lo, hi, top)
  {
    hide CrcOk, T, Odd;
  }

  lemma FaultsKeepChannel(ch: seq<Item>, ch': seq<Item>, lo: nat, hi: nat, top: RxTelegram)
    requires ChannelOk(ch, lo, hi, top) && Faulty(ch, ch')
    ensures ChannelOk(ch', lo, hi, top)
  {
    hide CrcOk, ChannelOk;
    var i: nat :| i < |ch| && FaultAt(ch, ch', i);
    if ch' == ch[..i] + ch[i + 1..] {
      LossKeepsChannel(ch, i, lo, hi, top);
    } else if ch' == ch[..i] + [ch[i]] + ch[i..] {
      RepeatKeepsChannel(ch, i, lo, hi, top);
    } else {
      var bad: RxTelegram :| !CrcOk(bad) && ch' == ch[i := Item(ch[i].idx, bad)];
      DamageKeepsChannel(ch, i, bad, lo, hi, top);
    }
  }

  /** The rest of the line after its head is taken; past a telegram of the newest round nothing older follows. */
  lemma TailOk(ch: seq<Item>, lo: nat, hi: nat, top: RxTelegram)
    requires ChannelOk(ch, lo, hi, top) && ch != []
    ensures ChannelOk(ch[1..], lo, hi, top)
    ensures ch[0].idx == hi ==> ChannelOk(ch[1..], hi, hi, top)
  {
    hide CrcOk, T, Odd;
  }

  /** The first telegram of a new round joins the line. */
  lemma AppendNewRound(ch: seq<Item>, n: nat, prev: RxTelegram, tel: RxTelegram)
    requires ChannelOk(ch, n, n, prev) && (CrcOk(tel) ==> T(tel[0]) == Odd(n + 1))
    ensures ChannelOk(ch + [Item(n + 1, tel)], n, n + 1, tel)
  {
    hide CrcOk, T, Odd;
  }

  /** Another copy of the newest telegram joins the line. */
  lemma AppendAgain(ch: seq<Item>, lo: nat, hi: nat, top: RxTelegram)
    requires ChannelOk(ch, lo, hi, top) && lo <= hi && (CrcOk(top) ==> T(top[0]) == Odd(hi))
    ensures ChannelOk(ch + [Item(hi, top)], lo, hi, top)
  {
    hide CrcOk, T, Odd;
  }

  // ---- the invariant ----------------------------------------------------------------------------

  /** The telegrams on their way to the driver, the one waiting in its reception buffer first. */
  function Arriving(s: Sys): seq<Item> {
    if s.d.l.received then [Item(s.rxIdx, s.d.l.rx)] + s.toDrv else s.toDrv
  }

  /** Before the first telegram. */
  predicate Starting(s: Sys) {
    (s.d.l.st == INIT || s.d.l.st == INITIAL_HANDSHAKE) && s.n == 0 && s.k == 0 && s.m == 0 && s.d.l.ctrl == 0 &&
    s.d.l.last == 0 && s.d.l.wr == None && s.d.l.recFrags == 0 && s.toPeer == [] && s.toDrv == [] &&
    !s.d.l.received && !s.d.l.lastSentCmd
  }

  /** Telegram n is out and its answer not yet processed; a blocked driver keeps the accepted answer's bits. */
  predicate Exchanging(s: Sys) {
    s.n == s.m + 1 && s.m <= s.k <= s.n && CrcOk(Telegram(s.d)) && Telegram(s.d)[0] == s.d.l.ctrl &&
    (s.d.l.st == WAIT_FOR_TELEGRAM ||
     (s.d.l.st == PROCESS_TELEGRAM && s.k == s.n && !M(s.d.l.cur) && M(s.d.l.last) && s.d.l.cur == s.p.reply[0]))
  }

  /** The toggle bits are the parities of the round counters. */
  predicate Parities(s: Sys) {
    T(s.d.l.ctrl) == Odd(s.n) && T(s.d.l.last) == Odd(s.m) && s.p.lastT == Odd(s.k) && T(s.p.reply[0]) == Odd(s.k)
  }

  /** The oldest answer that may still arrive: none older than an accepted one. */
  function Oldest(s: Sys): nat { if s.d.l.st == PROCESS_TELEGRAM then s.k else s.m }

  ghost predicate Lines(s: Sys) {
    ChannelOk(s.toPeer, s.k, s.n, Telegram(s.d)) && ChannelOk(Arriving(s), Oldest(s), s.k, s.p.reply)
  }

  /** Driver to module: in step as soon as the module has taken in the newest telegram. */
  predicate Forward(s: Sys) {
    var tel := Telegram(s.d);
    if s.k == s.n then Synced(s.d.l.wr, M(s.d.l.ctrl), s.log.took, s.p.rx, s.log.pgot)
    else
      var (rx, more) := Receive(s.p.rx, M(tel[0]), FragmentOf(tel));
      Synced(s.d.l.wr, M(s.d.l.ctrl), s.log.took, rx, s.log.pgot + more)
  }

  /** Module to driver: in step as soon as the driver has processed the newest answer. */
  predicate Backward(s: Sys) {
    if s.k == s.m then Synced(s.p.wr, M(s.p.reply[0]), s.log.ptook, RxSide(s.d), s.log.got)
    else
      var (rx, more) := Receive(RxSide(s.d), M(s.p.reply[0]), FragmentOf(s.p.reply));
      Synced(s.p.wr, M(s.p.reply[0]), s.log.ptook, rx, s.log.got + more)
  }

  /** The driver's buffers and queues are in order, and what it took it completed, but for the message under way. */
  predicate Orderly(s: Sys) {
    WriterOk(s.d.l.wr) && QueuesOk(s.d.a) && InboundOk(s.d.a) && s.d.a.nFrom < 256 && s.d.a.lim.Valid() &&
    s.log.took == s.log.done + (if s.d.l.wr.Some? then [s.d.l.wr.value.msg] else [])
  }

  ghost predicate Inv(s: Sys) {
    (Starting(s) || Exchanging(s)) && Parities(s) && Lines(s) && Forward(s) && Backward(s) && Orderly(s)
  }

  lemma InitInv(s: Sys)
    requires Init(s)
    ensures Inv(s)
  {
    hide CrcOk;
    var lim: Limits :| lim.Valid() && s.d == Initial(lim);
  }

  // ---- steps outside the link machine -----------------------------------------------------------

  /** What the protocol part of the invariant depends on, apart from the line and the flags. */
  predicate SameEnds(s: Sys, s': Sys) {
    s'.d.l.st == s.d.l.st && s'.d.l.ctrl == s.d.l.ctrl && s'.d.l.cur == s.d.l.cur && s'.d.l.last == s.d.l.last &&
    s'.d.l.wr == s.d.l.wr && s'.d.l.lastSentCmd == s.d.l.lastSentCmd &&
    s'.d.l.recFrags == s.d.l.recFrags && s'.d.l.serialWrite == s.d.l.serialWrite &&
    s'.d.tx == s.d.tx && s'.d.inBuf == s.d.inBuf && s'.p == s.p && s'.n == s.n && s'.k == s.k && s'.m == s.m &&
    s'.log.took == s.log.took && s'.log.done == s.log.done && s'.log.got == s.log.got &&
    s'.log.ptook == s.log.ptook && s'.log.pgot == s.log.pgot
  }

  lemma SameEndsKeep(s: Sys, s': Sys)
    requires Inv(s) && SameEnds(s, s') && Lines(s') && Orderly(s')
    requires Starting(s) ==> s'.toPeer == [] && s'.toDrv == [] && !s'.d.l.received
    ensures Inv(s')
  {
    assert Telegram(s'.d) == Telegram(s.d) && RxSide(s'.d) == RxSide(s.d);
    hide CrcOk, T, M, Odd, Synced, Receive, FragmentOf, Telegram, Lines, Orderly, RxSide;
  }

  lemma TimeoutKeeps(s: Sys, s': Sys, t: bool, w: bool, h: bool)
    requires Inv(s) && TimeoutStep(s, s', t, w, h)
    ensures Inv(s')
  {
    assert Telegram(s'.d) == Telegram(s.d) && Arriving(s') == Arriving(s);
    hide CrcOk, T, M, Odd, Synced, Receive, FragmentOf, Telegram, ChannelOk, QueuesOk, InboundOk, WriterOk, RxSide,
      Forward, Backward;
    SameEndsKeep(s, s');
  }

  lemma DeliverKeeps(s: Sys, s': Sys)
    requires Inv(s) && DeliverStep(s, s')
    ensures Inv(s')
  {
    var next := [Item(s'.rxIdx, s'.d.l.rx)] + s'.toDrv;
    assert next == s.toDrv;
    if s.d.l.received {
      TailOk(Arriving(s), Oldest(s), s.k, s.p.reply);
      assert Arriving(s)[1..] == next;
    }
    assert Telegram(s'.d) == Telegram(s.d);
    hide CrcOk, T, M, Odd, Synced, Receive, FragmentOf, Telegram, ChannelOk, QueuesOk, InboundOk, WriterOk, RxSide,
      Forward, Backward;
    SameEndsKeep(s, s');
  }

  /** A fault behind the telegram already received is a fault on the whole way. */
  lemma FaultBehind(x: Item, ch: seq<Item>, ch': seq<Item>)
    requires Faulty(ch, ch')
    ensures Faulty([x] + ch, [x] + ch')
  {
    hide CrcOk;
    var i: nat :| i < |ch| && FaultAt(ch, ch', i);
    Shifted(x, ch, i);
    var full, full' := [x] + ch, [x] + ch';
    if ch' == ch[..i] + ch[i + 1..] {
      assert full' == full[..i + 1] + full[i + 2..];
    } else if ch' == ch[..i] + [ch[i]] + ch[i..] {
      assert full' == full[..i + 1] + [full[i + 1]] + full[i + 1..];
    } else {
      var bad: RxTelegram :| !CrcOk(bad) && ch' == ch[i := Item(ch[i].idx, bad)];
      assert full' == full[i + 1 := Item(full[i + 1].idx, bad)];
    }
    assert FaultAt(full, full', i + 1);
  }

  lemma Shifted(x: Item, ch: seq<Item>, i: nat)
    requires i < |ch|
    ensures
      var full := [x] + ch;
      full[..i + 1] == [x] + ch[..i] && full[i + 2..] == ch[i + 1..] && full[i + 1..] == ch[i..] && full[i + 1] == ch[i]
  {
  }

  lemma FaultKeeps(s: Sys, s': Sys)
    requires Inv(s) && FaultStep(s, s')
    ensures Inv(s')
  {
    assert Telegram(s'.d) == Telegram(s.d);
    if Faulty(s.toPeer, s'.toPeer) && s' == s.(toPeer := s'.toPeer) {
      FaultsKeepChannel(s.toPeer, s'.toPeer, s.k, s.n, Telegram(s.d));
      assert Arriving(s') == Arriving(s);
    } else {
      if s.d.l.received {
        FaultBehind(Item(s.rxIdx, s.d.l.rx), s.toDrv, s'.toDrv);
      }
      FaultsKeepChannel(Arriving(s), Arriving(s'), Oldest(s), s.k, s.p.reply);
    }
    hide CrcOk, T, M, Odd, Synced, Receive, FragmentOf, Telegram, ChannelOk, QueuesOk, InboundOk, WriterOk, RxSide,
      Forward, Backward;
    SameEndsKeep(s, s');
  }

  // ---- the module's step ------------------------------------------------------------------------

  /** An undamaged telegram with a new T bit is the newest one, seen for the first time. */
  lemma NewIsNewest(s: Sys, x: Item)
    requires s.k <= s.n <= s.k + 1 && ItemOk(x, s.k, s.n, Telegram(s.d)) && CrcOk(x.tel)
    requires T(x.tel[0]) != Odd(s.k)
    ensures s.n == s.k + 1 && x.idx == s.n && x.tel == Telegram(s.d)
  {
  }

  lemma PeerNewLines(s: Sys, s': Sys, took: seq<Msg>, got: seq<Msg>)
    requires Exchanging(s) && Parities(s) && Lines(s) && PeerStep(s, s', took, got)
    requires CrcOk(s.toPeer[0].tel) && T(s.toPeer[0].tel[0]) != s.p.lastT
    ensures s.k == s.m && s.n == s.k + 1 && s'.k == s.n && s.toPeer[0].tel == Telegram(s.d)
    ensures Lines(s') && Parities(s') && Exchanging(s')
    ensures PeerRound(s.p, s'.p, Telegram(s.d), took, got)
    ensures s' == s.(p := s'.p, k := s.k + 1, toPeer := s'.toPeer, toDrv := s'.toDrv,
                     log := s.log.(ptook := s.log.ptook + took, pgot := s.log.pgot + got))
  {
    hide CrcOk, M, T, R, Receive, FragmentOf, ChannelOk, Sent, Telegram;
    var x := s.toPeer[0];
    assert ItemOk(x, s.k, s.n, Telegram(s.d)) by { HeadOk(s.toPeer, s.k, s.n, Telegram(s.d)); }
    NewIsNewest(s, x);
    TailOk(s.toPeer, s.k, s.n, Telegram(s.d));
    AppendNewRound(Arriving(s), s.m, s.p.reply, s'.p.reply);
    assert Arriving(s') == Arriving(s) + [Item(s.k + 1, s'.p.reply)];
  }

  lemma HeadOk(ch: seq<Item>, lo: nat, hi: nat, top: RxTelegram)
    requires ChannelOk(ch, lo, hi, top) && ch != []
    ensures ItemOk(ch[0], lo, hi, top)
  {
    hide ItemOk;
  }

  lemma PeerTakesNew(s: Sys, s': Sys, took: seq<Msg>, got: seq<Msg>)
    requires Inv(s) && PeerStep(s, s', took, got)
    requires CrcOk(s.toPeer[0].tel) && T(s.toPeer[0].tel[0]) != s.p.lastT
    ensures Inv(s')
  {
    assert Exchanging(s);
    PeerNewLines(s, s', took, got);
    hide CrcOk, M, T, R, Synced, Receive, FragmentOf, ChannelOk, QueuesOk, InboundOk, WriterOk, RxSide, Sent, UnderWay,
      Lines, Parities, Exchanging, PeerStep;
    TelegramKeepsSync(s.p.wr, M(s.p.reply[0]), s.log.ptook, RxSide(s.d), s.log.got, s'.p.wr, took, s'.p.reply);
    assert Orderly(s');
    assert Forward(s') && Backward(s');
  }

  lemma PeerKeeps(s: Sys, s': Sys, took: seq<Msg>, got: seq<Msg>)
    requires Inv(s) && PeerStep(s, s', took, got)
    ensures Inv(s')
  {
    var tel := s.toPeer[0].tel;
    if CrcOk(tel) && T(tel[0]) != s.p.lastT {
      PeerTakesNew(s, s', took, got);
    } else {
      assert Exchanging(s);
      TailOk(s.toPeer, s.k, s.n, Telegram(s.d));
      if CrcOk(tel) {
        AppendAgain(Arriving(s), Oldest(s), s.k, s.p.reply);
        assert Arriving(s') == Arriving(s) + [Item(s.k, s.p.reply)];
      }
      assert Telegram(s'.d) == Telegram(s.d);
      hide CrcOk, M, Synced, Receive, FragmentOf, ChannelOk, QueuesOk, InboundOk, WriterOk, RxSide, Forward, Backward,
        T, Odd;
      SameEndsKeep(s, s');
    }
  }

  // ---- the link machine's step ------------------------------------------------------------------

  /** What RunProcess starts from: the newest answer, accepted. */
  ghost predicate Accepted(s: Sys, d: Drv) {
    s.n == s.m + 1 && s.k == s.n && d.l.st == PROCESS_TELEGRAM && d.l.cur == s.p.reply[0] &&
    (M(d.l.cur) ==> d.l.rx == s.p.reply) && SameSender(s.d, d) && RxSide(d) == RxSide(s.d) &&
    d.l.last == s.d.l.last && QueuesOk(d.a) && InboundOk(d.a) && d.a.nFrom < 256 && d.a.lim.Valid() &&
    ChannelOk(Arriving(s.(d := d)), s.k, s.k, s.p.reply)
  }

  predicate SameSender(d: Drv, d1: Drv) {
    d1.l.ctrl == d.l.ctrl && d1.l.wr == d.l.wr && d1.tx == d.tx && d1.l.serialWrite == d.l.serialWrite
  }

  lemma AcceptFacts(d: Drv)
    ensures
      var d1 := Accept(d);
      SameSender(d, d1) && d1.l.last == d.l.last && d1.l.recFrags == d.l.recFrags && d1.inBuf == d.inBuf &&
      d1.l.lastSentCmd == d.l.lastSentCmd && d1.l.cur == d.l.rx[0] && d1.l.rx == d.l.rx &&
      !d1.l.received && d1.l.st == PROCESS_TELEGRAM &&
      d1.a == d.a.(writePdLen := d1.a.writePdLen, remapWrite := d1.a.remapWrite)
  {
  }

  /** An accepted telegram is the newest answer, and nothing older is behind it. */
  lemma NewestArrives(s: Sys)
    requires Exchanging(s) && Parities(s) && Lines(s)
    requires s.d.l.st == WAIT_FOR_TELEGRAM && s.d.l.received && Accepts(s.d.l)
    ensures s.d.l.rx == s.p.reply && s.k == s.n && ChannelOk(s.toDrv, s.k, s.k, s.p.reply)
  {
    hide CrcOk, T, M;
    var x := Arriving(s)[0];
    assert ItemOk(x, s.m, s.k, s.p.reply);
    TailOk(Arriving(s), s.m, s.k, s.p.reply);
    assert Arriving(s)[1..] == s.toDrv;
  }

  lemma AcceptsNewest(s: Sys)
    requires Inv(s) && s.d.l.st == WAIT_FOR_TELEGRAM && s.d.l.received && Accepts(s.d.l)
    ensures Accepted(s, Accept(s.d))
  {
    NewestArrives(s);
    AcceptFacts(s.d);
    hide CrcOk, T, M, Odd, ChannelOk, Forward, Backward, Lines, Parities, Accept, Telegram;
    assert Arriving(s.(d := Accept(s.d))) == s.toDrv;
    AcceptedQueues(s.d.a, Accept(s.d).a);
  }

  lemma AcceptedQueues(a: Ap, a1: Ap)
    requires QueuesOk(a) && InboundOk(a) && a1 == a.(writePdLen := a1.writePdLen, remapWrite := a1.remapWrite)
    ensures QueuesOk(a1) && InboundOk(a1)
  {
  }

  /** A blocked run keeps the accepted answer for the next one. */
  lemma BlockedKeeps(s: Sys, d: Drv, s': Sys)
    requires Inv(s) && !Starting(s) && Accepted(s, d) && Blocked(d) && s' == After(s, d, QUIET)
    ensures Inv(s')
  {
    assert Telegram(d) == Telegram(s.d);
    assert s.log.took + [] == s.log.took && s.log.got + [] == s.log.got && s.log.done + [] == s.log.done;
    hide CrcOk, M, T, Synced, Receive, FragmentOf, ChannelOk, QueuesOk, InboundOk, WriterOk, RxSide, Odd, Telegram;
    assert Lines(s') && Parities(s') && Orderly(s') && Forward(s') && Backward(s') && Exchanging(s');
  }

  /** A completed round: the answer is in, the next telegram out. */
  lemma RoundKeeps(s: Sys, d: Drv, d1: Drv, out: Out, s': Sys)
    requires Inv(s) && !Starting(s) && Accepted(s, d) && Round(d, d1, out) && TookIn(d, d1, out)
    requires s' == After(s, d1, out)
    ensures Inv(s')
  {
    RoundLines(s, d, d1, out, s');
    RoundForward(s, d, d1, out);
    RoundBackward(s, d, d1, out);
    RoundOrderly(s, d, d1, out, s');
    RoundShape(s, d, d1, out, s');
    hide CrcOk, M, T, Synced, Receive, FragmentOf, RxSide, Orderly, Exchanging, Parities, Lines, Accepted, Round,
      TookIn, Starting, Telegram;
    assert Forward(s') && Backward(s');
  }

  lemma RoundShape(s: Sys, d: Drv, d1: Drv, out: Out, s': Sys)
    requires Parities(s) && Accepted(s, d) && Transmits(d, d1, out) && TookIn(d, d1, out) && s' == After(s, d1, out)
    ensures Exchanging(s') && Parities(s') && s'.n == s.n + 1 && s'.m == s.n && s'.k == s.k
  {
    hide CrcOk, M, T, R, Receive, FragmentOf, ChannelOk, QueuesOk, InboundOk, RxSide, FreeCmdSlots;
  }

  lemma RoundLines(s: Sys, d: Drv, d1: Drv, out: Out, s': Sys)
    requires Parities(s) && Lines(s) && Accepted(s, d) && Transmits(d, d1, out) && s' == After(s, d1, out)
    ensures Lines(s')
  {
    hide CrcOk, M, T, R, ChannelOk, QueuesOk, InboundOk, RxSide, FreeCmdSlots, Telegram;
    var tel := Telegram(d1);
    AppendNewRound(s.toPeer, s.n, Telegram(s.d), tel);
    assert s'.toPeer == s.toPeer + [Item(s.n + 1, tel)];
    assert Arriving(s') == Arriving(s.(d := d));
  }

  lemma RoundForward(s: Sys, d: Drv, d1: Drv, out: Out)
    requires Forward(s) && s.k == s.n && SameSender(s.d, d) && Sent(d.l.wr, d1.l.wr, out.took, Telegram(d1))
    ensures
      var tel := Telegram(d1);
      var (rx, more) := Receive(s.p.rx, M(tel[0]), FragmentOf(tel));
      Synced(d1.l.wr, M(tel[0]), s.log.took + out.took, rx, s.log.pgot + more)
  {
    hide M, Receive, FragmentOf, Synced, Sent, Telegram;
    TelegramKeepsSync(s.d.l.wr, M(s.d.l.ctrl), s.log.took, s.p.rx, s.log.pgot, d1.l.wr, out.took, Telegram(d1));
  }

  lemma RoundBackward(s: Sys, d: Drv, d1: Drv, out: Out)
    requires Backward(s) && s.k == s.m + 1 && Accepted(s, d) && TookIn(d, d1, out)
    ensures Synced(s.p.wr, M(s.p.reply[0]), s.log.ptook, RxSide(d1), s.log.got + out.got)
  {
    hide ChannelOk, QueuesOk, InboundOk, StoreFragment, MessageIn, M, FragmentOf;
  }

  lemma RoundOrderly(s: Sys, d: Drv, d1: Drv, out: Out, s': Sys)
    requires Orderly(s) && Accepted(s, d) && Round(d, d1, out) && s' == After(s, d1, out)
    ensures Orderly(s')
  {
    hide CrcOk, M, T, R, FragmentOf, ChannelOk, Carries, Telegram, FreeCmdSlots, Transmits, FromQueue;
    assert d.l.wr == s.d.l.wr;
    if Finished(d.l.wr) {
      assert out.took == [];
    }
  }

  /** A retransmission: the same bytes again, and no side moves. */
  lemma TimeoutsKeep(s: Sys, d: Drv, s': Sys)
    requires Inv(s) && s.d.l.st == WAIT_FOR_TELEGRAM && d == s.d.(l := s.d.l.(received := false))
    requires var (d1, out) := RunTimeouts(d, QUIET); s' == After(s, d1, out)
    ensures Inv(s')
  {
    hide RunTimeouts, CrcOk, T, M, Odd, Synced, Receive, FragmentOf, ChannelOk, QueuesOk, InboundOk, WriterOk,
      Forward, Backward;
    var (d1, out) := RunTimeouts(d, QUIET);
    Retransmits(d);
    assert Telegram(d1) == Telegram(s.d);
    if s.d.l.received {
      TailOk(Arriving(s), s.m, s.k, s.p.reply);
      assert Arriving(s)[1..] == s.toDrv;
    }
    assert Arriving(s') == s.toDrv;
    if out.tel.Some? {
      AppendAgain(s.toPeer, s.k, s.n, Telegram(s.d));
    }
    assert s.log.took + [] == s.log.took && s.log.got + [] == s.log.got && s.log.done + [] == s.log.done;
    hide Telegram;
    SameEndsKeep(s, s');
  }

  lemma WaitKeeps(s: Sys, s': Sys, env: Env)
    requires Inv(s) && s.d.l.st == WAIT_FOR_TELEGRAM && RunStep(s, s', env)
    ensures Inv(s')
  {
    hide RunTimeouts, RunProcess, Accepts, Accept, Inv, After;
    if s.d.l.received && Accepts(s.d.l) {
      AcceptsNewest(s);
      ProcessKeeps(s, Accept(s.d), env, s');
    } else {
      TimeoutsKeep(s, s.d.(l := s.d.l.(received := false)), s');
    }
  }

  lemma ProcessKeeps(s: Sys, d: Drv, env: Env, s': Sys)
    requires Inv(s) && !Starting(s) && Accepted(s, d)
    requires var (d1, out) := RunProcess(d, env, QUIET); s' == After(s, d1, out)
    ensures Inv(s')
  {
    if Blocked(d) {
      BlockedKeeps(s, d, s');
    } else {
      var (d1, out) := RunProcess(d, env, QUIET);
      assert WriterOk(d.l.wr);
      hide RunProcess, Inv, After, Round, TookIn, QueuesOk, InboundOk, Blocked;
      ProcessRound(d, env);
      RoundKeeps(s, d, d1, out, s');
    }
  }

  lemma RetryAccepted(s: Sys)
    requires Inv(s) && s.d.l.st == PROCESS_TELEGRAM
    ensures Accepted(s, s.d) && !Starting(s)
  {
    hide CrcOk, T, M, FragmentOf, ChannelOk, QueuesOk, InboundOk, RxSide, Forward, Backward, Telegram;
    assert Arriving(s.(d := s.d)) == Arriving(s);
  }

  lemma RetryKeeps(s: Sys, s': Sys, env: Env)
    requires Inv(s) && s.d.l.st == PROCESS_TELEGRAM && RunStep(s, s', env)
    ensures Inv(s')
  {
    hide RunProcess, Accepted, Inv, After, Starting;
    RetryAccepted(s);
    ProcessKeeps(s, s.d, env, s');
  }

  // ---- the start --------------------------------------------------------------------------------

  /** The handshake delay has passed: the first telegram. */
  lemma FirstRound(s: Sys, d: Drv, env: Env, s': Sys)
    requires Inv(s) && Starting(s) && Starting(s.(d := d)) && d.inBuf == s.d.inBuf && d.a == s.d.a
    requires var (d1, out) := RunIdle(d.(l := d.l.(st := IDLE)), env, QUIET); s' == After(s, d1, out)
    ensures Inv(s')
  {
    var d0 := d.(l := d.l.(st := IDLE));
    var (d1, out) := RunIdle(d0, env, QUIET);
    hide RunIdle, CrcOk, T, M, R, Synced, Receive, FragmentOf, QueuesOk, InboundOk, WriterOk, Sent, FromQueue,
      FreeCmdSlots, Telegram;
    IdleRound(d0, env, QUIET);
    var tel := Telegram(d1);
    ZeroBits();
    TelegramKeepsSync(None, M(0), s.log.took, s.p.rx, s.log.pgot, d1.l.wr, out.took, tel);
    FirstOrderly(s, d0, d1, out, s');
    FirstShape(s, d0, d1, out, s');
    hide Orderly, Exchanging, Lines, Parities;
    assert s.log.got + [] == s.log.got && RxSide(d1) == RxSide(s.d);
    assert Forward(s') && Backward(s');
  }

  lemma ZeroBits()
    ensures !T(0) && !M(0)
  {
  }

  lemma FirstShape(s: Sys, d0: Drv, d1: Drv, out: Out, s': Sys)
    requires Starting(s) && Parities(s) && d0.l.ctrl == 0 && !d0.l.received && d0.l.last == 0
    requires Transmits(d0, d1, out) && SameInbound(d0, d1) && s' == After(s, d1, out)
    ensures Exchanging(s') && Parities(s') && Lines(s')
  {
    hide CrcOk, M, R, Telegram, FreeCmdSlots, RxSide;
  }

  lemma FirstOrderly(s: Sys, d0: Drv, d1: Drv, out: Out, s': Sys)
    requires Orderly(s) && d0.a == s.d.a && s.d.l.wr == None && s' == After(s, d1, out)
    requires SameInbound(d0, d1) && QueuesOk(d1.a) && WriterOk(d1.l.wr) && out.done == []
    requires Sent(None, d1.l.wr, out.took, Telegram(d1))
    ensures Orderly(s')
  {
    hide M, Carries, Telegram, FragmentOf;
  }

  lemma StartKeeps(s: Sys, s': Sys, env: Env)
    requires Inv(s) && Starting(s) && RunStep(s, s', env)
    ensures Inv(s')
  {
    var d := if s.d.l.st == INIT then s.d.(l := DoInit(s.d.l)) else s.d;
    assert Run(s.d, env, QUIET) == RunHandshake(d, env, QUIET) by { hide RunHandshake; }
    hide RunIdle;
    if d.l.handshakeTo {
      FirstRound(s, d, env, s');
    } else {
      assert s.log.took + [] == s.log.took && s.log.got + [] == s.log.got && s.log.done + [] == s.log.done;
      assert s' == s.(d := d);
      hide CrcOk, M, Synced, Receive, FragmentOf, QueuesOk, InboundOk, WriterOk;
    }
  }

  // ---- steps of APLINK --------------------------------------------------------------------------

  lemma PostKeepsQueues(a: Ap, m: OutMsg)
    requires QueuesOk(a) && InboundOk(a)
    ensures
      var a1 := AddFragAndPost(a, m).0;
      QueuesOk(a1) && InboundOk(a1) && a1.nFrom == a.nFrom && a1.lim == a.lim
  {
    hide IsCommand, FragCount;
  }

  lemma SendKeepsQueues(a: Ap, m: OutMsg)
    requires QueuesOk(a) && InboundOk(a)
    ensures
      var a1 := SendMessage(a, m).0;
      QueuesOk(a1) && InboundOk(a1) && a1.nFrom == a.nFrom && a1.lim == a.lim
    ensures
      var a2 := PostConfig(a, m).0;
      QueuesOk(a2) && InboundOk(a2) && a2.nFrom == a.nFrom && a2.lim == a.lim
  {
    hide AddFragAndPost, IsCommand, LooksLikeRemapAck;
    PostKeepsQueues(Allocated(a, m).(remapWrite := a.remapWrite || LooksLikeRemapAck(m, REMAP_WRITE),
                                     remapRead := a.remapRead || LooksLikeRemapAck(m, REMAP_READ)), m);
    PostKeepsQueues(Allocated(a, m), m);
  }

  lemma LocalFrame(s: Sys, s': Sys)
    requires LocalStep(s, s')
    ensures s'.d.l == s.d.l && s'.d.tx == s.d.tx && s'.d.inBuf == s.d.inBuf
    ensures s' == s.(d := s'.d, log := s.log.(accepted := s'.log.accepted, handed := s'.log.handed,
                                                 written := s'.log.written))
  {
    hide SendMessage, PostConfig, HandleQueued, ConfigTake, AfterPass;
  }

  lemma TakeKeepsQueues(a: Ap)
    requires QueuesOk(a) && InboundOk(a)
    ensures
      var a1 := HandleQueued(a).0;
      QueuesOk(a1) && InboundOk(a1) && a1.nFrom == a.nFrom && a1.lim == a.lim
    ensures
      var a2 := ConfigTake(a).0;
      QueuesOk(a2) && InboundOk(a2) && a2.nFrom == a.nFrom && a2.lim == a.lim
  {
    hide IsCommand;
  }

  lemma FlagsKeepQueues(a: Ap, a1: Ap)
    requires QueuesOk(a) && InboundOk(a) && a1 == a.(state := a1.state, newPd := a1.newPd)
    ensures QueuesOk(a1) && InboundOk(a1)
  {
  }

  lemma LocalQueues(s: Sys, s': Sys)
    requires LocalStep(s, s') && QueuesOk(s.d.a) && InboundOk(s.d.a)
    ensures QueuesOk(s'.d.a) && InboundOk(s'.d.a) && s'.d.a.nFrom == s.d.a.nFrom && s'.d.a.lim == s.d.a.lim
  {
    hide SendMessage, PostConfig, HandleQueued, ConfigTake, QueuesOk, InboundOk;
    TakeKeepsQueues(s.d.a);
    if m: OutMsg :| SendStep(s, s', m) {
      SendKeepsQueues(s.d.a, m);
    } else if m: OutMsg :| ConfigPostStep(s, s', m) {
      SendKeepsQueues(s.d.a, m);
    } else if !HandleStep(s, s') && !ConfigTakeStep(s, s') {
      FlagsKeepQueues(s.d.a, s'.d.a);
    }
  }

  lemma LocalKeeps(s: Sys, s': Sys)
    requires Inv(s) && LocalStep(s, s')
    ensures Inv(s')
  {
    hide LocalStep;
    LocalFrame(s, s');
    LocalQueues(s, s');
    assert Telegram(s'.d) == Telegram(s.d) && Arriving(s') == Arriving(s);
    hide CrcOk, T, M, Odd, Synced, Receive, FragmentOf, Telegram, ChannelOk, QueuesOk, InboundOk, RxSide, Forward,
      Backward;
    SameEndsKeep(s, s');
  }

  // ---- the theorem ------------------------------------------------------------------------------

  /** Every step of the system keeps the invariant. */
  lemma StepKeeps(s: Sys, s': Sys)
    requires Inv(s) && Next(s, s')
    ensures Inv(s')
  {
    if env: Env :| RunStep(s, s', env) {
      assert Starting(s) || s.d.l.st == WAIT_FOR_TELEGRAM || s.d.l.st == PROCESS_TELEGRAM;
      hide Inv, RunStep;
      if Starting(s) {
        StartKeeps(s, s', env);
      } else if s.d.l.st == WAIT_FOR_TELEGRAM {
        WaitKeeps(s, s', env);
      } else {
        RetryKeeps(s, s', env);
      }
    } else {
      hide Inv, TimeoutStep, DeliverStep, PeerStep, FaultStep, LocalStep;
      if t, w, h :| TimeoutStep(s, s', t, w, h) {
        TimeoutKeeps(s, s', t, w, h);
      } else if DeliverStep(s, s') {
        DeliverKeeps(s, s');
      } else if took, got :| PeerStep(s, s', took, got) {
        PeerKeeps(s, s', took, got);
      } else if FaultStep(s, s') {
        FaultKeeps(s, s');
      } else {
        LocalKeeps(s, s');
      }
    }
  }

  lemma {:induction false} RunKeeps(run: seq<Sys>, i: nat)
    requires Execution(run) && i < |run|
    ensures Inv(run[i])
    decreases i
  {
    hide Inv, Init, Next;
    if i == 0 {
      InitInv(run[0]);
    } else {
      RunKeeps(run, i - 1);
      StepKeeps(run[i - 1], run[i - 1 + 1]);
    }
  }

  /** Exactly once, in order: at every moment of every run, what either side delivered is a prefix of what the other
      took up, and lags behind by at most the message under way. */
  lemma TransfersExactlyOnce(run: seq<Sys>, i: nat)
    requires Execution(run) && i < |run|
    ensures
      var log := run[i].log;
      log.pgot <= log.took && |log.took| <= |log.pgot| + 1 && log.got <= log.ptook && |log.ptook| <= |log.got| + 1
  {
    RunKeeps(run, i);
    var s := run[i];
    hide CrcOk, T, FragmentOf, StoreFragment, MessageIn, Lines, Parities;
  }

  // ---- further consequences ---------------------------------------------------------------------

  /** The driver's acceptance test, T bit against the last one and checksum, is exact: of what the line hands over in
      the expected length it accepts the undamaged answers to the newest telegram, and nothing else. */
  lemma AcceptsExactly(run: seq<Sys>, i: nat)
    requires Execution(run) && i < |run| && run[i].d.l.st == WAIT_FOR_TELEGRAM && run[i].d.l.received
    ensures
      var s := run[i];
      Accepts(s.d.l) <==> |s.d.l.rx| == s.d.l.serialRead && CrcOk(s.d.l.rx) && s.rxIdx == s.n
    ensures Accepts(run[i].d.l) ==> run[i].d.l.rx == run[i].p.reply && run[i].k == run[i].n
  {
    var s := run[i];
    RunKeeps(run, i);
    hide CrcOk, T, M, Forward, Backward, Orderly, Synced;
    HeadOk(Arriving(s), s.m, s.k, s.p.reply);
    assert Arriving(s)[0] == Item(s.rxIdx, s.d.l.rx);
  }

  /** Each way, with no message under way, the newest telegram has no M bit. */
  lemma NothingUnderWay(run: seq<Sys>, i: nat)
    requires Execution(run) && i < |run|
    ensures run[i].d.l.wr == None && run[i].n > 0 ==> !M(Telegram(run[i].d)[0])
    ensures run[i].p.wr == None ==> !M(run[i].p.reply[0])
  {
    RunKeeps(run, i);
    hide CrcOk, T, R, Lines, Parities, Orderly, Receive, FragmentOf;
  }

  lemma TimeoutRun(s: Sys, s': Sys, env: Env)
    requires s.d.l.st == WAIT_FOR_TELEGRAM && RunStep(s, s', env) && !(s.d.l.received && Accepts(s.d.l))
    ensures s'.n == s.n && s'.d.l.wr == s.d.l.wr && s'.d.l.ctrl == s.d.l.ctrl && Telegram(s'.d) == Telegram(s.d)
    ensures s'.toPeer == s.toPeer || s'.toPeer == s.toPeer + [Item(s.n, Telegram(s.d))]
  {
    hide RunTimeouts, Accepts, RunProcess;
    var d := s.d.(l := s.d.l.(received := false));
    Retransmits(d);
    SameBuffer(s.d, d);
    SameBuffer(d, RunTimeouts(d, QUIET).0);
    hide Telegram;
  }

  lemma SameBuffer(d: Drv, d1: Drv)
    requires d1.tx == d.tx && d1.l.serialWrite == d.l.serialWrite
    ensures Telegram(d1) == Telegram(d)
  {
  }

  /** Whenever a run sends without starting a new round, it sends the bytes of the last telegram again, and neither the
      fragment counter nor the toggle bit moves. */
  lemma RetransmissionSame(run: seq<Sys>, i: nat, env: Env)
    requires Execution(run) && i + 1 < |run| && RunStep(run[i], run[i + 1], env)
    requires run[i + 1].n == run[i].n && |run[i + 1].toPeer| > |run[i].toPeer|
    ensures run[i + 1].toPeer == run[i].toPeer + [Item(run[i].n, Telegram(run[i].d))]
    ensures run[i + 1].d.l.wr == run[i].d.l.wr && run[i + 1].d.l.ctrl == run[i].d.l.ctrl
    ensures Telegram(run[i + 1].d) == Telegram(run[i].d)
  {
    hide Inv, Init, Next, Accepts, RunProcess, RunTimeouts, RunIdle, Run, Telegram;
    var s, s' := run[i], run[i + 1];
    RunKeeps(run, i);
    if s.d.l.st == WAIT_FOR_TELEGRAM && !(s.d.l.received && Accepts(s.d.l)) {
      TimeoutRun(s, s', env);
    } else {
      NewOtherwise(s, env);
      assert false;
    }
  }

  /** Any other run that sends, sends a new telegram. */
  lemma NewOtherwise(s: Sys, env: Env)
    requires Inv(s) && !(s.d.l.st == WAIT_FOR_TELEGRAM && !(s.d.l.received && Accepts(s.d.l)))
    ensures var out := Run(s.d, env, QUIET).1; out.tel.Some? ==> out.isNew
  {
    hide Inv, Run, RunProcess, Accepts, Accept, WriterOk, QueuesOk, InboundOk, Starting;
    InvParts(s);
    if s.d.l.st == WAIT_FOR_TELEGRAM {
      AcceptFacts(s.d);
      AcceptedQueues(s.d.a, Accept(s.d).a);
      AcceptedRun(s.d, env);
      ProcessIsNew(Accept(s.d), env);
    } else if s.d.l.st == PROCESS_TELEGRAM {
      RetriedRun(s.d, env);
      ProcessIsNew(s.d, env);
    } else {
      IdleIsNew(s, env);
    }
  }

  lemma AcceptedRun(d: Drv, env: Env)
    requires d.l.st == WAIT_FOR_TELEGRAM && d.l.received && Accepts(d.l)
    ensures Run(d, env, QUIET) == RunProcess(Accept(d), env, QUIET)
  {
    hide RunProcess, Accepts, Accept, RunTimeouts;
  }

  lemma RetriedRun(d: Drv, env: Env)
    requires d.l.st == PROCESS_TELEGRAM
    ensures Run(d, env, QUIET) == RunProcess(d, env, QUIET)
  {
    hide RunProcess;
  }

  lemma InvParts(s: Sys)
    requires Inv(s)
    ensures Starting(s) || s.d.l.st == WAIT_FOR_TELEGRAM || s.d.l.st == PROCESS_TELEGRAM
    ensures WriterOk(s.d.l.wr) && QueuesOk(s.d.a) && InboundOk(s.d.a) && s.d.a.nFrom < 256
  {
    hide CrcOk, T, M, Lines, Parities, Forward, Backward, QueuesOk, InboundOk, WriterOk, Telegram;
  }

  lemma ProcessIsNew(d: Drv, env: Env)
    requires WriterOk(d.l.wr) && QueuesOk(d.a) && InboundOk(d.a) && d.a.nFrom < 256
    ensures var out := RunProcess(d, env, QUIET).1; out.tel.Some? ==> out.isNew
  {
    if !Blocked(d) {
      ProcessRound(d, env);
    }
  }

  lemma IdleIsNew(s: Sys, env: Env)
    requires Starting(s) && QueuesOk(s.d.a)
    ensures var out := Run(s.d, env, QUIET).1; out.tel.Some? ==> out.isNew
  {
    hide RunIdle, QueuesOk;
    var d := if s.d.l.st == INIT then s.d.(l := DoInit(s.d.l)) else s.d;
    assert Run(s.d, env, QUIET) == RunHandshake(d, env, QUIET) by { hide RunHandshake; }
    IdleRound(d.(l := d.l.(st := IDLE)), env, QUIET);
  }
}

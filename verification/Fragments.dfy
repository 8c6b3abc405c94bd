/** Cutting messages into fragments and putting them together again: what one telegram does at the sending side,
    what it does at the receiving side, and the relation between the two sides that every telegram keeps. */
module Fragments {
  import opened Abp
  import opened Options

  /** The sender's buffer while a message is under way, at least one fragment of it sent. */
  predicate UnderWay(b: Buf) { b.nFrags == FragCount(|b.msg|) && 1 <= b.cnt <= b.nFrags }

  /** What one new telegram may carry, by the sender's buffer before and after: the next fragment; or, after the
      last one, no message, which ends it; or, with nothing under way, the first fragment of a message taken from a
      queue, or nothing. */
  ghost predicate Sent(wr: Option<Buf>, wr': Option<Buf>, took: seq<Msg>, tel: RxTelegram) {
    match wr
    case Some(b) =>
      took == [] &&
      (if b.cnt < b.nFrags
       then wr' == Some(b.(cnt := b.cnt + 1)) && Carries(tel, b.msg, b.cnt)
       else wr' == None && !M(tel[0]))
    case None =>
      (took == [] && wr' == None && !M(tel[0])) ||
      (exists m: Msg :: took == [m] && wr' == Some(Buf(m, FragCount(|m|), 1)) && Carries(tel, m, 0))
  }

  ghost predicate Carries(tel: RxTelegram, m: Msg, i: nat) {
    i < FragCount(|m|) && M(tel[0]) && exists pad: Frag :: FragmentOf(tel) == FragmentAt(m, i, pad)
  }

  /** The receiver's buffer holds the first n bytes of the message, as far as there are that many. */
  predicate Holds(buf: MessageBuffer, m: Msg, n: nat) {
    forall i :: 0 <= i < n && i < |m| ==> buf[i] == m[i]
  }

  /** The two sides agree: the same messages are behind both, and of the one under way the receiver has exactly the
      fragments the sender counts as sent. */
  predicate Synced(wr: Option<Buf>, lastM: bool, taken: seq<Msg>, rx: Rx, got: seq<Msg>) {
    rx.lastM == lastM &&
    match wr
    case None => !lastM && rx.frags == 0 && got == taken
    case Some(b) =>
      lastM && UnderWay(b) && rx.frags == b.cnt && taken == got + [b.msg] && Holds(rx.buf, b.msg, FRAG * b.cnt)
  }

  lemma FragmentByte(m: Msg, i: nat, pad: Frag, j: nat)
    requires i < FragCount(|m|) && j < FRAG && FRAG * i + j < |m|
    ensures FragmentAt(m, i, pad)[j] == m[FRAG * i + j]
  {
    FragCountBounds(m);
  }

  lemma StoreExtends(buf: MessageBuffer, m: Msg, n: nat, pad: Frag)
    requires n < FragCount(|m|) && Holds(buf, m, FRAG * n)
    ensures Holds(StoreFragment(buf, n, FragmentAt(m, n, pad)), m, FRAG * (n + 1))
  {
    FragCountBounds(m);
    var f := FragmentAt(m, n, pad);
    forall i | 0 <= i < FRAG * (n + 1) && i < |m|
      ensures StoreFragment(buf, n, f)[i] == m[i]
    {
      if i >= FRAG * n {
        FragmentByte(m, n, pad, i - FRAG * n);
      }
      if n < MAX_FRAGS - 1 {
        SpliceAt(buf, FRAG * n, f, i);
      } else {
        SpliceAt(buf, FRAG * n, f[..LAST_FRAG], i);
      }
    }
  }

  lemma HeldMessage(buf: MessageBuffer, m: Msg)
    requires Holds(buf, m, FRAG * FragCount(|m|))
    ensures MessageIn(buf) == m
  {
    FragCountBounds(m);
    assert buf[5] == m[5];
  }

  /** One telegram that arrives keeps the two sides in step. */
  lemma TelegramKeepsSync(wr: Option<Buf>, lastM: bool, taken: seq<Msg>, rx: Rx, got: seq<Msg>,
                          wr': Option<Buf>, took: seq<Msg>, tel: RxTelegram)
    requires Synced(wr, lastM, taken, rx, got) && Sent(wr, wr', took, tel)
    ensures
      var (rx', more) := Receive(rx, M(tel[0]), FragmentOf(tel));
      Synced(wr', M(tel[0]), taken + took, rx', got + more)
  {
    hide FragmentOf, FragmentAt, StoreFragment, MessageIn, M, FragCount;
    match wr {
      case Some(b) =>
        FragCountBounds(b.msg);
        if b.cnt < b.nFrags {
          var pad: Frag :| FragmentOf(tel) == FragmentAt(b.msg, b.cnt, pad);
          StoreExtends(rx.buf, b.msg, b.cnt, pad);
        } else {
          HeldMessage(rx.buf, b.msg);
        }
      case None =>
        if took != [] {
          var m := took[0];
          FragCountBounds(m);
          var pad: Frag :| FragmentOf(tel) == FragmentAt(m, 0, pad);
          StoreExtends(rx.buf, m, 0, pad);
        }
    }
  }

  // ---- the round trip of one message ------------------------------------------------------------

  /** The receiving side over the fragments i, i+1, ... of a message, each with its own padding. */
  function ReceiveFrom(rx: Rx, m: Msg, i: nat, pads: seq<Frag>): (Rx, seq<Msg>)
    requires i + |pads| == FragCount(|m|)
    decreases |pads|
  {
    if pads == [] then Receive(rx, false, Zeros(FRAG))
    else
      var (rx1, got1) := Receive(rx, true, FragmentAt(m, i, pads[0]));
      var (rx2, got2) := ReceiveFrom(rx1, m, i + 1, pads[1..]);
      (rx2, got1 + got2)
  }

  lemma {:induction false} RestOfRoundTrip(rx: Rx, m: Msg, i: nat, pads: seq<Frag>)
    requires i + |pads| == FragCount(|m|) && rx.frags == i && Holds(rx.buf, m, FRAG * i) && (i > 0 ==> rx.lastM)
    ensures ReceiveFrom(rx, m, i, pads).1 == [m]
    ensures ReceiveFrom(rx, m, i, pads).0.frags == 0 && !ReceiveFrom(rx, m, i, pads).0.lastM
    decreases |pads|
  {
    FragCountBounds(m);
    if pads == [] {
      HeldMessage(rx.buf, m);
    } else {
      StoreExtends(rx.buf, m, i, pads[0]);
      RestOfRoundTrip(Receive(rx, true, FragmentAt(m, i, pads[0])).0, m, i + 1, pads[1..]);
    }
  }

  /** Every message of 0 to 255 data bytes, cut into ceil(size / 16) fragments with any padding and ended by a
      telegram without M bit, comes out as it went in; whatever the buffer held before is gone. */
  lemma RoundTrip(buf: MessageBuffer, lastM: bool, m: Msg, pads: seq<Frag>)
    requires |pads| == FragCount(|m|)
    ensures ReceiveFrom(Rx(buf, 0, lastM), m, 0, pads).1 == [m]
  {
    RestOfRoundTrip(Rx(buf, 0, lastM), m, 0, pads);
  }
}

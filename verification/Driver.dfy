/** The Anybus host driver as the source writes it: one object whose methods update its fields and fill its buffers
    in place, each proved against the function of DriverSpec.dfy that it computes. */
module Driver {
  import opened Abp
  import opened Options
  import opened DriverSpec
  import opened Messages
  import opened Telegrams
  import Crc

  /** SYS_CopyMemBytes: n bytes of src, from src[0] on, to dst[at..]. */
  method CopyBytes(dst: array<bv8>, at: nat, src: Bytes)
    requires at + |src| <= dst.Length
    modifies dst
    ensures dst[..] == Splice(old(dst[..]), at, src)
  {
    var i := 0;
    while i < |src|
      invariant 0 <= i <= |src|
      invariant forall j :: 0 <= j < i ==> dst[at + j] == src[j]
      invariant forall j :: 0 <= j < dst.Length && !(at <= j < at + i) ==> dst[j] == old(dst[j])
    {
      dst[at + i] := src[i];
      i := i + 1;
    }
    forall j | 0 <= j < dst.Length
      ensures dst[..][j] == Splice(old(dst[..]), at, src)[j]
    {
      SpliceAt(old(dst[..]), at, src, j);
      if at <= j < at + |src| {
        assert dst[at + (j - at)] == src[j - at];
      }
    }
  }

  /** SYS_CompareMemBytes: whether one of the first n bytes differs. */
  method Differs(a: array<bv8>, b: Bytes, n: nat) returns (differs: bool)
    requires n <= a.Length && n <= |b|
    ensures differs <==> a[..][..n] != b[..n]
  {
    var i := 0;
    while i < n
      invariant 0 <= i <= n
      invariant forall j :: 0 <= j < i ==> a[j] == b[j]
    {
      if a[i] != b[i] {
        assert a[..][..n][i] != b[..n][i];
        return true;
      }
      i := i + 1;
    }
    return false;
  }

  // ---- messages in terms of their bytes ---------------------------------------------------------

  /** A message sent: queued behind those of its kind, in a buffer of its own, with none of its fragments sent; a
      command takes up a credit. */
  predicate Sent(a: Ap, a1: Ap, m: OutMsg) {
    var fragments := if |m| % 16 == 0 then |m| / 16 else |m| / 16 + 1;
    if m[4] & 0x40 == 0x40 then
      |a1.cmdQ| == |a.cmdQ| + 1 && a1.cmdQ[..|a.cmdQ|] == a.cmdQ && a1.cmdQ[|a.cmdQ|] == Buf(m, fragments, 0) &&
      a1 == a.(cmdQ := a1.cmdQ, nTo := (a.nTo + 1) % 256, cmdUsed := a.cmdUsed + 1, remapWrite := a1.remapWrite,
               remapRead := a1.remapRead)
    else
      |a1.rspQ| == |a.rspQ| + 1 && a1.rspQ[..|a.rspQ|] == a.rspQ && a1.rspQ[|a.rspQ|] == Buf(m, fragments, 0) &&
      a1 == a.(rspQ := a1.rspQ, rspUsed := a.rspUsed + 1, remapWrite := a1.remapWrite, remapRead := a1.remapRead)
  }

  /** A message refused leaves everything but the remap flags as it was, and those too while configuring. */
  predicate Refused(a: Ap, a1: Ap, status: Status) {
    (status == NOT_ALLOWED_DRIVER_STATE <==> a.state == IN_CONFIGURATION) &&
    (status == NOT_ALLOWED_DRIVER_STATE ==> a1 == a) && a1 == a.(remapWrite := a1.remapWrite, remapRead := a1.remapRead)
  }

  lemma PostInBytes(a: Ap, m: OutMsg)
    ensures
      var (a1, status) := SendMessage(a, m);
      if status == OK then a.state != IN_CONFIGURATION && Sent(a, a1, m) else Refused(a, a1, status)
  {
    CommandBit(m);
    hide IsCommand, LooksLikeRemapAck, SizesFit;
  }

  /** A message delivered: the answer to "setup complete" starts the process data; a command is counted as open; and the
      message waits for the application if there is a place for it. */
  predicate Taken(l: Link, l1: Link, a: Ap, a1: Ap, m: Msg, env: Env) {
    (if m[1..] == [1, 1, 0, 0x02, 0, 5, 0] then
       l1 == l.(serialRead := env.readSize + 19, pdReadLen := env.readSize, pdWriteLen := env.writeSize) &&
       a1.readPdLen == env.readSize && a1.writePdLen == env.writeSize && a1.newPd &&
       a1.state == if a.state == IN_RUN_NO_PD then IN_RUN else a.state
     else
       l1 == l && a1.readPdLen == a.readPdLen && a1.writePdLen == a.writePdLen && a1.newPd == a.newPd &&
       a1.state == a.state) &&
    a1.nFrom == (if m[4] & 0x40 == 0x40 then (a.nFrom + 1) % 256 else a.nFrom) &&
    if |a.inQ| < a.lim.abcc + a.lim.appl then a1.inQ == a.inQ + [m] && a1.inUsed == a.inUsed
    else a1.inQ == a.inQ && a1.inUsed == Dec(a.inUsed)
  }

  lemma DeliverInBytes(d: Drv, m: Msg, env: Env)
    ensures
      var d1 := MessageReceived(d, m, env);
      Taken(d.l, d1.l, d.a, d1.a, m, env)
  {
    SetupBytes(m);
    CommandBit(m);
    assert IsSetupAck(m) ==> !IsCommand(m);
    hide IsSetupAck, IsCommand;
  }

  /** A message completed: its buffer, and a response's credit, is given back; the acknowledgement of a remap command
      announces the new length, and for the read area it is in force at once. */
  predicate GivenBack(l: Link, l1: Link, a: Ap, a1: Ap, m: Msg) {
    if m[4] & 0x40 == 0x40 then l1 == l && a1 == a.(cmdUsed := Dec(a.cmdUsed))
    else
      var back := a.(nFrom := Dec(a.nFrom), rspUsed := Dec(a.rspUsed));
      if WriteAck(m) then
        a1.newWritePdLen as int == Announced(m) && a1 == back.(newWritePdLen := a1.newWritePdLen) &&
        l1 == l.(completeRemap := true)
      else if ReadAck(m) then
        a1.readPdLen as int == Announced(m) && a1 == back.(readPdLen := a1.readPdLen, remapRead := false) &&
        l1 == l.(serialRead := a1.readPdLen + 19, pdReadLen := a1.readPdLen, pdWriteLen := a.writePdLen)
      else l1 == l && a1 == back
  }

  lemma CompleteInBytes(l: Link, a: Ap, m: OutMsg)
    ensures GivenBack(l, CompletedLink(l, a, m), a, CompletedAp(a, m), m)
  {
    CommandBit(m);
    AckBytes(m);
    assert SizesFit(m);
    assert IsRemapAck(m, REMAP_WRITE) || IsRemapAck(m, REMAP_READ) ==> !IsCommand(m);
    hide IsRemapAck, IsCommand, AckLengthValue;
  }

  class Driver {
    var apdr: Link
    var aplink: Ap
    const tx: array<bv8>
    const inBuf: array<bv8>
    const writeData: array<bv8>

    ghost predicate Valid() {
      tx.Length == TELEGRAM && inBuf.Length == MAX_MESSAGE && writeData.Length == MAX_PD &&
      tx != inBuf && tx != writeData && inBuf != writeData
    }

    ghost function State(): Drv
      reads this, tx, inBuf, writeData
      requires Valid()
    {
      Drv(apdr, aplink, tx[..], inBuf[..], writeData[..])
    }

    /** APDR_Init and APLINK_Init, as the setup state calls them. */
    constructor (limits: Limits)
      ensures Valid() && fresh(tx) && fresh(inBuf) && fresh(writeData)
      ensures State() == Initial(limits)
      ensures apdr.st == INIT && apdr.wr == None && aplink.state == IN_CONFIGURATION && !aplink.newPd
      ensures aplink.cmdQ == [] && aplink.rspQ == [] && aplink.inQ == [] && aplink.nTo == aplink.nFrom == 0
      ensures aplink.cmdUsed == aplink.rspUsed == aplink.inUsed == 0 && !aplink.remapRead && !aplink.remapWrite
    {
      apdr := Initial(limits).l;
      aplink := Initial(limits).a;
      tx := new bv8[TELEGRAM](_ => 0);
      inBuf := new bv8[MAX_MESSAGE](_ => 0);
      writeData := new bv8[MAX_PD](_ => 0);
      new;
      assert tx[..] == Zeros(TELEGRAM) && inBuf[..] == Zeros(MAX_MESSAGE) && writeData[..] == Zeros(MAX_PD);
    }

    // ---- what the outside calls between runs ----------------------------------------------------

    /** APDR_SerialTelegramReceived. */
    method SerialTelegramReceived(data: RxTelegram)
      requires Valid()
      modifies this`apdr
      ensures State() == Received(old(State()), data)
    {
      apdr := apdr.(rx := data, received := true);
    }

    /** The three timer callbacks of apdr.c. */
    method TelegramTimeout()
      requires Valid()
      modifies this`apdr
      ensures State() == Timeouts(old(State()), true, false, false)
    {
      apdr := apdr.(telegramTo := true);
    }

    method AbccWatchdogTimeout()
      requires Valid()
      modifies this`apdr
      ensures State() == Timeouts(old(State()), false, true, false)
    {
      apdr := apdr.(wdTo := true);
    }

    method InitHsTimerExpired()
      requires Valid()
      modifies this`apdr
      ensures State() == Timeouts(old(State()), false, false, true)
    {
      apdr := apdr.(handshakeTo := true);
    }

    /** APLINK_SendMessage. */
    method Send(m: OutMsg) returns (status: Status)
      requires Valid()
      modifies this`aplink
      ensures (aplink, status) == SendMessage(old(aplink), m)
      ensures if status == OK then old(aplink).state != IN_CONFIGURATION && Sent(old(aplink), aplink, m)
              else Refused(old(aplink), aplink, status)
    {
      PostInBytes(aplink, m);
      hide Sent, Refused;
      if aplink.state == IN_CONFIGURATION {
        return NOT_ALLOWED_DRIVER_STATE;
      }
      var ok := Allocate(m);
      if !ok {
        return OUT_OF_RESOURCES;
      }
      if LooksLikeRemapAck(m, REMAP_WRITE) {
        aplink := aplink.(remapWrite := true);
      }
      if LooksLikeRemapAck(m, REMAP_READ) {
        aplink := aplink.(remapRead := true);
      }
      status := AddFragAndPostMsg(m);
    }

    /** UTIL_AllocateMsgBuffer for an outgoing message. */
    method Allocate(m: OutMsg) returns (ok: bool)
      modifies this`aplink
      ensures ok == CanAllocate(old(aplink), m)
      ensures aplink == if ok then Allocated(old(aplink), m) else old(aplink)
    {
      if IsCommand(m) {
        ok := aplink.cmdUsed < aplink.lim.appl;
        if ok { aplink := aplink.(cmdUsed := aplink.cmdUsed + 1); }
      } else {
        ok := aplink.rspUsed < aplink.lim.abcc;
        if ok { aplink := aplink.(rspUsed := aplink.rspUsed + 1); }
      }
    }

    /** aplink_AddFragAndPostMsg: the number of fragments is the size divided by 16, rounded up. */
    method AddFragAndPostMsg(m: OutMsg) returns (status: Status)
      modifies this`aplink
      ensures (aplink, status) == AddFragAndPost(old(aplink), m)
    {
      var total := ByteValue(m[5]) + HEADER;
      var frags := total / FRAG;
      if total % FRAG != 0 {
        frags := frags + 1;
      }
      assert frags == FragCount(|m|);
      var b := Buf(m, frags, 0);
      if IsCommand(m) {
        if aplink.nTo >= aplink.lim.appl {
          aplink := aplink.(cmdUsed := Dec(aplink.cmdUsed));
          return OUT_OF_RESOURCES;
        }
        if |aplink.cmdQ| < aplink.lim.appl {
          aplink := aplink.(cmdQ := aplink.cmdQ + [b], nTo := (aplink.nTo + 1) % 256);
          return OK;
        }
        aplink := aplink.(cmdUsed := Dec(aplink.cmdUsed));
        return OUT_OF_RESOURCES;
      }
      if |aplink.rspQ| < aplink.lim.abcc {
        aplink := aplink.(rspQ := aplink.rspQ + [b]);
        return OK;
      }
      aplink := aplink.(rspUsed := Dec(aplink.rspUsed));
      return OUT_OF_RESOURCES;
    }

    /** aplink_HandleQueuedMsgsToAppl. */
    method HandleQueuedMsgsToAppl() returns (handed: seq<Msg>)
      modifies this`aplink
      ensures (aplink, handed) == HandleQueued(old(aplink))
    {
      handed := [];
      if aplink.inQ != [] {
        var m := aplink.inQ[0];
        aplink := aplink.(inQ := aplink.inQ[1..]);
        if !IsCommand(m) {
          aplink := aplink.(nTo := (aplink.nTo + 255) % 256);
        }
        handed := [m];
        aplink := aplink.(inUsed := Dec(aplink.inUsed));
      }
    }

    /** APLINK_WriteProcessData. */
    method WritePd(data: PdBuffer)
      requires Valid()
      modifies this`aplink, writeData
      ensures State() == WriteProcessData(old(State()), data)
      ensures
        var len := old(aplink).writePdLen;
        writeData[..][..len] == data[..len] && writeData[..][len..] == old(writeData[..])[len..] &&
        aplink == old(aplink).(newPd := old(aplink).newPd || old(writeData[..])[..len] != data[..len])
    {
      var len := aplink.writePdLen;
      var differs := Differs(writeData, data, len);
      if differs {
        CopyBytes(writeData, 0, data[..len]);
        aplink := aplink.(newPd := true);
      }
    }

    // ---- the parts of a run ---------------------------------------------------------------------

    method ChangePdSize(read: PdLength, write: PdLength)
      modifies this`apdr
      ensures apdr == SetPdSize(old(apdr), read, write)
    {
      apdr := apdr.(serialRead := read + OVERHEAD);
      apdr := apdr.(pdReadLen := read, pdWriteLen := write);
    }

    method SwitchWritePdMap()
      requires Valid()
      modifies this`apdr, this`aplink
      ensures State() == UseNewWritePdMap(old(State())) && apdr.st == old(apdr).st
    {
      aplink := aplink.(writePdLen := aplink.newWritePdLen);
      ChangePdSize(aplink.readPdLen, aplink.writePdLen);
      aplink := aplink.(remapWrite := false);
    }

    method Complete(m: OutMsg)
      requires Valid()
      modifies this`apdr, this`aplink
      ensures apdr == CompletedLink(old(apdr), old(aplink), m) && aplink == CompletedAp(old(aplink), m)
      ensures GivenBack(old(apdr), apdr, old(aplink), aplink, m)
    {
      CompleteInBytes(apdr, aplink, m);
      hide GivenBack;
      hide IsError, WordAt, Command, AckLengthValue, FragCount;
      var ack := !IsCommand(m);
      if !ack {
        aplink := aplink.(cmdUsed := Dec(aplink.cmdUsed));
        return;
      }
      hide IsCommand;
      aplink := aplink.(rspUsed := Dec(aplink.rspUsed));
      if aplink.nFrom > 0 {
        aplink := aplink.(nFrom := aplink.nFrom - 1);
      }
      if LooksLikeRemapAck(m, REMAP_WRITE) {
        aplink := aplink.(newWritePdLen := AckLengthValue(m, REMAP_WRITE));
        apdr := apdr.(completeRemap := true);
      }
      if LooksLikeRemapAck(m, REMAP_READ) {
        aplink := aplink.(readPdLen := AckLengthValue(m, REMAP_READ));
        ChangePdSize(aplink.readPdLen, aplink.writePdLen);
        aplink := aplink.(remapRead := false);
      }
    }

    method Deliver(m: Msg, env: Env)
      requires Valid()
      modifies this`apdr, this`aplink
      ensures State() == MessageReceived(old(State()), m, env)
      ensures Taken(old(apdr), apdr, old(aplink), aplink, m, env)
    {
      DeliverInBytes(State(), m, env);
      hide Taken;
      if IsCommand(m) {
        aplink := aplink.(nFrom := (aplink.nFrom + 1) % 256);
      } else if IsSetupAck(m) {
        aplink := aplink.(readPdLen := env.readSize, writePdLen := env.writeSize);
        ChangePdSize(aplink.readPdLen, aplink.writePdLen);
        aplink := aplink.(newPd := true);
        if aplink.state == IN_RUN_NO_PD {
          aplink := aplink.(state := IN_RUN);
        }
      }
      if |aplink.inQ| < aplink.lim.Inbound() {
        aplink := aplink.(inQ := aplink.inQ + [m]);
      } else {
        aplink := aplink.(inUsed := Dec(aplink.inUsed));
      }
    }

    /** APLINK_GetNewProcessData, into the telegram. */
    method GetNewProcessData(len: PdLength)
      requires Valid() && len == apdr.pdWriteLen
      modifies this`aplink, tx
      ensures State() == PutProcessData(old(State()))
    {
      if aplink.remapWrite || aplink.state != IN_RUN || len == 0 {
        return;
      }
      if aplink.newPd {
        aplink := aplink.(newPd := false);
        CopyBytes(tx, 17, writeData[..][..len]);
      }
    }

    /** apdr_BuildSerialTelegram, first part: the control byte and the next fragment. */
    method PutControlAndFragment(withMessage: bool, env: Env)
      requires Valid()
      modifies this`apdr, tx
      ensures
        var d := old(State());
        var d1 := d.(tx := Splice(d.tx, 0, [d.l.ctrl]));
        State() == if withMessage then PutFragment(d1, env) else d1
    {
      hide Splice, FragmentAt, FragCount;
      CopyBytes(tx, 0, [apdr.ctrl]);
      if withMessage && apdr.wr.Some? {
        var b := apdr.wr.value;
        if b.nFrags != 0 && b.cnt < b.nFrags {
          CopyBytes(tx, 1, FragmentAt(b.msg, b.cnt, env.pad));
          apdr := apdr.(wr := Some(b.(cnt := b.cnt + 1)));
        } else {
          apdr := apdr.(wr := Some(b.(cnt := b.nFrags)));
        }
      }
    }

    /** Second part: the checksum over the bits, the fragment and the process data. */
    method SealTelegram()
      requires Valid()
      modifies this`apdr, tx
      ensures State() == Seal(old(State()))
    {
      hide Splice;
      var len: int := apdr.pdWriteLen;
      var crc := Crc.Crc16(tx[..][..17 + len]);
      CopyBytes(tx, 17 + len, [((crc >> 8) & 0x00FF) as bv8, (crc & 0x00FF) as bv8]);
      apdr := apdr.(serialWrite := OVERHEAD + len);
    }

    method BuildSerialTelegram(withMessage: bool, env: Env)
      requires Valid()
      modifies this`apdr, this`aplink, tx
      ensures State() == Build(old(State()), withMessage, env)
    {
      PutControlAndFragment(withMessage, env);
      hide PutFragment, PutProcessData, Seal, Splice;
      GetNewProcessData(apdr.pdWriteLen);
      SealTelegram();
    }

    /** A fragment goes to its place in the message buffer; of the seventeenth only seven bytes fit, and later ones are
        reported and dropped. */
    method Store(f: Frag)
      requires Valid()
      modifies inBuf
      ensures State() == old(State()).(inBuf := StoreFragment(old(inBuf[..]), apdr.recFrags, f))
    {
      hide Splice;
      if apdr.recFrags < MAX_FRAGS - 1 {
        CopyBytes(inBuf, apdr.recFrags * FRAG, f);
      } else if apdr.recFrags == MAX_FRAGS - 1 {
        CopyBytes(inBuf, apdr.recFrags * FRAG, f[..LAST_FRAG]);
      }
    }

    /** The state PROCESS_TELEGRAM, receiving half; blocked means that it found no buffer. */
    method TakeIncoming(env: Env) returns (blocked: bool, got: seq<Msg>)
      requires Valid()
      modifies this`apdr, this`aplink, inBuf
      ensures blocked == Blocked(old(State()))
      ensures blocked ==> State() == old(State()) && got == []
      ensures !blocked ==> (State(), got) == Incoming(old(State()), env)
    {
      hide Splice, M, StoreFragment, FragmentOf, MessageReceived, ByteValue;
      blocked, got := false, [];
      if M(apdr.cur) {
        Store(FragmentOf(apdr.rx));
        apdr := apdr.(recFrags := (apdr.recFrags + 1) % 65536);
      } else if M(apdr.last) {
        if aplink.inUsed >= aplink.lim.Inbound() {
          return true, [];
        }
        aplink := aplink.(inUsed := aplink.inUsed + 1);
        var m := MessageIn(inBuf[..]);
        Deliver(m, env);
        apdr := apdr.(recFrags := 0);
        got := [m];
      }
    }

    /** The sending half: what the next telegram will be about. */
    method ChooseNext() returns (done: seq<Msg>)
      requires Valid()
      modifies this`apdr, this`aplink
      ensures (State(), done) == Outgoing(old(State()))
      ensures apdr.st in {IDLE, SEND_WITH_MESSAGE, SEND_WITHOUT_MESSAGE}
    {
      hide CompletedLink, CompletedAp;
      done := [];
      apdr := apdr.(last := apdr.cur);
      if apdr.wr.None? {
        apdr := apdr.(st := IDLE);
      } else {
        var b := apdr.wr.value;
        if b.nFrags != 0 && b.cnt < b.nFrags {
          apdr := apdr.(st := SEND_WITH_MESSAGE);
        } else if b.nFrags != 0 && b.cnt == b.nFrags {
          Complete(b.msg);
          apdr := apdr.(st := SEND_WITHOUT_MESSAGE, wr := None);
          done := [b.msg];
        } else {
          apdr := apdr.(st := IDLE);
        }
      }
    }

    /** APLINK_GetNextMessage. */
    method GetNextMessage(commands: bool) returns (found: bool, took: seq<Msg>)
      requires Valid()
      modifies this`apdr, this`aplink
      ensures found == ((if commands then old(aplink).cmdQ else old(aplink).rspQ) != [])
      ensures !found ==> State() == old(State()) && took == []
      ensures found && commands ==> State() == TakeCommand(old(State())) && took == [old(aplink).cmdQ[0].msg]
      ensures found ==> apdr.st == SEND_WITH_MESSAGE
      ensures found && !commands ==> State() == TakeResponse(old(State())) && took == [old(aplink).rspQ[0].msg]
    {
      found, took := false, [];
      if commands {
        if aplink.cmdQ != [] {
          found, took := true, [aplink.cmdQ[0].msg];
          apdr := apdr.(wr := Some(aplink.cmdQ[0]), st := SEND_WITH_MESSAGE, lastSentCmd := true);
          aplink := aplink.(cmdQ := aplink.cmdQ[1..]);
        }
      } else if aplink.rspQ != [] {
        found, took := true, [aplink.rspQ[0].msg];
        apdr := apdr.(wr := Some(aplink.rspQ[0]), st := SEND_WITH_MESSAGE, lastSentCmd := false);
        aplink := aplink.(rspQ := aplink.rspQ[1..]);
      }
    }

    /** The state IDLE. */
    method SelectMessage() returns (took: seq<Msg>)
      requires Valid()
      modifies this`apdr, this`aplink
      ensures (State(), took) == Select(old(State()))
      ensures apdr.st in {SEND_WITH_MESSAGE, SEND_WITHOUT_MESSAGE}
    {
      hide TakeCommand, TakeResponse;
      var found := false;
      if !R(apdr.last) {
        found, took := GetNextMessage(false);
      } else if apdr.lastSentCmd {
        found, took := GetNextMessage(false);
        if !found {
          found, took := GetNextMessage(true);
        }
      } else {
        found, took := GetNextMessage(true);
        if !found {
          found, took := GetNextMessage(false);
        }
      }
      if !found {
        apdr := apdr.(st := SEND_WITHOUT_MESSAGE);
      }
    }

    method SetControlBits(withMessage: bool)
      modifies this`apdr
      ensures apdr == old(apdr).(ctrl := ToggleT(WithR(WithM(old(apdr).ctrl, withMessage), FreeCmdSlots(aplink))))
    {
      hide WithM, WithR, ToggleT;
      apdr := apdr.(ctrl := WithM(apdr.ctrl, withMessage));
      if aplink.nFrom < aplink.lim.abcc && aplink.lim.Inbound() - |aplink.inQ| > 0 {
        apdr := apdr.(ctrl := WithR(apdr.ctrl, true));
      } else {
        apdr := apdr.(ctrl := WithR(apdr.ctrl, false));
      }
      apdr := apdr.(ctrl := ToggleT(apdr.ctrl));
    }

    /** The states SEND_WITH_MESSAGE and SEND_WITHOUT_MESSAGE. */
    method SendNewTelegram(withMessage: bool, env: Env) returns (tel: Bytes)
      requires Valid()
      modifies this`apdr, this`aplink, tx
      ensures State() == DriverSpec.Send(old(State()), withMessage, env) && tel == Telegram(State())
    {
      hide Build, Splice, WithM, WithR, ToggleT, FreeCmdSlots, T, M, R;
      if !withMessage {
        CopyBytes(tx, 1, Zeros(FRAG));
      }
      SetControlBits(withMessage);
      BuildSerialTelegram(withMessage, env);
      apdr := apdr.(st := WAIT_FOR_TELEGRAM);
      tel := tx[..apdr.serialWrite];
    }

    static method ChecksumFits(b: RxTelegram) returns (ok: bool)
      ensures ok == CrcOk(b)
    {
      hide Crc.Word;
      var n := |b|;
      var generated := Crc.Crc16(b[..n - 2]);
      ok := generated == Crc.Word(b[n - 2], b[n - 1]);
    }

    /** Receiving a telegram in the state WAIT_FOR_TELEGRAM. */
    method TryAccept() returns (ok: bool)
      requires Valid()
      modifies this`apdr, this`aplink
      ensures ok == Accepts(old(apdr)) == Fitting(old(apdr))
      ensures State() == if ok then Accept(old(State())) else old(State()).(l := old(apdr).(received := false))
      ensures ok ==> apdr.st == PROCESS_TELEGRAM
    {
      AcceptsFitting(apdr);
      hide Fitting, UseNewWritePdMap, T, CrcOk;
      apdr := apdr.(received := false);
      if |apdr.rx| != apdr.serialRead {
        return false;
      }
      ok := ChecksumFits(apdr.rx);
      ok := ok && T(apdr.last) != T(apdr.rx[0]);
      if ok {
        apdr := apdr.(cur := apdr.rx[0], telegramTo := false, wdTo := false);
        if apdr.wdOccurred {
          apdr := apdr.(wdOccurred := false);
        }
        apdr := apdr.(st := PROCESS_TELEGRAM);
        if apdr.completeRemap {
          SwitchWritePdMap();
          apdr := apdr.(completeRemap := false);
        }
      }
    }

    /** How far a run is from its end. */
    function Rank(): nat
      reads this`apdr
    {
      match apdr.st
      case INIT => 7
      case INITIAL_HANDSHAKE => 6
      case WAIT_FOR_TELEGRAM => if apdr.received then 5 else 4
      case PROCESS_TELEGRAM => 3
      case IDLE => 2
      case COM_LOST => 1
      case SEND_WITH_MESSAGE => 1
      case SEND_WITHOUT_MESSAGE => 1
    }

    /** The state WAIT_FOR_TELEGRAM. */
    method WaitForTelegram(sofar: Out) returns (again: bool, out: Out)
      requires Valid() && apdr.st == WAIT_FOR_TELEGRAM
      modifies this`apdr, this`aplink
      ensures
        var d := old(State());
        if d.l.received then
          again && out == sofar && State() == if Accepts(d.l) then Accept(d) else d.(l := d.l.(received := false))
        else if d.l.telegramTo then
          !again && State() == d.(l := d.l.(telegramTo := false)) &&
          out == sofar.(tel := Some(Telegram(d)), isNew := false)
        else out == sofar && again == d.l.wdTo && State() == if d.l.wdTo then d.(l := d.l.(st := COM_LOST)) else d
      ensures again ==> Rank() < old(Rank())
    {
      hide Accepts, Accept;
      again, out := true, sofar;
      if apdr.received {
        var _ := TryAccept();
      } else if apdr.telegramTo {
        apdr := apdr.(telegramTo := false);
        return false, out.(tel := Some(tx[..apdr.serialWrite]), isNew := false);
      } else if apdr.wdTo {
        apdr := apdr.(st := COM_LOST);
      } else {
        return false, out;
      }
    }

    /** The state PROCESS_TELEGRAM. */
    method ProcessTelegram(env: Env, sofar: Out) returns (again: bool, out: Out)
      requires Valid() && apdr.st == PROCESS_TELEGRAM
      modifies this`apdr, this`aplink, inBuf
      ensures OneTurn(old(State()), env, sofar) == if again then Again(State(), out) else Return(State(), out)
      ensures again ==> Rank() < old(Rank())
    {
      hide Incoming, Blocked, Outgoing, FragmentOf, DriverSpec.Send, Select, Accept, Accepts, DoInit, M, T, R;
      var blocked, got := TakeIncoming(env);
      if blocked {
        return false, sofar;
      }
      var done := ChooseNext();
      return true, sofar.(got := sofar.got + got, done := sofar.done + done);
    }

    method SendAndReport(withMessage: bool, env: Env, sofar: Out) returns (out: Out)
      requires Valid() && apdr.st == if withMessage then SEND_WITH_MESSAGE else SEND_WITHOUT_MESSAGE
      modifies this`apdr, this`aplink, tx
      ensures OneTurn(old(State()), env, sofar) == Return(State(), out)
      ensures HasSomething(old(apdr), withMessage) ==>
        out.tel.Some? && BuiltFrom(old(State()), withMessage, env.pad, out.tel.value)
    {
      SendInBytes(State(), withMessage, env);
      hide HasSomething, BuiltFrom, DriverSpec.Send, Telegram;
      var tel := SendNewTelegram(withMessage, env);
      out := sofar.(tel := Some(tel), isNew := true);
    }

    /** The state COM_LOST. */
    method ReportLost(sofar: Out) returns (out: Out)
      requires Valid() && apdr.st == COM_LOST
      modifies this`apdr
      ensures forall env: Env :: OneTurn(old(State()), env, sofar) == Return(State(), out)
    {
      apdr := apdr.(wdOccurred := true, wdTo := false, telegramTo := false, st := WAIT_FOR_TELEGRAM);
      out := sofar.(tel := Some(tx[..apdr.serialWrite]), isNew := false);
    }

    /** One turn of the switch. */
    method TurnOnce(env: Env, sofar: Out) returns (again: bool, out: Out)
      requires Valid()
      modifies this`apdr, this`aplink, tx, inBuf
      ensures OneTurn(old(State()), env, sofar) == if again then Again(State(), out) else Return(State(), out)
      ensures again ==> Rank() < old(Rank())
    {
      hide Accepts, Incoming, Blocked, DriverSpec.Send, DoInit, Outgoing, Select, Accept, FragmentOf, M, T, R;
      again, out := true, sofar;
      match apdr.st {
        case INIT =>
          Initialise();
        case INITIAL_HANDSHAKE =>
          if !apdr.handshakeTo {
            return false, out;
          }
          apdr := apdr.(st := IDLE);
        case SEND_WITH_MESSAGE =>
          out := SendAndReport(true, env, sofar);
          again := false;
        case SEND_WITHOUT_MESSAGE =>
          out := SendAndReport(false, env, sofar);
          again := false;
        case WAIT_FOR_TELEGRAM =>
          again, out := WaitForTelegram(sofar);
        case PROCESS_TELEGRAM =>
          again, out := ProcessTelegram(env, sofar);
        case COM_LOST =>
          out := ReportLost(sofar);
          again := false;
        case IDLE =>
          var took := SelectMessage();
          out := out.(took := out.took + took);
      }
    }

    /** APDR_RunDataLinkStateMachine: turn the switch until a state returns. */
    method RunDataLinkStateMachine(env: Env) returns (out: Out)
      requires Valid()
      modifies this`apdr, this`aplink, tx, inBuf
      ensures (State(), out) == Run(old(State()), env, QUIET)
    {
      hide Run, OneTurn;
      out := QUIET;
      var again := true;
      while again
        invariant again ==> Run(State(), env, out) == Run(old(State()), env, QUIET)
        invariant !again ==> (State(), out) == Run(old(State()), env, QUIET)
        decreases again, Rank()
      {
        RunTurns(State(), env, out);
        again, out := TurnOnce(env, out);
      }
    }

    /** A pass of APLINK_RunStateMachine in one of the run states: the link machine, one message to the application,
        and the flag kept raised as long as no process data may flow. */
    method RunPass(env: Env) returns (out: Out, handed: seq<Msg>)
      requires Valid() && aplink.state != IN_CONFIGURATION
      modifies this`apdr, this`aplink, tx, inBuf
      ensures
        var (d, o) := Run(old(State()), env, QUIET);
        var (a, h) := HandleQueued(d.a);
        out == o && handed == h &&
        State() == d.(a := if old(aplink).state == IN_RUN_NO_PD then AfterPass(a) else a)
      ensures old(aplink).state == IN_RUN_NO_PD ==> aplink.newPd
    {
      hide Run, HandleQueued;
      var noPd := aplink.state == IN_RUN_NO_PD;
      out := RunDataLinkStateMachine(env);
      handed := HandleQueuedMsgsToAppl();
      if noPd {
        aplink := aplink.(newPd := true);
      }
    }

    /** The state INIT. */
    method Initialise()
      requires Valid()
      modifies this`apdr
      ensures State() == old(State()).(l := DoInit(old(apdr))) && apdr.st == INITIAL_HANDSHAKE
    {
      apdr := apdr.(pdReadLen := 0, pdWriteLen := 0, recFrags := 0);
      apdr := apdr.(wdOccurred := false, lastSentCmd := false, completeRemap := false, wr := None);
      apdr := apdr.(serialRead := OVERHEAD);
      apdr := apdr.(ctrl := 0, last := 0, handshakeTo := false, received := false);
      apdr := apdr.(st := INITIAL_HANDSHAKE);
    }
  }
}

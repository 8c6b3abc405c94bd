/** Process data under the dirty flag: a clear flag means that the telegram's process data area holds what the
    application wrote last, so every telegram built outside a remap carries the latest data. The one exception is a
    write remap that grows the area while the flag is clear. */
module ProcessData {
  import opened Abp
  import opened Options
  import opened DriverSpec
  import opened Rounds
  import opened LinkSystem
  import opened ExactlyOnce
  import opened EndToEnd

  function Area(d: Drv): Bytes { d.tx[17..17 + d.l.pdWriteLen] }

  /** The process data a telegram carries: between the message field and the checksum. */
  function PdField(tel: RxTelegram): Bytes { tel[17..|tel| - 2] }

  /** The dirty flag's promise. */
  predicate FlagTrue(d: Drv) {
    d.a.state == IN_RUN ==>
      d.l.pdWriteLen == d.a.writePdLen && (!d.a.newPd ==> Area(d) == d.writeData[..d.l.pdWriteLen])
  }

  /** The same between runs; process data flows only once telegrams do. */
  predicate Coherent(d: Drv) {
    FlagTrue(d) && (d.a.state == IN_RUN ==> d.l.st != INIT && d.l.st != INITIAL_HANDSHAKE)
  }

  /** What coherence depends on. */
  lemma CoherentFrame(d: Drv, d1: Drv)
    requires Coherent(d) && d1.tx == d.tx && d1.writeData == d.writeData
    requires d1.a.state == d.a.state && d1.a.newPd == d.a.newPd && d1.a.writePdLen == d.a.writePdLen
    requires d.a.state == IN_RUN ==> d1.l.pdWriteLen == d.l.pdWriteLen
    requires d1.l.st != INIT && d1.l.st != INITIAL_HANDSHAKE
    ensures Coherent(d1)
  {
  }

  lemma ReceivedCoherent(d: Drv, m: Msg, env: Env)
    requires Coherent(d) && d.l.st == PROCESS_TELEGRAM
    ensures
      var d1 := MessageReceived(d, m, env);
      Coherent(d1) && d1.l.st == PROCESS_TELEGRAM
  {
    SetupAckIsResponse(m);
    hide IsCommand, IsSetupAck;
  }

  lemma SetupAckIsResponse(m: Msg)
    ensures IsSetupAck(m) ==> !IsCommand(m)
  {
  }

  lemma IncomingCoherent(d: Drv, env: Env)
    requires Coherent(d) && !Blocked(d) && d.l.st == PROCESS_TELEGRAM
    ensures Coherent(Incoming(d, env).0)
  {
    hide StoreFragment, MessageIn, FragmentOf, M, MessageReceived, Coherent, Blocked;
    var d1 := Incoming(d, env).0;
    if M(d.l.cur) {
      CoherentFrame(d, d1);
    } else if M(d.l.last) {
      var d0 := d.(a := d.a.(inUsed := d.a.inUsed + 1));
      CoherentFrame(d, d0);
      ReceivedCoherent(d0, MessageIn(d.inBuf), env);
      var d2 := MessageReceived(d0, MessageIn(d.inBuf), env);
      CoherentFrame(d2, d1);
    }
  }

  lemma CompletedSizes(l: Link, a: Ap, m: OutMsg)
    requires a.state == IN_RUN ==> l.pdWriteLen == a.writePdLen
    ensures a.state == IN_RUN ==> CompletedLink(l, a, m).pdWriteLen == l.pdWriteLen
    ensures CompletedAp(a, m).state == a.state && CompletedAp(a, m).newPd == a.newPd
    ensures CompletedAp(a, m).writePdLen == a.writePdLen
  {
    hide IsCommand, IsRemapAck, FragCount, AckLengthValue;
  }

  lemma OutgoingCoherent(d: Drv)
    requires Coherent(d)
    ensures Coherent(Outgoing(d).0)
  {
    assert d.a.state == IN_RUN ==> d.l.pdWriteLen == d.a.writePdLen;
    hide CompletedLink, CompletedAp, FragCount, Coherent;
    if Finished(d.l.wr) {
      CompletedSizes(d.l.(last := d.l.cur), d.a, d.l.wr.value.msg);
    }
    CoherentFrame(d, Outgoing(d).0);
  }

  lemma SelectCoherent(d: Drv)
    requires Coherent(d)
    ensures Coherent(Select(d).0)
  {
    hide Choice, Coherent, FragCount, SizesFit;
    match Choice(d.l, d.a) {
      case PickCommand => CoherentFrame(d, TakeCommand(d));
      case PickResponse => CoherentFrame(d, TakeResponse(d));
      case PickNothing => CoherentFrame(d, d.(l := d.l.(st := SEND_WITHOUT_MESSAGE)));
    }
  }

  /** Building the message field leaves the process data area alone. */
  lemma SpliceOutside(s: Bytes, at: nat, b: Bytes, lo: nat, hi: nat)
    requires at + |b| <= |s| && lo <= hi <= |s| && (at + |b| <= lo || hi <= at)
    ensures Splice(s, at, b)[lo..hi] == s[lo..hi]
  {
    forall i | lo <= i < hi
      ensures Splice(s, at, b)[i] == s[i]
    {
      SpliceAt(s, at, b, i);
    }
  }

  lemma FragmentOutside(d: Drv, env: Env)
    ensures Area(PutFragment(d, env)) == Area(d)
    ensures PutFragment(d, env).a == d.a && PutFragment(d, env).writeData == d.writeData
    ensures PutFragment(d, env).l.pdWriteLen == d.l.pdWriteLen
  {
    hide FragmentAt, Splice, FragCount;
    if Unfinished(d.l.wr) {
      var b := d.l.wr.value;
      SpliceOutside(d.tx, 1, FragmentAt(b.msg, b.cnt, env.pad), 17, 17 + d.l.pdWriteLen);
    }
  }

  /** What a telegram carries when it is built. */
  predicate Fresh(d: Drv) {
    d.a.state == IN_RUN && !d.a.remapWrite ==> Area(d) == d.writeData[..d.l.pdWriteLen]
  }

  lemma PutProcessDataCoherent(d: Drv)
    requires FlagTrue(d)
    ensures FlagTrue(PutProcessData(d)) && Fresh(PutProcessData(d))
    ensures PutProcessData(d).l == d.l
  {
    hide Splice;
  }

  lemma SealCoherent(d: Drv)
    ensures Area(Seal(d)) == Area(d) && Seal(d).a == d.a && Seal(d).writeData == d.writeData
    ensures Seal(d).l == d.l.(serialWrite := OVERHEAD + d.l.pdWriteLen)
    ensures PdField(Telegram(Seal(d))) == Area(Seal(d))
  {
    SealArea(d);
    hide Splice, Area, CrcOk, FragmentOf;
    SealFacts(d);
    var n: int := 17 + d.l.pdWriteLen;
    hide Seal, Telegram;
    FieldBeforeCrc(d.tx[..n], CrcBytes(d.tx[..n]));
    AreaIs(d);
  }

  lemma FieldBeforeCrc(body: Bytes, crc: Bytes)
    requires |body| >= 17 && |crc| == 2
    ensures PdField(body + crc) == body[17..]
  {
  }

  lemma AreaIs(d: Drv)
    ensures Area(d) == d.tx[..17 + d.l.pdWriteLen][17..]
  {
  }

  lemma SealArea(d: Drv)
    ensures Area(Seal(d)) == Area(d)
  {
    hide Splice, CrcBytes;
    var n: int := 17 + d.l.pdWriteLen;
    SpliceOutside(d.tx, n, CrcBytes(d.tx[..n]), 17, n);
  }

  /** The bits and the message field of a new telegram, before its process data. */
  function Headed(d: Drv, withMessage: bool, env: Env): Drv {
    var d0 := if withMessage then d else d.(tx := Splice(d.tx, 1, Zeros(FRAG)));
    var ctrl := ToggleT(WithR(WithM(d.l.ctrl, withMessage), FreeCmdSlots(d.a)));
    var d1 := d0.(l := d0.l.(ctrl := ctrl));
    var d2 := d1.(tx := Splice(d1.tx, 0, [ctrl]));
    if withMessage then PutFragment(d2, env) else d2
  }

  lemma HeadedArea(d: Drv, withMessage: bool, env: Env)
    ensures
      var d1 := Headed(d, withMessage, env);
      Area(d1) == Area(d) && d1.a == d.a && d1.writeData == d.writeData && d1.l.pdWriteLen == d.l.pdWriteLen
  {
    hide Splice, WithM, WithR, ToggleT, T, M, R, FreeCmdSlots, PutFragment, FragCount, SizesFit;
    var d0 := if withMessage then d else d.(tx := Splice(d.tx, 1, Zeros(FRAG)));
    var ctrl := ToggleT(WithR(WithM(d.l.ctrl, withMessage), FreeCmdSlots(d.a)));
    var d1 := d0.(l := d0.l.(ctrl := ctrl));
    var d2 := d1.(tx := Splice(d1.tx, 0, [ctrl]));
    SpliceOutside(d.tx, 1, Zeros(FRAG), 17, 17 + d.l.pdWriteLen);
    SpliceOutside(d1.tx, 0, [ctrl], 17, 17 + d.l.pdWriteLen);
    FragmentOutside(d2, env);
  }

  lemma SendParts(d: Drv, withMessage: bool, env: Env)
    ensures
      var d1 := Seal(PutProcessData(Headed(d, withMessage, env)));
      Send(d, withMessage, env) == d1.(l := d1.l.(st := WAIT_FOR_TELEGRAM))
  {
    hide Splice, WithM, WithR, ToggleT, T, M, R, FreeCmdSlots, PutFragment, FragCount, SizesFit, PutProcessData, Seal;
  }

  lemma SendCoherent(d: Drv, withMessage: bool, env: Env)
    requires Coherent(d) && d.l.st != INIT && d.l.st != INITIAL_HANDSHAKE
    ensures
      var d1 := Send(d, withMessage, env);
      Coherent(d1) && Fresh(d1) && PdField(Telegram(d1)) == Area(d1)
  {
    hide Headed, Area, PutProcessData, Seal, Send, Telegram, PdField;
    SendParts(d, withMessage, env);
    HeadedArea(d, withMessage, env);
    var d3 := Headed(d, withMessage, env);
    PutProcessDataCoherent(d3);
    SealCoherent(PutProcessData(d3));
    SameState(Seal(PutProcessData(d3)));
  }

  lemma SameState(d: Drv)
    ensures var d1 := d.(l := d.l.(st := WAIT_FOR_TELEGRAM)); Area(d1) == Area(d) && Telegram(d1) == Telegram(d)
  {
  }

  // ---- a whole run ------------------------------------------------------------------------------

  /** The exception: an accepted telegram completes a write remap to a longer area while the flag is clear. */
  predicate GrowsSilently(d: Drv) {
    d.l.st == WAIT_FOR_TELEGRAM && d.l.received && Accepts(d.l) && d.l.completeRemap && d.a.state == IN_RUN &&
    !d.a.newPd && d.a.newWritePdLen > d.a.writePdLen
  }

  /** A shorter area of the same buffers still agrees. */
  lemma ShorterArea(d: Drv, d1: Drv)
    requires d1.tx == d.tx && d1.l.pdWriteLen <= d.l.pdWriteLen && Area(d) == d.writeData[..d.l.pdWriteLen]
    ensures Area(d1) == d.writeData[..d1.l.pdWriteLen]
  {
    var n: int, m: int := d1.l.pdWriteLen, d.l.pdWriteLen;
    assert d.tx[17..17 + m][..n] == d.tx[17..17 + n];
    assert d.writeData[..m][..n] == d.writeData[..n];
  }

  lemma AcceptCoherent(d: Drv)
    requires Coherent(d)
    requires d.l.completeRemap && d.a.state == IN_RUN && !d.a.newPd ==> d.a.newWritePdLen <= d.a.writePdLen
    ensures Coherent(Accept(d))
  {
    var d1 := Accept(d);
    if d.l.completeRemap && d.a.state == IN_RUN && !d.a.newPd {
      ShorterArea(d, d1);
    }
  }

  lemma DispatchCoherent(d: Drv, env: Env, out: Out)
    requires Coherent(d) && d.l.st != INIT && d.l.st != INITIAL_HANDSHAKE
    ensures
      var (d1, out1) := Dispatch(d, env, out);
      Coherent(d1) && Fresh(d1) && PdField(Telegram(d1)) == Area(d1)
  {
    hide Send, Area;
    SendCoherent(d, d.l.st == SEND_WITH_MESSAGE, env);
  }

  lemma IdleCoherent(d: Drv, env: Env, out: Out)
    requires Coherent(d)
    ensures
      var (d1, out1) := RunIdle(d, env, out);
      Coherent(d1) && Fresh(d1) && PdField(Telegram(d1)) == Area(d1)
  {
    hide Dispatch, Area, Coherent, Fresh, Telegram, Select;
    SelectCoherent(d);
    SelectState(d);
    var (d0, took) := Select(d);
    DispatchCoherent(d0, env, out.(took := out.took + took));
  }

  lemma ProcessCoherent(d: Drv, env: Env)
    requires Coherent(d) && !Blocked(d) && d.l.st == PROCESS_TELEGRAM
    ensures
      var (d1, out1) := RunProcess(d, env, QUIET);
      Coherent(d1) && Fresh(d1) && PdField(Telegram(d1)) == Area(d1)
  {
    hide RunProcess, Dispatch, RunIdle, Area, Coherent, Fresh, Telegram, Blocked, Incoming, Outgoing;
    RunProcessParts(d, env);
    var (d1, got) := Incoming(d, env);
    IncomingCoherent(d, env);
    var (d2, done) := Outgoing(d1);
    OutgoingCoherent(d1);
    OutgoingState(d1);
    var out0 := QUIET.(got := got, done := done);
    if d2.l.st == IDLE {
      IdleCoherent(d2, env, out0);
    } else {
      DispatchCoherent(d2, env, out0);
    }
  }

  /** One run of the link machine, and what it sends. */
  predicate RunCoherent(d1: Drv, out: Out) {
    Coherent(d1) && (out.isNew ==> Fresh(d1) && PdField(Telegram(d1)) == Area(d1))
  }

  lemma WaitCoherent(d: Drv, env: Env)
    requires Coherent(d) && d.l.st == WAIT_FOR_TELEGRAM && !GrowsSilently(d)
    ensures var (d1, out) := RunWait(d, env, QUIET); RunCoherent(d1, out)
  {
    hide RunProcess, RunTimeouts, Blocked, Coherent, Fresh, Telegram, Area, Accepts, Accept;
    if d.l.received && Accepts(d.l) {
      var d0 := Accept(d);
      AcceptCoherent(d);
      AcceptState(d);
      if Blocked(d0) {
        assert RunProcess(d0, env, QUIET) == (d0, QUIET) by { BlockedReturns(d0, env); }
      } else {
        ProcessCoherent(d0, env);
      }
    } else {
      var d0 := d.(l := d.l.(received := false));
      CoherentFrame(d, d0);
      Retransmits(d0);
      var (d1, out) := RunTimeouts(d0, QUIET);
      assert d1.l.st == d0.l.st;
      CoherentFrame(d0, d1);
    }
  }

  lemma BlockedReturns(d: Drv, env: Env)
    requires Blocked(d)
    ensures RunProcess(d, env, QUIET) == (d, QUIET)
  {
  }

  lemma StartCoherent(d: Drv, env: Env)
    requires Coherent(d) && (d.l.st == INIT || d.l.st == INITIAL_HANDSHAKE)
    ensures var (d1, out) := Run(d, env, QUIET); RunCoherent(d1, out)
  {
    hide RunIdle, Fresh, Telegram, Area, PdField;
    var d0 := if d.l.st == INIT then d.(l := DoInit(d.l)) else d;
    assert Run(d, env, QUIET) == RunHandshake(d0, env, QUIET) by { hide RunHandshake; }
    IdleCoherent(d0.(l := d0.l.(st := IDLE)), env, QUIET);
  }

  /** Any run from a state in which runs begin. */
  lemma RunIsCoherent(d: Drv, env: Env)
    requires Coherent(d) && !GrowsSilently(d)
    requires d.l.st in {INIT, INITIAL_HANDSHAKE, WAIT_FOR_TELEGRAM, PROCESS_TELEGRAM}
    ensures var (d1, out) := Run(d, env, QUIET); RunCoherent(d1, out)
  {
    hide RunWait, RunProcess, RunHandshake, Blocked, Coherent, Fresh, Telegram, Area, PdField;
    if d.l.st == WAIT_FOR_TELEGRAM {
      WaitCoherent(d, env);
    } else if d.l.st == PROCESS_TELEGRAM {
      if Blocked(d) {
        BlockedReturns(d, env);
      } else {
        ProcessCoherent(d, env);
      }
    } else {
      StartCoherent(d, env);
    }
  }

  // ---- the system -------------------------------------------------------------------------------

  lemma WriteCoherent(d: Drv, data: PdBuffer)
    requires Coherent(d)
    ensures Coherent(WriteProcessData(d, data))
  {
    hide Splice;
  }

  lemma LocalCoherent(s: Sys, s': Sys)
    requires Coherent(s.d) && LocalStep(s, s')
    ensures Coherent(s'.d)
  {
    hide Coherent, SendMessage, PostConfig, HandleQueued, ConfigTake;
    if m: OutMsg :| SendStep(s, s', m) {
      SendKeepsFlags(s.d.a, m);
      LocalFrames(s.d, s'.d);
    } else if m: OutMsg :| ConfigPostStep(s, s', m) {
      SendKeepsFlags(s.d.a, m);
      LocalFrames(s.d, s'.d);
    } else if data: PdBuffer :| WritePdStep(s, s', data) {
      WriteCoherent(s.d, data);
    } else {
      TakeKeepsFlags(s.d.a);
      QuietLocal(s, s');
    }
  }

  lemma SendKeepsFlags(a: Ap, m: OutMsg)
    ensures SameFlags(a, SendMessage(a, m).0) && SameFlags(a, PostConfig(a, m).0)
  {
    hide IsCommand, LooksLikeRemapAck, FragCount, SizesFit, AddFragAndPost;
    PostKeepsFlags(Allocated(a, m).(remapWrite := a.remapWrite || LooksLikeRemapAck(m, REMAP_WRITE),
                                    remapRead := a.remapRead || LooksLikeRemapAck(m, REMAP_READ)), m);
    PostKeepsFlags(Allocated(a, m), m);
  }

  lemma PostKeepsFlags(a: Ap, m: OutMsg)
    ensures SameFlags(a, AddFragAndPost(a, m).0)
  {
    hide IsCommand, FragCount;
  }

  predicate SameFlags(a: Ap, a1: Ap) {
    a1.state == a.state && a1.newPd == a.newPd && a1.writePdLen == a.writePdLen
  }

  lemma TakeKeepsFlags(a: Ap)
    ensures SameFlags(a, HandleQueued(a).0) && SameFlags(a, ConfigTake(a).0)
  {
    hide IsCommand;
  }

  lemma LocalFrames(d: Drv, d1: Drv)
    requires Coherent(d) && d1 == d.(a := d1.a) && SameFlags(d.a, d1.a)
    ensures Coherent(d1)
  {
  }

  lemma QuietLocal(s: Sys, s': Sys)
    requires Coherent(s.d) && s'.d == s.d.(a := s'.d.a)
    requires s'.d.a == AfterPass(s.d.a) || s'.d.a == s.d.a.(state := IN_RUN_NO_PD) || SameFlags(s.d.a, s'.d.a)
    ensures Coherent(s'.d)
  {
  }

  lemma LineCoherent(s: Sys, s': Sys)
    requires Coherent(s.d)
    requires DeliverStep(s, s') || FaultStep(s, s') || (exists t, w, h :: TimeoutStep(s, s', t, w, h)) ||
      exists took, got :: PeerStep(s, s', took, got)
    ensures Coherent(s'.d)
  {
    hide PeerStep, Faulty, Coherent;
    if took, got :| PeerStep(s, s', took, got) {
      PeerStepDriver(s, s', took, got);
    } else if FaultStep(s, s') {
      assert s'.d == s.d;
    } else {
      FlagsOnly(s.d, s'.d);
    }
  }

  lemma PeerStepDriver(s: Sys, s': Sys, took: seq<Msg>, got: seq<Msg>)
    requires PeerStep(s, s', took, got)
    ensures s'.d == s.d
  {
    hide CrcOk, T, PeerRound;
  }

  lemma FlagsOnly(d: Drv, d1: Drv)
    requires Coherent(d) && d1 == d.(l := d1.l) && d1.l.st == d.l.st && d1.l.pdWriteLen == d.l.pdWriteLen
    ensures Coherent(d1)
  {
  }

  /** The step is a run of the link machine. */
  ghost predicate Runs(s: Sys, s': Sys) { exists env: Env :: RunStep(s, s', env) }

  /** No run of the link machine begins with the exception. */
  ghost predicate NeverGrowsSilently(run: seq<Sys>, n: nat) {
    forall j: nat :: j < n && j + 1 < |run| && Runs(run[j], run[j + 1]) ==> !GrowsSilently(run[j].d)
  }

  lemma StepCoherent(s: Sys, s': Sys)
    requires Inv(s) && Coherent(s.d) && Next(s, s') && (Runs(s, s') ==> !GrowsSilently(s.d))
    ensures Coherent(s'.d)
  {
    hide Inv, Coherent, GrowsSilently, LocalStep, TimeoutStep, DeliverStep, PeerStep, FaultStep, Run, RunCoherent;
    RunsBegin(s);
    if env: Env :| RunStep(s, s', env) {
      RunIsCoherent(s.d, env);
      assert RunCoherent(s'.d, Run(s.d, env, QUIET).1);
      RunCoherentIs(s'.d, Run(s.d, env, QUIET).1);
    } else if LocalStep(s, s') {
      LocalCoherent(s, s');
    } else {
      LineCoherent(s, s');
    }
  }

  /** The states in which a run of the link machine begins. */
  lemma RunsBegin(s: Sys)
    requires Inv(s)
    ensures s.d.l.st in {INIT, INITIAL_HANDSHAKE, WAIT_FOR_TELEGRAM, PROCESS_TELEGRAM}
  {
    hide Parities, Lines, Forward, Backward, Orderly, CrcOk, T, M, Telegram;
  }

  lemma RunCoherentIs(d: Drv, out: Out)
    requires RunCoherent(d, out)
    ensures Coherent(d)
  {
  }

  lemma {:induction false} RunsCoherent(run: seq<Sys>, i: nat)
    requires Execution(run) && i < |run| && NeverGrowsSilently(run, i)
    ensures Inv(run[i]) && Coherent(run[i].d)
    decreases i
  {
    RunKeeps(run, i);
    hide Inv, Next, GrowsSilently, Runs;
    if i > 0 {
      hide Coherent;
      RunsCoherent(run, i - 1);
      StepCoherent(run[i - 1], run[i - 1 + 1]);
    }
  }

  // ---- what the application wrote ---------------------------------------------------------------

  /** The write buffer as the writes leave it: each lies over the start of what was there, at first zeros. */
  function Image(written: seq<PdBlock>): PdBuffer {
    if written == [] then Zeros(MAX_PD)
    else
      var last := written[|written| - 1];
      last + Image(written[..|written| - 1])[|last|..]
  }

  lemma WriteImage(s: Sys, s': Sys, data: PdBuffer)
    requires s.d.writeData == Image(s.log.written) && WritePdStep(s, s', data)
    ensures s'.d.writeData == Image(s'.log.written)
  {
    var len: int := s.d.a.writePdLen;
    assert s'.log.written[..|s'.log.written| - 1] == s.log.written;
    assert s.d.writeData == s.d.writeData[..len] + s.d.writeData[len..];
  }

  lemma SendKeepsData(d: Drv, withMessage: bool, env: Env)
    ensures Send(d, withMessage, env).writeData == d.writeData
  {
    hide Headed, Seal, Send, PutProcessData;
    SendParts(d, withMessage, env);
    HeadedArea(d, withMessage, env);
    var d1 := Headed(d, withMessage, env);
    PutProcessDataFacts(d1);
    SealCoherent(PutProcessData(d1));
  }

  lemma IdleKeepsData(d: Drv, env: Env, out: Out)
    ensures RunIdle(d, env, out).0.writeData == d.writeData
  {
    hide Send, Choice;
    var d1 := Select(d).0;
    SendKeepsData(d1, d1.l.st == SEND_WITH_MESSAGE, env);
  }

  lemma ProcessKeepsData(d: Drv, env: Env)
    ensures RunProcess(d, env, QUIET).0.writeData == d.writeData
  {
    if Blocked(d) {
      BlockedReturns(d, env);
    } else {
      RunProcessParts(d, env);
      IncomingKeepsData(d, env);
      hide RunProcess, Incoming, CompletedLink, CompletedAp, RunIdle, Send, Blocked;
      var (d1, got) := Incoming(d, env);
      var (d2, done) := Outgoing(d1);
      IdleKeepsData(d2, env, QUIET.(got := got, done := done));
      SendKeepsData(d2, d2.l.st == SEND_WITH_MESSAGE, env);
    }
  }

  lemma IncomingKeepsData(d: Drv, env: Env)
    requires !Blocked(d)
    ensures Incoming(d, env).0.writeData == d.writeData
  {
    hide StoreFragment, MessageIn, FragmentOf, M, Blocked, ReceivedAp, ReceivedLink, Enqueue;
  }

  lemma RunKeepsData(d: Drv, env: Env)
    requires d.l.st in {INIT, INITIAL_HANDSHAKE, WAIT_FOR_TELEGRAM, PROCESS_TELEGRAM}
    ensures Run(d, env, QUIET).0.writeData == d.writeData
  {
    hide RunProcess, RunIdle, RunTimeouts, Accepts;
    match d.l.st {
      case WAIT_FOR_TELEGRAM =>
        ProcessKeepsData(Accept(d), env);
        Retransmits(d.(l := d.l.(received := false)));
      case PROCESS_TELEGRAM =>
        ProcessKeepsData(d, env);
      case _ =>
        var d0 := if d.l.st == INIT then d.(l := DoInit(d.l)) else d;
        IdleKeepsData(d0.(l := d0.l.(st := IDLE)), env, QUIET);
    }
  }

  lemma RunImage(s: Sys, s': Sys, env: Env)
    requires Inv(s) && RunStep(s, s', env)
    ensures s'.d.writeData == s.d.writeData && s'.log.written == s.log.written
  {
    RunsBegin(s);
    RunKeepsData(s.d, env);
    hide Run, Telegram, Inv;
  }

  lemma LocalImage(s: Sys, s': Sys)
    requires LocalStep(s, s') && !exists data: PdBuffer :: WritePdStep(s, s', data)
    ensures s'.d.writeData == s.d.writeData && s'.log.written == s.log.written
  {
    hide SendMessage, PostConfig, HandleQueued, ConfigTake, WritePdStep;
  }

  lemma LineImage(s: Sys, s': Sys)
    requires DeliverStep(s, s') || FaultStep(s, s') || (exists t, w, h :: TimeoutStep(s, s', t, w, h)) ||
      exists took, got :: PeerStep(s, s', took, got)
    ensures s'.d.writeData == s.d.writeData && s'.log.written == s.log.written
  {
    hide Faulty, PeerRound, CrcOk, T;
  }

  lemma StepImage(s: Sys, s': Sys)
    requires Inv(s) && s.d.writeData == Image(s.log.written) && Next(s, s')
    ensures s'.d.writeData == Image(s'.log.written)
  {
    hide Inv, RunStep, PeerStep, TimeoutStep, DeliverStep, FaultStep, LocalStep, WritePdStep, Image;
    if env: Env :| RunStep(s, s', env) {
      RunImage(s, s', env);
    } else if data: PdBuffer :| WritePdStep(s, s', data) {
      WriteImage(s, s', data);
    } else if LocalStep(s, s') {
      LocalImage(s, s');
    } else {
      LineImage(s, s');
    }
  }

  /** In every run the write buffer holds what the application wrote. */
  lemma {:induction false} BufferIsImage(run: seq<Sys>, i: nat)
    requires Execution(run) && i < |run|
    ensures run[i].d.writeData == Image(run[i].log.written)
    decreases i
  {
    hide Inv, Next, Image;
    if i == 0 {
      FirstImage(run[0]);
    } else {
      BufferIsImage(run, i - 1);
      RunKeeps(run, i - 1);
      StepImage(run[i - 1], run[i - 1 + 1]);
    }
  }

  lemma FirstImage(s: Sys)
    requires Init(s)
    ensures s.d.writeData == Image(s.log.written)
  {
  }

  function Min(a: nat, b: nat): nat { if a <= b then a else b }

  lemma ImageEndsInLast(written: seq<PdBlock>, n: nat)
    requires written != [] && n <= MAX_PD
    ensures
      var last := written[|written| - 1];
      var k := Min(n, |last|);
      Image(written)[..n][..k] == last[..k]
  {
    var last := written[|written| - 1];
    var rest := Image(written[..|written| - 1]);
    assert Image(written) == last + rest[|last|..];
  }

  /** In every run in which the link machine is never run on a silently growing remap, for any interleaving of writes,
      telegrams, losses and messages: each new telegram sent in the RUN state outside a write remap carries exactly
      what the application wrote last, and behind it, should the area have grown since, what it wrote before. */
  lemma LatestDataSent(run: seq<Sys>, i: nat, env: Env)
    requires Execution(run) && i + 1 < |run| && NeverGrowsSilently(run, i + 1)
    requires RunStep(run[i], run[i + 1], env) && run[i + 1].n > run[i].n
    ensures
      var d, written := run[i + 1].d, run[i + 1].log.written;
      var sent := PdField(Telegram(d));
      d.a.state == IN_RUN && !d.a.remapWrite ==>
        sent == Image(written)[..d.a.writePdLen] &&
        (written != [] ==>
          var last := written[|written| - 1];
          var k := Min(|sent|, |last|);
          sent[..k] == last[..k])
  {
    FreshDataSent(run, i, env);
    hide Inv, GrowsSilently, Run, Execution, Telegram, Area, PdField, Image, NeverGrowsSilently;
    BufferIsImage(run, i + 1);
    var d, written := run[i + 1].d, run[i + 1].log.written;
    if written != [] {
      ImageEndsInLast(written, d.a.writePdLen);
    }
  }

  lemma FreshDataSent(run: seq<Sys>, i: nat, env: Env)
    requires Execution(run) && i + 1 < |run| && NeverGrowsSilently(run, i + 1)
    requires RunStep(run[i], run[i + 1], env) && run[i + 1].n > run[i].n
    ensures
      var d := run[i + 1].d;
      d.a.state == IN_RUN && !d.a.remapWrite ==> PdField(Telegram(d)) == d.writeData[..d.a.writePdLen]
  {
    hide Inv, GrowsSilently, Run, Execution, Telegram, Area, PdField;
    RunsCoherent(run, i);
    RunsBegin(run[i]);
    assert Runs(run[i], run[i + 1]);
    RunIsCoherent(run[i].d, env);
  }
}

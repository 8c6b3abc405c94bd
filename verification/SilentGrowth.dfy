/** The exception to the process data's coherence, exactly: a write remap that lets the area grow while the flag is
    clear. What lies behind the old data then goes out as process data, the checksum of the previous telegram first. */
module SilentGrowth {
  import opened Abp
  import opened Options
  import opened DriverSpec
  import opened Fragments
  import opened Rounds
  import opened LinkSystem
  import opened ExactlyOnce
  import opened ProcessData
  import Recovery

  // ---- the length of the telegram ---------------------------------------------------------------

  /** While the driver waits for an answer, the telegram is as long as its process data says. */
  predicate Sized(d: Drv) { d.l.st == WAIT_FOR_TELEGRAM ==> d.l.serialWrite == OVERHEAD + d.l.pdWriteLen }

  lemma SendSized(d: Drv, withMessage: bool, env: Env)
    ensures Sized(Send(d, withMessage, env))
  {
    hide Headed, PutProcessData, Seal, Send;
    SendParts(d, withMessage, env);
    var d1 := PutProcessData(Headed(d, withMessage, env));
    SealFacts(d1);
  }

  lemma RunIdleSized(d: Drv, env: Env, out: Out)
    ensures Sized(RunIdle(d, env, out).0)
  {
    hide Send, Select, Sized;
    var d1 := Select(d).0;
    SendSized(d1, d1.l.st == SEND_WITH_MESSAGE, env);
  }

  lemma RunProcessSized(d: Drv, env: Env)
    requires d.l.st == PROCESS_TELEGRAM
    ensures Sized(RunProcess(d, env, QUIET).0)
  {
    if Blocked(d) {
      BlockedReturns(d, env);
    } else {
      hide Incoming, Outgoing, RunIdle, RunProcess, Send, Blocked, Sized;
      RunProcessParts(d, env);
      var (d1, got) := Incoming(d, env);
      var (d2, done) := Outgoing(d1);
      RunIdleSized(d2, env, QUIET.(got := got, done := done));
      SendSized(d2, d2.l.st == SEND_WITH_MESSAGE, env);
    }
  }

  lemma RunSized(d: Drv, env: Env)
    requires Sized(d) && d.l.st in {INIT, INITIAL_HANDSHAKE, WAIT_FOR_TELEGRAM, PROCESS_TELEGRAM}
    ensures Sized(Run(d, env, QUIET).0)
  {
    hide RunProcess, RunIdle, RunTimeouts, Accept, Accepts;
    match d.l.st {
      case WAIT_FOR_TELEGRAM =>
        AcceptState(d);
        RunProcessSized(Accept(d), env);
        Retransmits(d.(l := d.l.(received := false)));
      case PROCESS_TELEGRAM =>
        RunProcessSized(d, env);
      case _ =>
        var d0 := if d.l.st == INIT then d.(l := DoInit(d.l)) else d;
        RunIdleSized(d0.(l := d0.l.(st := IDLE)), env, QUIET);
    }
  }

  lemma LineSized(s: Sys, s': Sys)
    requires DeliverStep(s, s') || FaultStep(s, s') || exists t, w, h :: TimeoutStep(s, s', t, w, h)
    ensures Sized(s.d) ==> Sized(s'.d)
  {
    hide Faulty;
  }

  lemma StepSized(s: Sys, s': Sys)
    requires Inv(s) && Sized(s.d) && Next(s, s')
    ensures Sized(s'.d)
  {
    RunsBegin(s);
    hide Inv, LocalStep, PeerStep, Run, DeliverStep, FaultStep, TimeoutStep;
    if env: Env :| RunStep(s, s', env) {
      RunSized(s.d, env);
    } else if LocalStep(s, s') {
      LocalFrame(s, s');
    } else if took, got :| PeerStep(s, s', took, got) {
      PeerStepDriver(s, s', took, got);
    } else {
      LineSized(s, s');
    }
  }

  lemma {:induction false} RunsSized(run: seq<Sys>, i: nat)
    requires Execution(run) && i < |run|
    ensures Inv(run[i]) && Sized(run[i].d)
    decreases i
  {
    RunKeeps(run, i);
    hide Inv, Next;
    if i > 0 {
      hide Sized;
      RunsSized(run, i - 1);
      StepSized(run[i - 1], run[i - 1 + 1]);
    }
  }

  // ---- what lies behind the data ----------------------------------------------------------------

  /** The driver waits for the answer that completes a write remap. */
  predicate Completes(d: Drv) {
    d.l.st == WAIT_FOR_TELEGRAM && d.l.received && Accepts(d.l) && d.l.completeRemap && d.a.state == IN_RUN
  }

  /** The bytes between the old end of the area and the new one are the application's. */
  predicate AgreesBehind(d: Drv) {
    d.a.writePdLen <= d.a.newWritePdLen ==>
      d.tx[17 + d.a.writePdLen..17 + d.a.newWritePdLen] == d.writeData[d.a.writePdLen..d.a.newWritePdLen]
  }

  lemma JoinedAgree(a: Bytes, b: Bytes, n: nat, m: nat)
    requires n <= m <= |b| && 17 + m <= |a| && a[17..17 + n] == b[..n]
    ensures a[17..17 + m] == b[..m] <==> a[17 + n..17 + m] == b[n..m]
  {
    assert a[17..17 + m] == a[17..17 + n] + a[17 + n..17 + m] && b[..m] == b[..n] + b[n..m];
    assert a[17..17 + m][n..] == a[17 + n..17 + m] && b[..m][n..] == b[n..m];
  }

  /** State by state: completing a write remap keeps the flag's promise if and only if the flag is raised, or the area
      does not grow, or what lies behind the old data happens to be the application's. */
  lemma CompletionCoherence(d: Drv)
    requires Coherent(d) && Completes(d)
    ensures Coherent(Accept(d)) <==> d.a.newPd || d.a.newWritePdLen <= d.a.writePdLen || AgreesBehind(d)
  {
    hide Accepts;
    if d.a.newPd || d.a.newWritePdLen <= d.a.writePdLen {
      AcceptCoherent(d);
    } else {
      JoinedAgree(d.tx, d.writeData, d.a.writePdLen, d.a.newWritePdLen);
    }
  }

  /** Behind the data of a telegram lies its checksum. */
  lemma ChecksumBehind(s: Sys)
    requires Inv(s) && Sized(s.d) && s.d.l.st == WAIT_FOR_TELEGRAM
    ensures
      var n := 17 + s.d.l.pdWriteLen;
      s.d.tx[n..n + 2] == CrcBytes(s.d.tx[..n]) && PdField(Telegram(s.d)) == Area(s.d)
  {
    hide Parities, Lines, Forward, Backward, Orderly, M, T;
    var n: int := 17 + s.d.l.pdWriteLen;
    var tel := Telegram(s.d);
    assert CrcOk(tel) && |tel| == n + 2;
    assert tel[..n] == s.d.tx[..n] && tel[17..n] == s.d.tx[17..n];
    WordSplits(tel[n], tel[n + 1]);
    assert s.d.tx[n..n + 2] == [tel[n], tel[n + 1]];
  }

  // ---- the condition on lengths and flag --------------------------------------------------------

  /** A state with the protocol's invariant in which the driver completes a write remap from one length to another. */
  ghost predicate Completing(s: Sys, len: PdLength, newLen: PdLength, newPd: bool) {
    Inv(s) && Sized(s.d) && Coherent(s.d) && Completes(s.d) && s.d.a.writePdLen == len &&
    s.d.a.newWritePdLen == newLen && s.d.a.newPd == newPd
  }

  function Padded(tel: Bytes): (tx: TxBuffer)
    requires |tel| <= TELEGRAM
  {
    tel + Zeros(TELEGRAM - |tel|)
  }

  /** The first exchange of a running driver, completing a remap; the application's next byte is not the checksum's. */
  function Witness(len: PdLength, newLen: PdLength): Sys
    requires len < newLen
  {
    var tx := Padded(Recovery.Answer(0x80, Zeros(FRAG), OVERHEAD + len));
    var reply := Recovery.Answer(0x80, Zeros(FRAG), OVERHEAD);
    var data := Zeros(MAX_PD)[len := if tx[17 + len] == 0 then 1 else 0];
    var l := Link(WAIT_FOR_TELEGRAM, 0x80, 0, 0, false, None, 0, true, reply, false, false, false, false, true, 0, len,
                  OVERHEAD, OVERHEAD + len);
    var a := Ap(Limits(1, 1), IN_RUN, [], [], [], 0, 0, 0, 0, 0, 0, len, newLen, false, true, false);
    Sys(Drv(l, a, tx, Zeros(MAX_MESSAGE), data), Peer(true, reply, None, Rx(Zeros(MAX_MESSAGE), 0, false), false), [],
        [], 1, 1, 1, 0, Log([], [], [], [], [], [], [], []))
  }

  lemma WitnessBits()
    ensures T(0x80) && !M(0x80) && !T(0) && !M(0)
  {
  }

  lemma WitnessTelegram(len: PdLength, newLen: PdLength)
    requires len < newLen
    ensures
      var s := Witness(len, newLen);
      CrcOk(Telegram(s.d)) && Telegram(s.d)[0] == 0x80 && CrcOk(s.d.l.rx) && s.d.l.rx[0] == 0x80 &&
      Area(s.d) == Zeros(len) == s.d.writeData[..len] && !AgreesBehind(s.d)
  {
    hide CrcOk, CrcBytes, FragmentOf;
    var s := Witness(len, newLen);
    var n: int := len;
    Recovery.AnswerParts(0x80, Zeros(FRAG), OVERHEAD + len);
    Recovery.AnswerParts(0x80, Zeros(FRAG), OVERHEAD);
    assert Telegram(s.d) == Recovery.Answer(0x80, Zeros(FRAG), OVERHEAD + len);
    var body := [0x80] + Zeros(FRAG) + Zeros(n);
    assert Telegram(s.d)[..17 + n] == body && s.d.tx[17..17 + n] == body[17..] == Zeros(n);
    assert s.d.tx[17 + n..17 + newLen][0] == s.d.tx[17 + n] && s.d.writeData[n..newLen][0] == s.d.writeData[n];
  }

  lemma WitnessInv(len: PdLength, newLen: PdLength)
    requires len < newLen
    ensures Inv(Witness(len, newLen))
  {
    WitnessBits();
    WitnessTelegram(len, newLen);
    var s := Witness(len, newLen);
    hide CrcOk, T, M, FragmentOf, Telegram, AgreesBehind, Area, Padded, Recovery.Answer;
    assert Arriving(s) == [Item(1, s.p.reply)];
    assert Lines(s) && Parities(s) && Exchanging(s);
    assert Forward(s) && Backward(s) && Orderly(s);
  }

  /** For any two lengths and either state of the flag: completing a write remap keeps the flag's promise in every
      state with the protocol's invariant, if and only if the flag is raised or the area does not grow. */
  lemma RemapCoherence(len: PdLength, newLen: PdLength, newPd: bool)
    ensures
      (forall s :: Completing(s, len, newLen, newPd) ==> Coherent(Accept(s.d))) <==> newPd || newLen <= len
  {
    hide Inv, Coherent, AgreesBehind, Accept, Witness;
    if newPd || newLen <= len {
      forall s | Completing(s, len, newLen, newPd)
        ensures Coherent(Accept(s.d))
      {
        CompletionCoherence(s.d);
      }
    } else {
      var s := Witness(len, newLen);
      WitnessInv(len, newLen);
      WitnessTelegram(len, newLen);
      WitnessCompletes(len, newLen);
      CompletionCoherence(s.d);
      assert Completing(s, len, newLen, newPd);
    }
  }

  lemma WitnessCompletes(len: PdLength, newLen: PdLength)
    requires len < newLen
    ensures
      var s := Witness(len, newLen);
      Sized(s.d) && Coherent(s.d) && Completes(s.d) && s.d.a.writePdLen == len && s.d.a.newWritePdLen == newLen &&
      !s.d.a.newPd
  {
    WitnessBits();
    WitnessTelegram(len, newLen);
    hide CrcOk, T, Padded, Recovery.Answer, Area, AgreesBehind;
  }

  // ---- what goes out ----------------------------------------------------------------------------

  /** With the flag clear the area goes out as it is. */
  lemma StaleAreaSent(d: Drv, withMessage: bool, env: Env)
    requires !d.a.newPd
    ensures PdField(Telegram(Send(d, withMessage, env))) == Area(d)
  {
    hide Headed, Area, Seal, Send, Telegram, PdField;
    SendParts(d, withMessage, env);
    HeadedArea(d, withMessage, env);
    var d3 := Headed(d, withMessage, env);
    SealCoherent(d3);
    SameState(Seal(d3));
  }

  /** The answer completes the acknowledgement of the setup, which starts the process data anew. */
  predicate SetsUp(d: Drv) { !M(d.l.cur) && M(d.l.last) && IsSetupAck(MessageIn(d.inBuf)) }

  /** Nothing on the way to the next telegram touches the area or the flag. */
  predicate AreaKept(d: Drv, d1: Drv) {
    d1.tx == d.tx && d1.l.pdWriteLen == d.l.pdWriteLen && d1.a.newPd == d.a.newPd && d1.a.state == d.a.state &&
    d1.a.writePdLen == d.a.writePdLen
  }

  lemma IncomingKeepsArea(d: Drv, env: Env)
    requires !Blocked(d) && !SetsUp(d)
    ensures AreaKept(d, Incoming(d, env).0)
  {
    hide StoreFragment, MessageIn, FragmentOf, M, IsSetupAck, IsCommand, Blocked;
  }

  lemma OutgoingKeepsArea(d: Drv)
    requires d.a.state == IN_RUN && d.l.pdWriteLen == d.a.writePdLen
    ensures AreaKept(d, Outgoing(d).0)
  {
    hide CompletedLink, CompletedAp, FragCount;
    if Finished(d.l.wr) {
      CompletedSizes(d.l.(last := d.l.cur), d.a, d.l.wr.value.msg);
    }
  }

  lemma SelectKeepsArea(d: Drv)
    ensures AreaKept(d, Select(d).0)
  {
    hide Choice, FragCount, SizesFit;
  }

  /** The telegram that follows carries the area as it stood. */
  lemma ProcessSendsArea(d: Drv, env: Env)
    requires !Blocked(d) && !SetsUp(d) && d.a.state == IN_RUN && d.l.pdWriteLen == d.a.writePdLen && !d.a.newPd
    ensures PdField(Telegram(RunProcess(d, env, QUIET).0)) == Area(d)
  {
    hide RunProcess, Incoming, Outgoing, Select, Send, Telegram, PdField, Blocked, SetsUp;
    RunProcessParts(d, env);
    IncomingKeepsArea(d, env);
    var d1 := Incoming(d, env).0;
    OutgoingKeepsArea(d1);
    var d2 := Outgoing(d1).0;
    if d2.l.st == IDLE {
      SelectKeepsArea(d2);
      var d3 := Select(d2).0;
      StaleAreaSent(d3, d3.l.st == SEND_WITH_MESSAGE, env);
    } else {
      StaleAreaSent(d2, d2.l.st == SEND_WITH_MESSAGE, env);
    }
  }

  lemma GrownArea(d: Drv)
    requires GrowsSilently(d) && Sized(d) && d.l.pdWriteLen == d.a.writePdLen
    requires d.a.newWritePdLen >= d.a.writePdLen + 2
    ensures |Area(Accept(d))| == d.a.newWritePdLen && Area(Accept(d))[..d.a.writePdLen + 2] == Telegram(d)[17..]
    ensures Accept(d).a.state == IN_RUN && !Accept(d).a.newPd && Accept(d).l.pdWriteLen == Accept(d).a.writePdLen
  {
    hide Accepts;
    var n: int, m: int := d.a.writePdLen, d.a.newWritePdLen;
    assert d.tx[17..17 + m][..n + 2] == d.tx[17..17 + n + 2];
    assert d.tx[..19 + n][17..] == d.tx[17..19 + n];
  }

  lemma RunStepEnds(s: Sys, s': Sys, env: Env)
    requires RunStep(s, s', env)
    ensures s'.d == Run(s.d, env, QUIET).0
  {
    hide Run, Telegram;
  }

  /** A telegram ends with its checksum. */
  lemma ChecksumSplit(s: Sys)
    requires Inv(s) && Sized(s.d) && s.d.l.st == WAIT_FOR_TELEGRAM
    ensures
      var n, tel := s.d.l.pdWriteLen, Telegram(s.d);
      |tel| == 19 + n && tel[17 + n..] == CrcBytes(tel[..17 + n])
  {
    ChecksumBehind(s);
    hide Inv, CrcBytes;
    var n: int, d := s.d.l.pdWriteLen, s.d;
    assert Telegram(d)[..17 + n] == d.tx[..17 + n] && Telegram(d)[17 + n..] == d.tx[17 + n..19 + n];
  }

  /** The new telegram's process data is the old telegram's, followed by the old telegram's checksum. */
  predicate SendsChecksum(d: Drv, d1: Drv) {
    var n, m := d.a.writePdLen, d.a.newWritePdLen;
    var sent := PdField(Telegram(d1));
    n + 2 <= m == |sent| && 17 + n <= |Telegram(d)| && sent[..n] == PdField(Telegram(d)) &&
    sent[n..n + 2] == CrcBytes(Telegram(d)[..17 + n])
  }

  lemma SentParts(tel: RxTelegram, sent: Bytes, n: nat)
    requires |tel| == 19 + n && n + 2 <= |sent| && sent[..n + 2] == tel[17..]
    ensures sent[..n] == PdField(tel) && sent[n..n + 2] == tel[17 + n..]
  {
    assert sent[..n] == sent[..n + 2][..n] && sent[n..n + 2] == sent[..n + 2][n..n + 2];
  }

  lemma GrowthSends(s: Sys, env: Env)
    requires Inv(s) && Sized(s.d) && GrowsSilently(s.d) && s.d.l.pdWriteLen == s.d.a.writePdLen
    requires s.d.a.newWritePdLen >= s.d.a.writePdLen + 2 && !Blocked(Accept(s.d)) && !SetsUp(Accept(s.d))
    ensures SendsChecksum(s.d, Run(s.d, env, QUIET).0)
  {
    var d := s.d;
    ChecksumSplit(s);
    GrownArea(d);
    assert d.l.st == WAIT_FOR_TELEGRAM && d.l.received && Accepts(d.l);
    hide Inv, Run, RunProcess, Blocked, SetsUp, Accepts, Accept, CrcBytes, Area, Telegram, PdField, Sized,
      GrowsSilently;
    AcceptedRun(d, env);
    ProcessSendsArea(Accept(d), env);
    SentParts(Telegram(d), PdField(Telegram(Run(d, env, QUIET).0)), d.a.writePdLen);
  }

  /** In every run of the system: the telegram sent on a silent growth by two bytes or more carries, as process data,
      the old data and then the checksum of the telegram before it. */
  lemma ChecksumSentAsData(run: seq<Sys>, i: nat, env: Env)
    requires Execution(run) && i + 1 < |run| && RunStep(run[i], run[i + 1], env) && GrowsSilently(run[i].d)
    requires Coherent(run[i].d) && run[i].d.a.newWritePdLen >= run[i].d.a.writePdLen + 2
    requires !Blocked(Accept(run[i].d)) && !SetsUp(Accept(run[i].d))
    ensures SendsChecksum(run[i].d, run[i + 1].d)
  {
    RunsSized(run, i);
    GrowingLength(run[i].d);
    hide Inv, Execution, RunStep, Run, Blocked, SetsUp, SendsChecksum, GrowsSilently, Accept, Coherent;
    RunStepEnds(run[i], run[i + 1], env);
    GrowthSends(run[i], env);
  }

  lemma GrowingLength(d: Drv)
    requires Coherent(d) && GrowsSilently(d)
    ensures d.l.pdWriteLen == d.a.writePdLen
  {
  }
}

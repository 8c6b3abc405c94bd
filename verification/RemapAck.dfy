/** What the acknowledgement of a remap command does on its way through the driver: sent by the application it holds
    back process data, completed it announces the new length, and the next accepted telegram makes the switch. */
module RemapAck {
  import opened Abp
  import opened Options
  import opened DriverSpec
  import opened Fragments
  import opened Rounds
  import opened LinkSystem
  import opened ExactlyOnce
  import opened EndToEnd
  import opened ProcessData
  import opened Messages
  import opened Sizes
  import opened Credits

  // ---- completing it ----------------------------------------------------------------------------

  /** A completed acknowledgement of a write remap: the switch is due, to the length announced. */
  lemma WriteAckCompleted(l: Link, a: Ap, m: OutMsg)
    requires WriteAck(m)
    ensures 0 <= Announced(m) <= 256
    ensures CompletedLink(l, a, m) == l.(completeRemap := true)
    ensures
      var a1 := CompletedAp(a, m);
      a1 == a.(nFrom := a1.nFrom, rspUsed := a1.rspUsed, newWritePdLen := Announced(m))
  {
    AckBytes(m);
    assert SizesFit(m);
    hide IsRemapAck, AckLengthValue, IsCommand;
  }

  /** Of a read remap: the switch is made, for the line too. */
  lemma ReadAckCompleted(l: Link, a: Ap, m: OutMsg)
    requires ReadAck(m)
    ensures 0 <= Announced(m) <= 256
    ensures
      CompletedLink(l, a, m) ==
        l.(serialRead := Announced(m) + 19, pdReadLen := Announced(m), pdWriteLen := a.writePdLen)
    ensures
      var a1 := CompletedAp(a, m);
      a1 == a.(nFrom := a1.nFrom, rspUsed := a1.rspUsed, readPdLen := Announced(m), remapRead := false)
  {
    AckBytes(m);
    assert SizesFit(m);
    hide IsRemapAck, AckLengthValue, IsCommand;
  }

  /** Of anything else: nothing but the buffer, and a response's credit, is given back. */
  lemma OthersCompleted(l: Link, a: Ap, m: OutMsg)
    requires !WriteAck(m) && !ReadAck(m)
    ensures CompletedLink(l, a, m) == l
    ensures
      var a1 := CompletedAp(a, m);
      a1 == a.(nFrom := a1.nFrom, rspUsed := a1.rspUsed, cmdUsed := a1.cmdUsed)
  {
    AckBytes(m);
    hide IsRemapAck, AckLengthValue, IsCommand;
  }

  // ---- sending it -------------------------------------------------------------------------------

  lemma PostKeepsRemap(a: Ap, m: OutMsg)
    ensures
      var a1 := AddFragAndPost(a, m).0;
      a1.remapWrite == a.remapWrite && a1.remapRead == a.remapRead && a1.newWritePdLen == a.newWritePdLen
  {
    hide IsCommand, FragCount, SizesFit;
  }

  /** Sent in a run state with a buffer free, it holds back process data until the switch. */
  lemma SendHoldsBack(a: Ap, m: OutMsg)
    ensures
      var a1 := SendMessage(a, m).0;
      var sent := a.state != IN_CONFIGURATION && CanAllocate(a, m);
      a1.remapWrite == (a.remapWrite || (sent && HoldsBack(m, 0x13))) &&
      a1.remapRead == (a.remapRead || (sent && HoldsBack(m, 0x14))) && a1.newWritePdLen == a.newWritePdLen
  {
    CodeByte(m[4], 0x13);
    CodeByte(m[4], 0x14);
    PostKeepsRemap(Allocated(a, m).(remapWrite := a.remapWrite || LooksLikeRemapAck(m, REMAP_WRITE),
                                    remapRead := a.remapRead || LooksLikeRemapAck(m, REMAP_READ)), m);
    hide AddFragAndPost, IsCommand;
  }

  // ---- the switch -------------------------------------------------------------------------------

  /** An accepted telegram makes the switch that is due, for the telegram and for the application. */
  lemma SwitchMade(d: Drv)
    ensures
      var d1 := Accept(d);
      d1.a == (if d.l.completeRemap then d.a.(writePdLen := d.a.newWritePdLen, remapWrite := false) else d.a) &&
      d1.l.pdWriteLen == (if d.l.completeRemap then d.a.newWritePdLen else d.l.pdWriteLen) &&
      d1.l.pdReadLen == (if d.l.completeRemap then d.a.readPdLen else d.l.pdReadLen) &&
      d1.l.serialRead == (if d.l.completeRemap then d.a.readPdLen + 19 else d.l.serialRead) && !d1.l.completeRemap
  {
  }

  // ---- over a round -----------------------------------------------------------------------------

  /** The remap's part of the state: whether the switch is due, whether process data is held back, the length switched
      to, and the length in force. */
  datatype Part = Part(due: bool, held: bool, len: PdLength, inForce: PdLength)

  function PartOf(d: Drv): Part { Part(d.l.completeRemap, d.a.remapWrite, d.a.newWritePdLen, d.a.writePdLen) }

  /** What accepting a telegram makes of it. */
  function Switched(p: Part): Part { if p.due then Part(false, false, p.len, p.len) else p }

  /** What delivering these messages makes of it. */
  function Restarted(p: Part, got: seq<Msg>, env: Env): Part {
    if StartsData(got) then p.(inForce := env.writeSize) else p
  }

  /** What completing these messages makes of it. */
  function Completing(p: Part, done: seq<Msg>): Part {
    if done != [] && WriteAck(done[0]) && Announced(done[0]) <= MAX_PD then p.(due := true, len := Announced(done[0]))
    else p
  }

  lemma DeliveredPart(d: Drv, m: Msg, env: Env)
    ensures PartOf(MessageReceived(d, m, env)) == Restarted(PartOf(d), [m], env)
  {
    ReceivedPart(d, m, env);
    var got := [m];
    if SetupAnswered(m) {
      SetupStarts(d, m, env);
      assert got[0] == m;
    } else {
      OthersDoNotStart(d, m, env);
    }
    hide MessageReceived, SetupAnswered;
  }

  lemma NothingDelivered(p: Part, env: Env)
    ensures Restarted(p, [], env) == p
  {
  }

  lemma IncomingPart(d: Drv, env: Env)
    requires !Blocked(d)
    ensures var (d1, got) := Incoming(d, env); PartOf(d1) == Restarted(PartOf(d), got, env)
  {
    hide StoreFragment, FragmentOf, M, Blocked, MessageReceived, MessageIn, Restarted;
    NothingDelivered(PartOf(d), env);
    DeliveredPart(d.(a := d.a.(inUsed := d.a.inUsed + 1)), MessageIn(d.inBuf), env);
  }

  lemma ReceivedPart(d: Drv, m: Msg, env: Env)
    ensures
      var d1 := MessageReceived(d, m, env);
      PartOf(d1) == PartOf(d).(inForce := d1.a.writePdLen)
  {
    hide IsSetupAck, IsCommand;
  }

  lemma CompletedPart(l: Link, a: Ap, m: OutMsg, p: Part)
    requires p == Part(l.completeRemap, a.remapWrite, a.newWritePdLen, a.writePdLen)
    ensures
      var a1 := CompletedAp(a, m);
      Part(CompletedLink(l, a, m).completeRemap, a1.remapWrite, a1.newWritePdLen, a1.writePdLen) == Completing(p, [m])
  {
    if WriteAck(m) {
      WriteAckCompleted(l, a, m);
    } else if ReadAck(m) {
      ReadAckCompleted(l, a, m);
    } else {
      OthersCompleted(l, a, m);
    }
    hide CompletedLink, CompletedAp;
  }

  lemma OutgoingPart(d: Drv)
    ensures var (d1, done) := Outgoing(d); PartOf(d1) == Completing(PartOf(d), done)
  {
    hide CompletedLink, CompletedAp, FragCount, SizesFit, Completing;
    if Finished(d.l.wr) {
      CompletedPart(d.l.(last := d.l.cur), d.a, d.l.wr.value.msg, PartOf(d));
    } else {
      NothingCompleted(PartOf(d));
    }
  }

  lemma NothingCompleted(p: Part)
    ensures Completing(p, []) == p
  {
  }

  lemma SelectKeepsPart(d: Drv)
    ensures PartOf(Select(d).0) == PartOf(d)
  {
    hide Choice, FragCount, SizesFit, Fragmented, WellFormed;
    match Choice(d.l, d.a) {
      case PickCommand =>
      case PickResponse =>
      case PickNothing =>
    }
  }

  lemma SendKeepsPart(d: Drv, withMessage: bool, env: Env)
    ensures PartOf(Send(d, withMessage, env)) == PartOf(d)
  {
    SendFrame(d, withMessage, env);
    hide Send;
  }

  lemma IdleKeepsPart(d: Drv, env: Env, out: Out)
    ensures
      var (d1, out1) := RunIdle(d, env, out);
      PartOf(d1) == PartOf(d) && out1.done == out.done && out1.got == out.got
  {
    hide Send, Select;
    SelectKeepsPart(d);
    var d1 := Select(d).0;
    SendKeepsPart(d1, d1.l.st == SEND_WITH_MESSAGE, env);
  }

  lemma ProcessPart(d: Drv, env: Env)
    requires !Blocked(d)
    ensures
      var (d1, out) := RunProcess(d, env, QUIET);
      PartOf(d1) == Completing(Restarted(PartOf(d), out.got, env), out.done)
  {
    hide RunProcess, RunIdle, Incoming, Outgoing, Send, Blocked, PartOf, Completing, Restarted, Telegram;
    RunProcessParts(d, env);
    IncomingPart(d, env);
    var (d1, got) := Incoming(d, env);
    OutgoingPart(d1);
    var (d2, done) := Outgoing(d1);
    var out0 := QUIET.(got := got, done := done);
    IdleKeepsPart(d2, env, out0);
    SendKeepsPart(d2, d2.l.st == SEND_WITH_MESSAGE, env);
  }

  // ---- over whole runs --------------------------------------------------------------------------

  lemma AcceptedPart(d: Drv)
    ensures PartOf(Accept(d)) == Switched(PartOf(d))
  {
    SwitchMade(d);
    hide Accept;
  }

  /** In every disciplined run, what a new telegram of the driver leaves of a remap: the switch that was due has been
      made, to the length announced; an acknowledgement completed with it makes the next one due; and only the module's
      answer to "setup complete" sets the length otherwise. */
  lemma RemapProgress(run: seq<Sys>, i: nat, env: Env)
    requires DisciplinedExecution(run) && i + 1 < |run| && RunStep(run[i], run[i + 1], env)
    requires run[i + 1].n > run[i].n > 0
    ensures
      var s, s' := run[i], run[i + 1];
      s.log.got <= s'.log.got && s.log.done <= s'.log.done &&
      var got, done := s'.log.got[|s.log.got|..], s'.log.done[|s.log.done|..];
      PartOf(s'.d) == Completing(Restarted(Switched(PartOf(s.d)), got, env), done)
  {
    RunKeepsAllCredits(run, i);
    RunKeepsAllCredits(run, i + 1);
    hide DisciplinedExecution, Queued, Counters, Pools, Promises;
    NewTelegramPart(run[i], run[i + 1], env);
  }

  lemma NewTelegramPart(s: Sys, s': Sys, env: Env)
    requires Inv(s) && s.d.l.st != PROCESS_TELEGRAM && s'.d.l.st != PROCESS_TELEGRAM
    requires RunStep(s, s', env) && s'.n > s.n > 0
    ensures s.log.got <= s'.log.got && s.log.done <= s'.log.done
    ensures
      var got, done := s'.log.got[|s.log.got|..], s'.log.done[|s.log.done|..];
      PartOf(s'.d) == Completing(Restarted(Switched(PartOf(s.d)), got, env), done)
  {
    WaitsAfterFirst(s);
    NewIsAccepted(s, s', env);
    hide Inv, Run, RunProcess, Accepts, Accept, PartOf, Completing, Restarted, Switched, Telegram, Blocked;
    AcceptedRun(s.d, env);
    AcceptState(s.d);
    BlockedUnchanged(Accept(s.d), env);
    ProcessPart(Accept(s.d), env);
    AcceptedPart(s.d);
    var (d, out) := Run(s.d, env, QUIET);
    assert s'.log.got[|s.log.got|..] == out.got && s'.log.done[|s.log.done|..] == out.done;
  }

  lemma BlockedUnchanged(d: Drv, env: Env)
    ensures Blocked(d) ==> RunProcess(d, env, QUIET).0 == d
  {
  }

  lemma WaitsAfterFirst(s: Sys)
    requires Inv(s) && s.n > 0 && s.d.l.st != PROCESS_TELEGRAM
    ensures s.d.l.st == WAIT_FOR_TELEGRAM
  {
    hide CrcOk, T, M, Parities, Lines, Forward, Backward, Orderly;
  }

  lemma NewIsAccepted(s: Sys, s': Sys, env: Env)
    requires s.d.l.st == WAIT_FOR_TELEGRAM && RunStep(s, s', env) && s'.n > s.n
    ensures s.d.l.received && Accepts(s.d.l)
  {
    hide Accepts, RunTimeouts, RunProcess, Telegram;
    Retransmits(s.d.(l := s.d.l.(received := false)));
  }
}

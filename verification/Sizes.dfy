/** How the driver comes to exchange process data: only the module's answer to "setup complete" starts it, and as long
    as the application acknowledges no remap, only such an answer changes the sizes. */
module Sizes {
  import opened Abp
  import opened Options
  import opened DriverSpec
  import opened Rounds
  import opened LinkSystem
  import opened ExactlyOnce
  import opened EndToEnd
  import opened ProcessData
  import opened Messages

  // ---- the message that starts the process data -------------------------------------------------

  /** Delivering the answer to "setup complete": the two sizes are the application's, the line expects as much, the
      flag is raised, and out of RUN_NO_PD the driver runs. */
  lemma SetupStarts(d: Drv, m: Msg, env: Env)
    requires SetupAnswered(m)
    ensures
      var d1 := MessageReceived(d, m, env);
      d1.a.readPdLen == env.readSize && d1.a.writePdLen == env.writeSize && d1.l.pdReadLen == env.readSize &&
      d1.l.pdWriteLen == env.writeSize && d1.l.serialRead == env.readSize + 19 && d1.a.newPd &&
      d1.a.state == (if d.a.state == IN_RUN_NO_PD then IN_RUN else d.a.state)
  {
    SetupBytes(m);
  }

  /** Delivering any other message touches none of that. */
  lemma OthersDoNotStart(d: Drv, m: Msg, env: Env)
    requires !SetupAnswered(m)
    ensures
      var d1 := MessageReceived(d, m, env);
      d1.l == d.l && d1.a.state == d.a.state && d1.a.readPdLen == d.a.readPdLen && d1.a.writePdLen == d.a.writePdLen &&
      d1.a.newPd == d.a.newPd
  {
    SetupBytes(m);
    hide IsSetupAck, IsCommand;
  }

  // ---- configuring ------------------------------------------------------------------------------

  predicate Configuring(a: Ap) { a.state == IN_CONFIGURATION }

  lemma SendKeepsState(d: Drv, withMessage: bool, env: Env)
    ensures Send(d, withMessage, env).a.state == d.a.state
  {
    SendFrame(d, withMessage, env);
    hide Send;
  }

  lemma ProcessKeepsState(d: Drv, env: Env)
    ensures Configuring(RunProcess(d, env, QUIET).0.a) <==> Configuring(d.a)
  {
    if Blocked(d) {
      BlockedReturns(d, env);
    } else {
      hide RunProcess, Incoming, Outgoing, Select, Send, Blocked;
      RunProcessParts(d, env);
      IncomingState(d, env);
      var (d1, got) := Incoming(d, env);
      OutgoingKeepsState(d1);
      var (d2, done) := Outgoing(d1);
      IdleKeepsState(d2, env, QUIET.(got := got, done := done));
      SendKeepsState(d2, d2.l.st == SEND_WITH_MESSAGE, env);
    }
  }

  lemma IncomingState(d: Drv, env: Env)
    requires !Blocked(d)
    ensures Configuring(Incoming(d, env).0.a) <==> Configuring(d.a)
  {
    hide StoreFragment, MessageIn, FragmentOf, M, IsSetupAck, IsCommand, Blocked;
  }

  lemma OutgoingKeepsState(d: Drv)
    ensures Outgoing(d).0.a.state == d.a.state
  {
    hide CompletedLink, FragCount, IsCommand, IsRemapAck, AckLengthValue;
  }

  lemma IdleKeepsState(d: Drv, env: Env, out: Out)
    ensures RunIdle(d, env, out).0.a.state == d.a.state
  {
    hide Send, Choice;
    var d1 := Select(d).0;
    SendKeepsState(d1, d1.l.st == SEND_WITH_MESSAGE, env);
  }

  lemma RunKeepsState(d: Drv, env: Env)
    requires d.l.st in {INIT, INITIAL_HANDSHAKE, WAIT_FOR_TELEGRAM, PROCESS_TELEGRAM}
    ensures Configuring(Run(d, env, QUIET).0.a) <==> Configuring(d.a)
  {
    hide RunProcess, RunIdle, RunTimeouts, Accept, Accepts;
    match d.l.st {
      case WAIT_FOR_TELEGRAM =>
        AcceptFacts(d);
        ProcessKeepsState(Accept(d), env);
        Retransmits(d.(l := d.l.(received := false)));
      case PROCESS_TELEGRAM =>
        ProcessKeepsState(d, env);
      case _ =>
        var d0 := if d.l.st == INIT then d.(l := DoInit(d.l)) else d;
        IdleKeepsState(d0.(l := d0.l.(st := IDLE)), env, QUIET);
    }
  }

  // ---- no remap under way -----------------------------------------------------------------------

  predicate PlainMessage(m: Msg) { !LooksLikeRemapAck(m, REMAP_WRITE) && !LooksLikeRemapAck(m, REMAP_READ) }

  predicate PlainQueue(q: seq<OutBuf>) { forall i :: 0 <= i < |q| ==> PlainMessage(q[i].msg) }

  predicate Plain(d: Drv) {
    !d.l.completeRemap && !d.a.remapWrite && (d.l.wr.Some? ==> PlainMessage(d.l.wr.value.msg)) &&
    PlainQueue(d.a.cmdQ) && PlainQueue(d.a.rspQ)
  }

  predicate SameSizes(d: Drv, d1: Drv) {
    d1.a.readPdLen == d.a.readPdLen && d1.a.writePdLen == d.a.writePdLen && d1.l.pdWriteLen == d.l.pdWriteLen &&
    d1.l.serialRead == d.l.serialRead
  }

  predicate SetSizes(d: Drv, env: Env) {
    d.a.readPdLen == env.readSize && d.a.writePdLen == env.writeSize && d.l.pdWriteLen == env.writeSize &&
    d.l.serialRead == env.readSize + 19
  }

  /** The messages delivered include the one that starts the process data. */
  predicate StartsData(got: seq<Msg>) { exists i :: 0 <= i < |got| && SetupAnswered(got[i]) }

  /** What becomes of state and sizes when these messages are delivered. */
  predicate Follows(d: Drv, d1: Drv, got: seq<Msg>, env: Env) {
    Plain(d) ==>
      Plain(d1) &&
      (if StartsData(got) then
         SetSizes(d1, env) && d1.a.state == (if d.a.state == IN_CONFIGURATION then IN_CONFIGURATION else IN_RUN)
       else SameSizes(d, d1) && d1.a.state == d.a.state)
  }

  lemma FollowsNothing(d: Drv, d1: Drv, env: Env)
    requires Plain(d) ==> Plain(d1) && SameSizes(d, d1) && d1.a.state == d.a.state
    ensures Follows(d, d1, [], env)
  {
  }

  lemma FollowsJoined(d: Drv, d1: Drv, d2: Drv, got: seq<Msg>, more: seq<Msg>, env: Env)
    requires Follows(d, d1, got, env) && Follows(d1, d2, more, env)
    ensures Follows(d, d2, got + more, env)
  {
    hide Plain, SetupAnswered;
    if StartsData(got) {
      var i :| 0 <= i < |got| && SetupAnswered(got[i]);
      assert (got + more)[i] == got[i];
    }
    if StartsData(more) {
      var i :| 0 <= i < |more| && SetupAnswered(more[i]);
      assert (got + more)[|got| + i] == more[i];
    }
    if StartsData(got + more) {
      var i :| 0 <= i < |got + more| && SetupAnswered((got + more)[i]);
      assert (got + more)[i] == if i < |got| then got[i] else more[i - |got|];
    }
  }

  lemma IncomingFollows(d: Drv, env: Env)
    requires !Blocked(d)
    ensures var (d1, got) := Incoming(d, env); Follows(d, d1, got, env)
  {
    hide StoreFragment, FragmentOf, M, Blocked, PlainMessage, PlainQueue, SetupAnswered;
    var (d1, got) := Incoming(d, env);
    if M(d.l.cur) {
      FollowsNothing(d, d1, env);
    } else if M(d.l.last) {
      var m := MessageIn(d.inBuf);
      var d0 := d.(a := d.a.(inUsed := d.a.inUsed + 1));
      ReceivedPlain(d0, m, env);
      assert got == [m];
      if SetupAnswered(m) {
        SetupStarts(d0, m, env);
        assert got[0] == m;
      } else {
        OthersDoNotStart(d0, m, env);
      }
    } else {
      FollowsNothing(d, d1, env);
    }
  }

  lemma ReceivedPlain(d: Drv, m: Msg, env: Env)
    ensures
      var d1 := MessageReceived(d, m, env);
      d1.l.completeRemap == d.l.completeRemap && d1.a.remapWrite == d.a.remapWrite && d1.l.wr == d.l.wr &&
      d1.a.cmdQ == d.a.cmdQ && d1.a.rspQ == d.a.rspQ
  {
    hide IsSetupAck, IsCommand;
  }

  lemma OutgoingFollows(d: Drv, env: Env)
    ensures Follows(d, Outgoing(d).0, [], env)
  {
    var d1 := Outgoing(d).0;
    if Plain(d) && Finished(d.l.wr) {
      var m := d.l.wr.value.msg;
      assert PlainMessage(m);
      assert !IsRemapAck(m, REMAP_WRITE) && !IsRemapAck(m, REMAP_READ);
      hide PlainMessage, IsRemapAck, IsCommand;
    }
    hide PlainQueue, PlainMessage, IsRemapAck;
    FollowsNothing(d, d1, env);
  }

  lemma SelectFollows(d: Drv, env: Env)
    ensures Follows(d, Select(d).0, [], env)
  {
    hide PlainMessage, Choice;
    FollowsNothing(d, Select(d).0, env);
  }

  lemma SendFollows(d: Drv, withMessage: bool, env: Env)
    ensures Follows(d, Send(d, withMessage, env), [], env)
  {
    SendFrame(d, withMessage, env);
    hide PlainMessage, PlainQueue, Send;
    FollowsNothing(d, Send(d, withMessage, env), env);
  }

  lemma FragmentFrame(d: Drv, env: Env)
    ensures
      var d1 := PutFragment(d, env);
      d1.a == d.a && d1.l == d.l.(wr := d1.l.wr) && d1.l.wr.Some? == d.l.wr.Some? &&
      (d.l.wr.Some? ==> d1.l.wr.value.msg == d.l.wr.value.msg)
  {
    hide FragmentAt, Splice, FragCount, SizesFit;
  }

  lemma HeadedFrame(d: Drv, withMessage: bool, env: Env)
    ensures
      var d1 := Headed(d, withMessage, env);
      d1.a == d.a && d1.l == d.l.(ctrl := d1.l.ctrl, wr := d1.l.wr) && d1.l.wr.Some? == d.l.wr.Some? &&
      (d.l.wr.Some? ==> d1.l.wr.value.msg == d.l.wr.value.msg)
  {
    hide PutFragment, WithM, WithR, ToggleT, FreeCmdSlots, T, M, R, Splice, FragCount, SizesFit;
    var d0 := if withMessage then d else d.(tx := Splice(d.tx, 1, Zeros(FRAG)));
    var ctrl := ToggleT(WithR(WithM(d.l.ctrl, withMessage), FreeCmdSlots(d.a)));
    var d1 := d0.(l := d0.l.(ctrl := ctrl));
    FragmentFrame(d1.(tx := Splice(d1.tx, 0, [ctrl])), env);
  }

  lemma SendFrame(d: Drv, withMessage: bool, env: Env)
    ensures
      var d1 := Send(d, withMessage, env);
      d1.a == d.a.(newPd := d1.a.newPd) &&
      d1.l == d.l.(st := WAIT_FOR_TELEGRAM, ctrl := d1.l.ctrl, wr := d1.l.wr, serialWrite := d1.l.serialWrite) &&
      d1.l.wr.Some? == d.l.wr.Some? && (d.l.wr.Some? ==> d1.l.wr.value.msg == d.l.wr.value.msg)
  {
    SendParts(d, withMessage, env);
    HeadedFrame(d, withMessage, env);
    var d1 := Headed(d, withMessage, env);
    PutProcessDataFacts(d1);
    SealFacts(PutProcessData(d1));
    hide Send, Headed, Seal, PutProcessData, Telegram, CrcOk, CrcBytes, FragmentOf, FragCount, SizesFit;
  }

  lemma IdleFollows(d: Drv, env: Env, out: Out)
    ensures Follows(d, RunIdle(d, env, out).0, [], env)
  {
    hide Send, Select, Follows;
    SelectFollows(d, env);
    var d1 := Select(d).0;
    SendFollows(d1, d1.l.st == SEND_WITH_MESSAGE, env);
    FollowsJoined(d, d1, Send(d1, d1.l.st == SEND_WITH_MESSAGE, env), [], [], env);
    var none: seq<Msg> := [];
    assert none + none == none;
  }

  /** One accepted telegram processed: state and sizes follow what was delivered. */
  lemma ProcessFollows(d: Drv, env: Env)
    requires !Blocked(d)
    ensures var (d1, out) := RunProcess(d, env, QUIET); Follows(d, d1, out.got, env)
  {
    hide Follows, RunProcess, Incoming, Outgoing, Select, Send, Blocked, Telegram;
    RunProcessParts(d, env);
    IncomingFollows(d, env);
    var (d1, got) := Incoming(d, env);
    OutgoingFollows(d1, env);
    var (d2, done) := Outgoing(d1);
    FollowsJoined(d, d1, d2, got, [], env);
    var out0 := QUIET.(got := got, done := done);
    IdleFollows(d2, env, out0);
    SendFollows(d2, d2.l.st == SEND_WITH_MESSAGE, env);
    var d3 := RunProcess(d, env, QUIET).0;
    FollowsJoined(d, d2, d3, got + [], [], env);
    assert got + [] + [] == got;
  }
}

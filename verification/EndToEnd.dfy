/** From APLINK_SendMessage to the module and from the module to the application: the message queues around the link
    keep each kind of message in order and lose nothing, so exactly-once transfer holds end to end. */
module EndToEnd {
  import opened Abp
  import opened Options
  import opened DriverSpec
  import opened Fragments
  import opened Rounds
  import opened LinkSystem
  import opened ExactlyOnce

  // ---- filters ----------------------------------------------------------------------------------

  lemma FilterLast(s: seq<Msg>, m: Msg)
    ensures CommandsOf(s + [m]) == CommandsOf(s) + if IsCommand(m) then [m] else []
    ensures ResponsesOf(s + [m]) == ResponsesOf(s) + if IsCommand(m) then [] else [m]
  {
    hide IsCommand;
    assert (s + [m])[..|s|] == s;
  }

  lemma {:induction false} FilterAppend(s: seq<Msg>, t: seq<Msg>)
    ensures CommandsOf(s + t) == CommandsOf(s) + CommandsOf(t)
    ensures ResponsesOf(s + t) == ResponsesOf(s) + ResponsesOf(t)
    decreases |t|
  {
    hide IsCommand, CommandsOf, ResponsesOf;
    if t == [] {
      NoMessages();
      assert s + t == s;
    } else {
      var rest, m := t[..|t| - 1], t[|t| - 1];
      FilterAppend(s, rest);
      FilterLast(rest, m);
      FilterLast(s + rest, m);
      assert s + t == (s + rest) + [m] && t == rest + [m];
    }
  }

  lemma NoMessages()
    ensures CommandsOf([]) == [] && ResponsesOf([]) == []
  {
  }

  /** A prefix has no more of either kind. */
  lemma FilterPrefix(s: seq<Msg>, t: seq<Msg>)
    requires s <= t
    ensures CommandsOf(s) <= CommandsOf(t) && ResponsesOf(s) <= ResponsesOf(t)
    ensures Commands(s) <= Commands(t) && Responses(s) <= Responses(t)
  {
    assert t == s + t[|s|..];
    FilterAppend(s, t[|s|..]);
  }

  lemma {:induction false} FilterCount(s: seq<Msg>)
    ensures Commands(s) + Responses(s) == |s|
    decreases |s|
  {
    if s != [] {
      hide IsCommand;
      FilterCount(s[..|s| - 1]);
    }
  }

  // ---- the two outcomes of a run ----------------------------------------------------------------

  predicate SameAp(a: Ap, a1: Ap) { a1 == a.(writePdLen := a1.writePdLen, remapWrite := a1.remapWrite) }

  /** A run that moves no message: nothing new is sent. */
  predicate QuietRun(s: Sys, s': Sys) {
    SameAp(s.d.a, s'.d.a) && s'.d.l.wr == s.d.l.wr && s'.d.l.ctrl == s.d.l.ctrl &&
    s'.d.l.lastSentCmd == s.d.l.lastSentCmd && s'.log == s.log && s'.p == s.p && s'.n == s.n && s'.k == s.k &&
    s'.m == s.m
  }

  /** A run that completes a round, from the state d in which the answer was accepted. */
  ghost predicate RoundRun(s: Sys, s': Sys, d: Drv, out: Out) {
    SameAp(s.d.a, d.a) && d.l.wr == s.d.l.wr && d.l.lastSentCmd == s.d.l.lastSentCmd && Round(d, s'.d, out) &&
    s' == After(s, s'.d, out)
  }

  ghost predicate CompletesRound(s: Sys, s': Sys) { exists d, out :: RoundRun(s, s', d, out) }

  lemma AcceptIsSame(d: Drv)
    ensures SameAp(d.a, Accept(d).a) && Accept(d).l.wr == d.l.wr && Accept(d).l.ctrl == d.l.ctrl
    ensures Accept(d).l.lastSentCmd == d.l.lastSentCmd
  {
    AcceptFacts(d);
  }

  lemma AfterNothing(s: Sys, d: Drv, tel: Option<Bytes>)
    requires SameAp(s.d.a, d.a) && d.l.wr == s.d.l.wr && d.l.ctrl == s.d.l.ctrl
    requires d.l.lastSentCmd == s.d.l.lastSentCmd
    ensures QuietRun(s, After(s, d, QUIET.(tel := tel))) && After(s, d, QUIET.(tel := tel)).d == d
  {
    assert s.log.took + [] == s.log.took && s.log.got + [] == s.log.got && s.log.done + [] == s.log.done;
  }

  lemma ProcessIsEither(s: Sys, d: Drv, env: Env, s': Sys)
    requires Inv(s) && SameAp(s.d.a, d.a) && d.l.wr == s.d.l.wr && d.l.ctrl == s.d.l.ctrl
    requires d.l.lastSentCmd == s.d.l.lastSentCmd
    requires var (d1, out) := RunProcess(d, env, QUIET); s' == After(s, d1, out)
    ensures Blocked(d) ==> QuietRun(s, s') && s'.d == d
    ensures !Blocked(d) ==> CompletesRound(s, s')
  {
    if Blocked(d) {
      AfterNothing(s, d, None);
    } else {
      AcceptedQueues(s.d.a, d.a);
      var (d1, out) := RunProcess(d, env, QUIET);
      ProcessRound(d, env);
      assert RoundRun(s, s', d, out);
    }
  }

  /** No buffer for a message that is waiting to be delivered. */
  predicate OutOfBuffers(s: Sys) {
    s.d.a.inUsed >= s.d.a.lim.Inbound() && |s.log.ptook| == |s.log.got| + 1
  }

  lemma BlockedMeansWaiting(s: Sys, d: Drv)
    requires Inv(s) && !Starting(s) && Accepted(s, d) && SameAp(s.d.a, d.a) && Blocked(d)
    ensures OutOfBuffers(s)
  {
    hide CrcOk, FragmentOf, StoreFragment, MessageIn, Lines, Parities, Forward, Orderly, ChannelOk;
    assert !M(s.p.reply[0]) && RxSide(s.d).lastM;
  }

  lemma WaitIsEither(s: Sys, s': Sys, env: Env)
    requires Inv(s) && s.d.l.st == WAIT_FOR_TELEGRAM && RunStep(s, s', env)
    ensures CompletesRound(s, s') || (QuietRun(s, s') && (s'.d.l.st == PROCESS_TELEGRAM ==> OutOfBuffers(s)))
  {
    hide RunTimeouts, RunProcess, Accepts, Accept, Inv, After, Round, Blocked, QuietRun, SameAp;
    if s.d.l.received && Accepts(s.d.l) {
      var d := Accept(s.d);
      AcceptIsSame(s.d);
      AcceptsNewest(s);
      ProcessIsEither(s, d, env, s');
      if Blocked(d) {
        assert !Starting(s);
        BlockedMeansWaiting(s, d);
      }
    } else {
      var d := s.d.(l := s.d.l.(received := false));
      Retransmits(d);
      var (d1, out) := RunTimeouts(d, QUIET);
      assert SameAp(s.d.a, d1.a) by { SameApRefl(s.d.a); }
      AfterNothing(s, d1, out.tel);
      assert out == QUIET.(tel := out.tel);
      TimeoutState(d);
    }
  }

  lemma SameApRefl(a: Ap)
    ensures SameAp(a, a)
  {
  }

  lemma TimeoutState(d: Drv)
    requires d.l.st == WAIT_FOR_TELEGRAM
    ensures RunTimeouts(d, QUIET).0.l.st == WAIT_FOR_TELEGRAM
  {
  }

  /** A run of the link machine either completes a round or moves no message; it ends blocked only if a message is
      waiting and the inbound buffers are used up. */
  lemma RunIsEither(s: Sys, s': Sys, env: Env)
    requires Inv(s) && RunStep(s, s', env)
    ensures CompletesRound(s, s') || (QuietRun(s, s') && (s'.d.l.st == PROCESS_TELEGRAM ==> OutOfBuffers(s)))
  {
    hide RunTimeouts, RunProcess, Accepts, Accept, After, Round, Blocked, QuietRun, SameAp, RunWait, RunIdle, Lines,
      Parities, Forward, Backward, Orderly;
    if s.d.l.st == WAIT_FOR_TELEGRAM {
      WaitIsEither(s, s', env);
    } else if s.d.l.st == PROCESS_TELEGRAM {
      SameApRefl(s.d.a);
      ProcessIsEither(s, s.d, env, s');
      if Blocked(s.d) {
        RetryAccepted(s);
        BlockedMeansWaiting(s, s.d);
      }
    } else {
      StartIsEither(s, s', env);
    }
  }

  lemma StartIsEither(s: Sys, s': Sys, env: Env)
    requires Inv(s) && Starting(s) && RunStep(s, s', env)
    ensures CompletesRound(s, s') || (QuietRun(s, s') && s'.d.l.st != PROCESS_TELEGRAM)
  {
    var d := if s.d.l.st == INIT then s.d.(l := DoInit(s.d.l)) else s.d;
    assert Run(s.d, env, QUIET) == RunHandshake(d, env, QUIET) by { hide RunHandshake; }
    SameApRefl(s.d.a);
    hide RunIdle, SameAp, QuietRun, After, Round;
    if d.l.handshakeTo {
      var d0 := d.(l := d.l.(st := IDLE));
      FirstIsRound(d0, env);
      var (d1, out) := RunIdle(d0, env, QUIET);
      assert After(s, d1, out).d == d1 by { AfterEnds(s, d1, out); }
      assert RoundRun(s, s', d0, out);
    } else {
      AfterNothing(s, d, None);
    }
  }

  lemma AfterEnds(s: Sys, d: Drv, out: Out)
    ensures After(s, d, out).d == d
  {
  }

  lemma FirstIsRound(d: Drv, env: Env)
    requires d.l.wr == None && QueuesOk(d.a) && InboundOk(d.a) && d.a.nFrom < 256
    ensures var (d1, out) := RunIdle(d, env, QUIET); Round(d, d1, out)
  {
    hide RunIdle, CrcOk, T, M, R, Carries, FragmentOf, Counted, QueuesOk, Transmits, Sent, Arbitrates, FromQueue,
      SameInbound, Telegram, WriterOk;
    IdleRound(d, env, QUIET);
    var (d1, out) := RunIdle(d, env, QUIET);
    NothingCounted(d.a);
    CountedIdle(d.a, d, d1, [], []);
    InboundCounted(d.a, d1.a, [], []);
  }

  // ---- the queues -------------------------------------------------------------------------------

  function Messages(q: seq<OutBuf>): seq<Msg>
  {
    seq(|q|, i requires 0 <= i < |q| => q[i].msg)
  }

  /** Every accepted message of a kind was taken, in order, or still waits, in order; and what the module delivered
      was handed to the application, in order, or waits, in order. */
  predicate Queued(a: Ap, log: Log) {
    CommandsOf(log.accepted) == CommandsOf(log.took) + Messages(a.cmdQ) &&
    ResponsesOf(log.accepted) == ResponsesOf(log.took) + Messages(a.rspQ) &&
    log.got == log.handed + a.inQ
  }

  lemma MessagesHead(q: seq<OutBuf>)
    requires q != []
    ensures Messages(q) == [q[0].msg] + Messages(q[1..])
  {
  }

  lemma MessagesAppend(q: seq<OutBuf>, b: OutBuf)
    ensures Messages(q + [b]) == Messages(q) + [b.msg]
  {
  }

  lemma TookKeepsQueued(a: Ap, a1: Ap, log: Log, took: seq<Msg>)
    requires Queued(a, log) && FromQueue(a, a1, took) && a1.inQ == a.inQ
    ensures Queued(a1, log.(took := log.took + took))
  {
    hide IsCommand, Messages, CommandsOf, ResponsesOf;
    FilterAppend(log.took, took);
    if took == [] {
      assert log.took + took == log.took;
    } else {
      assert took == [took[0]];
      OneMessage(took[0]);
      if a.cmdQ != [] { MessagesHead(a.cmdQ); }
      if a.rspQ != [] { MessagesHead(a.rspQ); }
    }
  }

  lemma RoundKeepsQueued(s: Sys, s': Sys, d: Drv, out: Out)
    requires Queued(s.d.a, s.log) && RoundRun(s, s', d, out)
    ensures Queued(s'.d.a, s'.log)
  {
    hide Transmits, Sent, WriterOk, QueuesOk, InboundOk, Commands, Responses, CommandsOf, ResponsesOf, Messages;
    var a1 := s'.d.a.(inQ := s.d.a.inQ);
    assert FromQueue(s.d.a, a1, out.took) by {
      hide IsCommand;
    }
    hide FromQueue;
    TookKeepsQueued(s.d.a, a1, s.log, out.took);
  }

  lemma PostKeepsQueued(a: Ap, m: OutMsg, log: Log)
    requires Queued(a, log)
    ensures
      var (a1, status) := AddFragAndPost(a, m);
      Queued(a1, log.(accepted := log.accepted + if status == OK then [m] else []))
  {
    hide IsCommand, Messages, CommandsOf, ResponsesOf, FragCount;
    FilterAppend(log.accepted, [m]);
    OneMessage(m);
    assert log.accepted + [] == log.accepted;
    MessagesAppend(a.cmdQ, Buf(m, Abp.FragCount(|m|), 0));
    MessagesAppend(a.rspQ, Buf(m, Abp.FragCount(|m|), 0));
  }

  lemma SendKeepsQueued(s: Sys, s': Sys, m: OutMsg)
    requires Queued(s.d.a, s.log) && (SendStep(s, s', m) || ConfigPostStep(s, s', m))
    ensures Queued(s'.d.a, s'.log)
  {
    hide AddFragAndPost, LooksLikeRemapAck, CommandsOf, ResponsesOf, Messages;
    var a, log := s.d.a, s.log;
    var a0 := Allocated(a, m).(remapWrite := a.remapWrite || LooksLikeRemapAck(m, REMAP_WRITE),
                               remapRead := a.remapRead || LooksLikeRemapAck(m, REMAP_READ));
    PostKeepsQueued(a0, m, log);
    PostKeepsQueued(Allocated(a, m), m, log);
    assert log.accepted + [] == log.accepted;
  }

  lemma TakeKeepsQueued(s: Sys, s': Sys)
    requires Queued(s.d.a, s.log) && (HandleStep(s, s') || ConfigTakeStep(s, s'))
    ensures Queued(s'.d.a, s'.log)
  {
    hide IsCommand, CommandsOf, ResponsesOf, Messages;
    assert s.log.handed + [] == s.log.handed;
  }

  /** The steps that move no message through APLINK's queues. */
  ghost predicate OtherStep(s: Sys, s': Sys) {
    (exists t, w, h :: TimeoutStep(s, s', t, w, h)) || DeliverStep(s, s') ||
    (exists took, got :: PeerStep(s, s', took, got)) || FaultStep(s, s') || ConfigDoneStep(s, s') ||
    (exists data: PdBuffer :: WritePdStep(s, s', data)) || NoPdStep(s, s')
  }

  /** What such a step leaves alone in the driver. */
  predicate SameQueuing(s: Sys, s': Sys) {
    s'.d.a == s.d.a.(state := s'.d.a.state, newPd := s'.d.a.newPd) && s'.d.l.wr == s.d.l.wr &&
    s'.d.l.ctrl == s.d.l.ctrl && s'.d.l.st == s.d.l.st && s'.d.l.lastSentCmd == s.d.l.lastSentCmd &&
    s'.log == s.log.(ptook := s'.log.ptook, pgot := s'.log.pgot, written := s'.log.written)
  }

  lemma LineStepSame(s: Sys, s': Sys)
    requires DeliverStep(s, s') || FaultStep(s, s') || exists t, w, h :: TimeoutStep(s, s', t, w, h)
    ensures SameQueuing(s, s')
  {
    hide CrcOk, T, Faulty;
  }

  lemma PeerStepSame(s: Sys, s': Sys, took: seq<Msg>, got: seq<Msg>)
    requires PeerStep(s, s', took, got)
    ensures SameQueuing(s, s')
    ensures s'.log == s.log.(ptook := s.log.ptook + took, pgot := s.log.pgot + got)
  {
    hide CrcOk, T, PeerRound;
    assert s.log.ptook + [] == s.log.ptook && s.log.pgot + [] == s.log.pgot;
  }

  lemma FlagStepSame(s: Sys, s': Sys)
    requires ConfigDoneStep(s, s') || NoPdStep(s, s') || exists data: PdBuffer :: WritePdStep(s, s', data)
    ensures SameQueuing(s, s')
  {
  }

  lemma OtherStepFacts(s: Sys, s': Sys)
    requires OtherStep(s, s')
    ensures SameQueuing(s, s')
  {
    hide TimeoutStep, DeliverStep, PeerStep, FaultStep, ConfigDoneStep, WritePdStep, NoPdStep, SameQueuing;
    if took, got :| PeerStep(s, s', took, got) {
      PeerStepSame(s, s', took, got);
    } else if ConfigDoneStep(s, s') || NoPdStep(s, s') || exists data: PdBuffer :: WritePdStep(s, s', data) {
      FlagStepSame(s, s');
    } else {
      LineStepSame(s, s');
    }
  }

  lemma StepKeepsQueued(s: Sys, s': Sys)
    requires Inv(s) && Queued(s.d.a, s.log) && Next(s, s')
    ensures Queued(s'.d.a, s'.log)
  {
    hide Inv, CommandsOf, ResponsesOf, Messages, RunStep, SendStep, ConfigPostStep, HandleStep, ConfigTakeStep,
      TimeoutStep, DeliverStep, PeerStep, FaultStep, ConfigDoneStep, WritePdStep, NoPdStep, RoundRun;
    if env: Env :| RunStep(s, s', env) {
      RunIsEither(s, s', env);
      if d, out :| RoundRun(s, s', d, out) {
        RoundKeepsQueued(s, s', d, out);
      }
    } else if m: OutMsg :| SendStep(s, s', m) {
      SendKeepsQueued(s, s', m);
    } else if m: OutMsg :| ConfigPostStep(s, s', m) {
      SendKeepsQueued(s, s', m);
    } else if HandleStep(s, s') || ConfigTakeStep(s, s') {
      TakeKeepsQueued(s, s');
    } else {
      OtherStepFacts(s, s');
    }
  }

  lemma {:induction false} RunKeepsQueued(run: seq<Sys>, i: nat)
    requires Execution(run) && i < |run|
    ensures Inv(run[i]) && Queued(run[i].d.a, run[i].log)
    decreases i
  {
    hide Inv, Next;
    RunKeeps(run, i);
    if i > 0 {
      RunKeepsQueued(run, i - 1);
      StepKeepsQueued(run[i - 1], run[i - 1 + 1]);
    }
  }

  /** End to end, in every run: the module has delivered a prefix of the commands, and a prefix of the responses,
      that the application handed over; the application has been handed a prefix of what the module sent. */
  lemma DeliversEndToEnd(run: seq<Sys>, i: nat)
    requires Execution(run) && i < |run|
    ensures
      var log := run[i].log;
      CommandsOf(log.pgot) <= CommandsOf(log.accepted) && ResponsesOf(log.pgot) <= ResponsesOf(log.accepted) &&
      log.handed <= log.ptook
  {
    RunKeepsQueued(run, i);
    TransfersExactlyOnce(run, i);
    hide Inv, Execution, CommandsOf, ResponsesOf;
    FilterPrefix(run[i].log.pgot, run[i].log.took);
  }
}

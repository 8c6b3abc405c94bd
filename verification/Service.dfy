/** Flow control lets through: a module with a command to send gets to send it, whatever state the run is in and
    whatever the line has lost, and the application is handed it; and process data gets to flow. */
module Service {
  import opened Abp
  import opened Options
  import opened DriverSpec
  import opened Fragments
  import opened Rounds
  import opened LinkSystem
  import opened ExactlyOnce
  import opened EndToEnd
  import opened ProcessData
  import opened Sizes
  import opened Credits
  import opened Recovery

  // ---- the module starts a message --------------------------------------------------------------

  /** A module with nothing under way can answer with the first fragment of any message. */
  lemma OpeningExists(p: Peer, tel: RxTelegram, m: Msg, len: TelegramLength) returns (p': Peer, got: seq<Msg>)
    requires p.wr == None
    ensures PeerRound(p, p', tel, [m], got) && |p'.reply| == len && p'.seesR == R(tel[0])
  {
    hide T, M, R, Receive, FragmentAt, FragmentOf, CrcOk, Answer;
    FragCountBounds(m);
    var (rx, more) := Receive(p.rx, M(tel[0]), FragmentOf(tel));
    got := more;
    var ctrl: bv8 := WithM(if T(tel[0]) then 0xA0 else 0x20, true);
    ControlBits(T(tel[0]), true);
    var f := FragmentAt(m, 0, Zeros(FRAG));
    var reply := Answer(ctrl, f, len);
    AnswerParts(ctrl, f, len);
    p' := Peer(T(tel[0]), reply, Some(Buf(m, FragCount(|m|), 1)), rx, R(tel[0]));
    assert Carries(reply, m, 0);
  }

  /** The module may start this message: a command if the newest telegram has the R bit, a response if one is owed. */
  predicate MayStart(s: Sys, m: Msg) {
    if IsCommand(m) then R(s.d.l.ctrl) else Responses(s.log.ptook) < Commands(s.log.pgot)
  }

  /** Between two rounds: the newest telegram is on its way, and the module has nothing under way. */
  predicate AtRest(s: Sys) { s.d.l.st == WAIT_FOR_TELEGRAM && s.k < s.n && s.p.wr == None }

  /** Nothing but the module's part has moved. */
  predicate OnlyModule(s: Sys, s': Sys, m: Msg) {
    s'.d.a == s.d.a && s'.d.l.st == s.d.l.st && s'.d.l.completeRemap == s.d.l.completeRemap && s'.d.l.wr == s.d.l.wr &&
    s'.d.l.pdWriteLen == s.d.l.pdWriteLen && s'.d.l.serialRead == s.d.l.serialRead && s'.d.tx == s.d.tx &&
    s'.d.writeData == s.d.writeData && s.log.pgot <= s'.log.pgot &&
    s'.log == s.log.(ptook := s.log.ptook + [m], pgot := s'.log.pgot)
  }

  function Opened(s: Sys, p: Peer, m: Msg, got: seq<Msg>): Sys {
    s.(toPeer := [], p := p, k := s.k + 1, toDrv := [Item(s.k + 1, p.reply)],
       log := s.log.(ptook := s.log.ptook + [m], pgot := s.log.pgot + got))
  }

  lemma OpeningIsStep(s: Sys, p: Peer, m: Msg, got: seq<Msg>)
    requires s.toPeer == [Item(s.n, Telegram(s.d))] && s.toDrv == [] && CrcOk(Telegram(s.d))
    requires T(Telegram(s.d)[0]) != s.p.lastT && PeerRound(s.p, p, Telegram(s.d), [m], got)
    ensures PeerStep(s, Opened(s, p, m, got), [m], got)
  {
    hide T, Telegram, CrcOk, PeerRound;
    assert s.toPeer[1..] == [];
  }

  lemma OpeningDisciplined(s: Sys, s': Sys, m: Msg, got: seq<Msg>)
    requires PeerStep(s, s', [m], got) && ModuleObeys(s'.p, s'.log, [m])
    ensures DisciplinedPeer(s, s')
  {
    hide PeerStep, ModuleObeys;
  }

  lemma ModuleOpens(s: Sys, m: Msg) returns (s': Sys)
    requires Inv(s) && AtRest(s) && s.toPeer == [Item(s.n, Telegram(s.d))] && s.toDrv == [] && MayStart(s, m)
    ensures DisciplinedPeer(s, s') && OnlyModule(s, s', m) && s'.d == s.d && AnswerFits(s')
  {
    NewestAtModule(s);
    ControlByte(s);
    hide Inv, T, M, R, Telegram, CrcOk, MayStart, PeerRound, ModuleObeys, PeerStep, DisciplinedPeer;
    var p', got := OpeningExists(s.p, Telegram(s.d), m, s.d.l.serialRead);
    OpeningIsStep(s, p', m, got);
    s' := Opened(s, p', m, got);
    StartIsAllowed(s, s', m);
    OpeningDisciplined(s, s', m, got);
  }

  lemma ControlByte(s: Sys)
    requires Inv(s) && s.d.l.st == WAIT_FOR_TELEGRAM
    ensures Telegram(s.d)[0] == s.d.l.ctrl
  {
    hide CrcOk, T, M, Lines, Parities, Forward, Backward, Orderly;
  }

  lemma StartIsAllowed(s: Sys, s': Sys, m: Msg)
    requires MayStart(s, m) && s'.log.ptook == s.log.ptook + [m] && s.log.pgot <= s'.log.pgot
    requires s'.p.seesR == R(s.d.l.ctrl)
    ensures ModuleObeys(s'.p, s'.log, [m])
  {
    OneMessage(m);
    FilterAppend(s.log.ptook, [m]);
    FilterPrefix(s.log.pgot, s'.log.pgot);
    hide CommandsOf, ResponsesOf, IsCommand;
  }

  lemma QuestionJoined(s: Sys, s1: Sys, s': Sys)
    requires SameQuestion(s, s1, false) && SameQuestion(s1, s', false)
    ensures SameQuestion(s, s', false)
  {
  }

  /** From rest, whatever the line has lost, the newest telegram can be had alone on the line. */
  lemma RetransmittedAlone(run: seq<Sys>, env: Env) returns (run': seq<Sys>)
    requires DisciplinedExecution(run) && AtRest(Last(run))
    ensures Continues(run, run') && SameQuestion(Last(run), Last(run'), false) && AtRest(Last(run'))
    ensures Last(run').toPeer == [Item(Last(run').n, Telegram(Last(run').d))] && Last(run').toDrv == []
  {
    var s := Last(run);
    hide DisciplinedExecution, DisciplinedNext, Accepts, Telegram;
    var run1 := LineLost(run);
    var s2 := TimeoutFacts(Last(run1));
    OneMore(run1, s2);
    var run2 := run1 + [s2];
    if s2.d.l.received && Accepts(s2.d.l) {
      NewestReceived(run2);
      assert false;
    }
    run' := TimeoutGoesOn(run2, env);
    assert SameQuestion(s, s2, false);
    QuestionJoined(s, s2, Last(run'));
  }

  /** From rest, whatever the line has lost, the module can start a message it may start. */
  lemma ModuleCanStart(run: seq<Sys>, m: Msg, env: Env) returns (run': seq<Sys>)
    requires DisciplinedExecution(run) && AtRest(Last(run)) && MayStart(Last(run), m)
    ensures Continues(run, run') && OnlyModule(Last(run), Last(run'), m) && AnswerFits(Last(run'))
  {
    hide DisciplinedExecution, DisciplinedNext, CreditInv, MayStart, Telegram;
    var run1 := RetransmittedAlone(run, env);
    LastInvariant(run1);
    StillMay(Last(run), Last(run1), m);
    var s' := OpensFrom(Last(run1), m);
    OneMore(run1, s');
    run' := run1 + [s'];
    OnlyModuleJoined(Last(run), Last(run1), s', m);
  }

  lemma OnlyModuleJoined(s: Sys, s1: Sys, s': Sys, m: Msg)
    requires SameQuestion(s, s1, false) && OnlyModule(s1, s', m)
    ensures OnlyModule(s, s', m)
  {
  }

  lemma OpensFrom(s: Sys, m: Msg) returns (s': Sys)
    requires CreditInv(s) && AtRest(s) && s.toPeer == [Item(s.n, Telegram(s.d))] && s.toDrv == [] && MayStart(s, m)
    ensures DisciplinedNext(s, s') && OnlyModule(s, s', m) && AnswerFits(s')
  {
    hide Inv, Queued, Counters, Pools, Promises, DisciplinedPeer;
    s' := ModuleOpens(s, m);
  }

  lemma StillMay(s: Sys, s': Sys, m: Msg)
    requires MayStart(s, m) && s'.d.l.ctrl == s.d.l.ctrl && s'.log.ptook == s.log.ptook && s.log.pgot <= s'.log.pgot
    ensures MayStart(s', m)
  {
    FilterPrefix(s.log.pgot, s'.log.pgot);
    hide CommandsOf, ResponsesOf, IsCommand;
  }

  // ---- everything settled, everything handed over -----------------------------------------------

  /** Settled and at rest. */
  predicate Calm(s: Sys) { Settled(s.log) && AtRest(s) }

  lemma CalmFits(s: Sys)
    requires AtRest(s)
    ensures AnswerFits(s)
  {
  }

  lemma CanCalm(run: seq<Sys>, env: Env) returns (run': seq<Sys>)
    requires DisciplinedExecution(run) && Last(run).d.l.st == WAIT_FOR_TELEGRAM && AnswerFits(Last(run))
    ensures Continues(run, run') && Undisturbed(Last(run), Last(run'), env) && Calm(Last(run'))
  {
    hide DisciplinedExecution, Undisturbed, Settled, AllDelivered;
    var run1 := WaitingCanArrive(run, env);
    run' := BegunCanArrive(run1, env);
    UndisturbedJoined(Last(run), Last(run1), Last(run'), env);
  }

  /** Messages go to the application, nothing else happens. */
  predicate OnlyHanded(s: Sys, s': Sys) {
    s'.d == s.d.(a := s.d.a.(inQ := s'.d.a.inQ, inUsed := s'.d.a.inUsed, nTo := s'.d.a.nTo)) &&
    s' == s.(d := s'.d, log := s.log.(handed := s'.log.handed)) && s.log.handed <= s'.log.handed
  }

  lemma OneHanded(s: Sys) returns (s': Sys)
    requires !Configuring(s.d.a) && s.d.a.inQ != []
    ensures DisciplinedNext(s, s') && OnlyHanded(s, s') && |s'.d.a.inQ| == |s.d.a.inQ| - 1
  {
    hide IsCommand;
    var (a, handed) := HandleQueued(s.d.a);
    s' := s.(d := s.d.(a := a), log := s.log.(handed := s.log.handed + handed));
    assert HandleStep(s, s');
  }

  lemma {:induction false} AllHanded(run: seq<Sys>) returns (run': seq<Sys>)
    requires DisciplinedExecution(run) && !Configuring(Last(run).d.a)
    ensures Continues(run, run') && OnlyHanded(Last(run), Last(run')) && Last(run').d.a.inQ == []
    decreases |Last(run).d.a.inQ|
  {
    var s := Last(run);
    hide DisciplinedExecution, DisciplinedNext;
    if s.d.a.inQ == [] {
      run' := run;
    } else {
      var s1 := OneHanded(s);
      OneMore(run, s1);
      run' := AllHanded(run + [s1]);
    }
  }

  lemma NothingQueued(s: Sys)
    requires CreditInv(s) && s.d.a.inQ == []
    ensures s.log.handed == s.log.got
  {
    hide Inv, Counters, Pools, Promises, CommandsOf, ResponsesOf;
    assert s.log.handed + [] == s.log.handed;
  }

  /** Calm, with an empty inbound queue. */
  lemma CanHand(run: seq<Sys>) returns (run': seq<Sys>)
    requires DisciplinedExecution(run) && Calm(Last(run)) && !Configuring(Last(run).d.a)
    ensures Continues(run, run') && OnlyHanded(Last(run), Last(run')) && Calm(Last(run'))
    ensures Last(run').log.handed == Last(run').log.got
  {
    hide DisciplinedExecution, CreditInv, CommandsOf, ResponsesOf;
    run' := AllHanded(run);
    LastInvariant(run');
    NothingQueued(Last(run'));
  }

  // ---- the application answers ------------------------------------------------------------------

  /** The commands of the module that are not yet answered. */
  function Open(log: Log): int { Commands(log.got) - Responses(log.done) }

  /** The response the application gives. */
  function SomeResponse(): OutMsg { HeaderOnlyFits(); Zeros(HEADER) }

  lemma SomeResponseIs()
    ensures !IsCommand(SomeResponse())
  {
  }

  lemma SendKeepsLimits(a: Ap, m: OutMsg)
    ensures SendMessage(a, m).0.lim == a.lim
  {
    hide IsCommand, LooksLikeRemapAck, FragCount;
  }

  lemma ResponsePosted(s: Sys) returns (s': Sys)
    requires SendMessage(s.d.a, SomeResponse()).1 == OK && ApplicationOwes(s.log)
    ensures DisciplinedNext(s, s') && s'.log == s.log.(accepted := s.log.accepted + [SomeResponse()])
    ensures s'.d == s.d.(a := s'.d.a) && s'.d.a.state == s.d.a.state && s'.d.a.lim == s.d.a.lim
    ensures AtRest(s) ==> AtRest(s')
  {
    SendKeepsFlags(s.d.a, SomeResponse());
    SendKeepsLimits(s.d.a, SomeResponse());
    hide AddFragAndPost, IsCommand, LooksLikeRemapAck, Allocated, CanAllocate;
    var (a, status) := SendMessage(s.d.a, SomeResponse());
    s' := s.(d := s.d.(a := a), log := s.log.(accepted := s.log.accepted + [SomeResponse()]));
    assert SendStep(s, s', SomeResponse());
    assert DisciplinedSend(s, s');
  }

  /** Calm, handed over, and with an open command, the application can answer one. */
  lemma CanAnswer(run: seq<Sys>, env: Env) returns (run': seq<Sys>)
    requires DisciplinedExecution(run) && Calm(Last(run)) && !Configuring(Last(run).d.a)
    requires Last(run).log.handed == Last(run).log.got && Open(Last(run).log) > 0
    ensures Continues(run, run') && Calm(Last(run')) && !Configuring(Last(run').d.a)
    ensures
      var s, s' := Last(run), Last(run');
      s'.log.ptook == s.log.ptook && s'.log.got == s.log.got && s'.log.handed == s.log.handed &&
      s'.d.a.lim == s.d.a.lim && Open(s'.log) < Open(s.log)
  {
    var s := Last(run);
    LastInvariant(run);
    LastInvariantOwes(s);
    SomeResponseIs();
    SendSucceeds(run, |run| - 1, SomeResponse());
    hide DisciplinedExecution, DisciplinedNext, CreditInv, AllDelivered, Follows, PlainCoherent, SendMessage,
      SomeResponse, IsCommand, Commands, Responses;
    var s1 := ResponsePosted(s);
    OneMore(run, s1);
    CalmFits(s1);
    run' := CanCalm(run + [s1], env);
    LastInvariant(run');
    OneAnswered(s, s1, Last(run'));
  }

  lemma LastInvariantOwes(s: Sys)
    requires CreditInv(s) && Settled(s.log) && s.log.handed == s.log.got && Open(s.log) > 0
    ensures ApplicationOwes(s.log)
  {
    DoneCovers(s);
    hide Inv, Queued, Counters, Pools, Promises, CommandsOf, ResponsesOf;
  }

  /** What the module delivered was completed before. */
  lemma DoneCovers(s: Sys)
    requires CreditInv(s)
    ensures Responses(s.log.pgot) <= Responses(s.log.done)
  {
    DeliveredIsDone(s);
    FilterPrefix(s.log.pgot, s.log.done);
    hide Inv, Queued, Counters, Pools, Promises, CommandsOf, ResponsesOf;
  }

  lemma OneAnswered(s: Sys, s1: Sys, s': Sys)
    requires CreditInv(s) && CreditInv(s') && Settled(s.log) && Settled(s'.log) && SameSides(s1, s')
    requires s1.log == s.log.(accepted := s.log.accepted + [SomeResponse()])
    ensures s'.log.got == s.log.got && Open(s'.log) < Open(s.log)
  {
    SomeResponseIs();
    DoneCovers(s');
    DoneIsAccepted(s);
    FilterOne(s.log.accepted, SomeResponse());
    hide CreditInv, CommandsOf, ResponsesOf, SomeResponse, IsCommand;
  }

  lemma DoneIsAccepted(s: Sys)
    requires CreditInv(s)
    ensures Responses(s.log.done) <= Responses(s.log.accepted)
  {
    hide Inv, Queued, Counters, Pools, Promises, CommandsOf, ResponsesOf;
    Chains(s);
  }

  // ---- the module gets to send ------------------------------------------------------------------

  /** Room for a command of the module. */
  lemma OpenBounded(s: Sys)
    requires CreditInv(s)
    ensures 0 <= Open(s.log) <= s.d.a.lim.abcc && s.d.a.lim.Valid()
  {
    Chains(s);
    hide Parities, Lines, Forward, Backward, Queued, Pools, CommandsOf, ResponsesOf, Starting, Exchanging;
  }

  lemma CanMakeRoom(run: seq<Sys>, env: Env) returns (run': seq<Sys>)
    requires DisciplinedExecution(run) && Calm(Last(run)) && !Configuring(Last(run).d.a)
    requires Last(run).log.handed == Last(run).log.got
    ensures Continues(run, run') && Calm(Last(run')) && !Configuring(Last(run').d.a)
    ensures Last(run').log.ptook == Last(run).log.ptook && Last(run').log.handed == Last(run').log.got
    ensures Open(Last(run').log) < Last(run').d.a.lim.abcc
  {
    LastInvariant(run);
    OpenBounded(Last(run));
    hide DisciplinedExecution, CreditInv, AllDelivered, Commands, Responses;
    run' := run;
    if Open(Last(run).log) > 0 {
      run' := CanAnswer(run, env);
    }
  }

  /** One round later the module has been told. */
  lemma CanTell(run: seq<Sys>, env: Env) returns (run': seq<Sys>)
    requires DisciplinedExecution(run) && Calm(Last(run)) && !Configuring(Last(run).d.a)
    requires Last(run).log.handed == Last(run).log.got && Open(Last(run).log) < Last(run).d.a.lim.abcc
    ensures Continues(run, run') && AtRest(Last(run')) && R(Last(run').d.l.ctrl) && AllDelivered(Last(run').log)
    ensures Last(run').log.ptook == Last(run).log.ptook && !Configuring(Last(run').d.a)
  {
    var s := Last(run);
    CalmFits(s);
    LastInvariant(run);
    hide DisciplinedExecution, CreditInv, AllDelivered, R, FreeCmdSlots, NextRound;
    run' := LossRecovered(run, env);
    LastInvariant(run');
    var s' := Last(run');
    RoundShows(s, s', env);
    GotIsTakenUp(s');
    OpenFalls(s, s');
    OpenBounded(s');
    RoomCounted(s');
    StillDelivered(s, s', env);
  }

  lemma GotIsTakenUp(s: Sys)
    requires CreditInv(s)
    ensures s.log.got <= s.log.ptook
  {
    GotIsTaken(s);
    hide Inv;
  }

  lemma RoundShows(s: Sys, s': Sys, env: Env)
    requires Recovered(s, s', env) && AtRest(s)
    ensures AtRest(s') && SameSides(s, s') && (R(s'.d.l.ctrl) <==> FreeCmdSlots(s'.d.a))
  {
    hide TakesUp, R, FreeCmdSlots, Follows, PlainCoherent, SendsData;
  }

  lemma OpenFalls(s: Sys, s': Sys)
    requires SameSides(s, s') && s'.log.got == s.log.got
    ensures Open(s'.log) <= Open(s.log)
  {
    FilterPrefix(s.log.done, s'.log.done);
    hide CommandsOf, ResponsesOf;
  }

  lemma StartedAllDelivered(s: Sys, s': Sys, m: Msg)
    requires AllDelivered(s.log) && OnlyModule(s, s', m) && CreditInv(s')
    ensures AllDelivered(s'.log)
  {
    FilterPrefix(s.log.pgot, s'.log.pgot);
    NoMoreThanAccepted(s');
    hide CreditInv, CommandsOf, ResponsesOf;
    FullPrefix(CommandsOf(s.log.pgot), CommandsOf(s'.log.pgot));
    FullPrefix(ResponsesOf(s.log.pgot), ResponsesOf(s'.log.pgot));
  }

  lemma FullPrefix(a: seq<Msg>, b: seq<Msg>)
    requires a <= b && |b| <= |a|
    ensures a == b
  {
  }

  /** Flow control lets through: outside the configuration, every run, whatever the line has lost and however many
      commands are open, can be continued so that the module takes up any command it may have, and the application is
      handed it, after all the module took up before and before anything else. */
  lemma CommandCanArrive(run: seq<Sys>, m: Msg, env: Env)
    requires DisciplinedExecution(run) && AnswerFits(Last(run)) && !Configuring(Last(run).d.a) && IsCommand(m)
    ensures exists run' ::
      Continues(run, run') && Last(run').log.ptook == Last(run').log.handed == Last(run).log.ptook + [m]
  {
    hide DisciplinedExecution, CreditInv, AllDelivered, Follows, PlainCoherent, R, IsCommand;
    var run1 := Started(run, env);
    var run2 := CanCalm(run1, env);
    var run3 := CanHand(run2);
    var run4 := CanMakeRoom(run3, env);
    var run5 := CanTell(run4, env);
    var run6 := ModuleCanStart(run5, m, env);
    LastInvariant(run6);
    StartedAllDelivered(Last(run5), Last(run6), m);
    var run7 := BegunCanArrive(run6, env);
    var run8 := CanHand(run7);
    assert Continues(run, run8);
  }
}

/** The protocol never gets stuck: from every state of every run, whatever the line has lost, a timeout and a
    retransmission lead to the next round, and rounds lead to the delivery of every message taken so far. */
module Recovery {
  import opened Abp
  import opened Options
  import opened DriverSpec
  import opened Fragments
  import opened Rounds
  import opened LinkSystem
  import opened ExactlyOnce
  import opened EndToEnd
  import opened ProcessData
  import opened Credits
  import opened Sizes

  function Last(run: seq<Sys>): Sys
    requires run != []
  {
    run[|run| - 1]
  }

  /** The run goes on. */
  ghost predicate Continues(run: seq<Sys>, run': seq<Sys>) {
    run != [] && run <= run' && DisciplinedExecution(run')
  }

  lemma OneMore(run: seq<Sys>, s: Sys)
    requires DisciplinedExecution(run) && DisciplinedNext(Last(run), s)
    ensures Continues(run, run + [s]) && Last(run + [s]) == s
  {
    hide Init, DisciplinedNext;
    var run' := run + [s];
    forall i: nat | i + 1 < |run'| ensures DisciplinedNext(run'[i], run'[i + 1]) {
      if i + 1 < |run| {
        assert run'[i] == run[i] && run'[i + 1] == run[i + 1];
      }
    }
  }

  // ---- everything on the line is lost -----------------------------------------------------------

  lemma LossIsFault(s: Sys)
    ensures s.toPeer != [] ==> DisciplinedNext(s, s.(toPeer := s.toPeer[1..]))
    ensures s.toDrv != [] ==> DisciplinedNext(s, s.(toDrv := s.toDrv[1..]))
  {
    if s.toPeer != [] {
      assert FaultAt(s.toPeer, s.toPeer[1..], 0) by { assert s.toPeer[1..] == s.toPeer[..0] + s.toPeer[0 + 1..]; }
      assert FaultStep(s, s.(toPeer := s.toPeer[1..]));
    }
    if s.toDrv != [] {
      assert FaultAt(s.toDrv, s.toDrv[1..], 0) by { assert s.toDrv[1..] == s.toDrv[..0] + s.toDrv[0 + 1..]; }
      assert FaultStep(s, s.(toDrv := s.toDrv[1..]));
    }
  }

  lemma {:induction false} LineLost(run: seq<Sys>) returns (run': seq<Sys>)
    requires DisciplinedExecution(run)
    ensures Continues(run, run') && Last(run') == Last(run).(toPeer := [], toDrv := [])
    ensures |run'| == |run| + |Last(run).toPeer| + |Last(run).toDrv|
    decreases |Last(run).toPeer| + |Last(run).toDrv|
  {
    var s := Last(run);
    hide DisciplinedExecution, DisciplinedNext;
    LossIsFault(s);
    if s.toPeer == [] && s.toDrv == [] {
      run' := run;
    } else {
      var s1 := if s.toPeer != [] then s.(toPeer := s.toPeer[1..]) else s.(toDrv := s.toDrv[1..]);
      OneMore(run, s1);
      run' := LineLost(run + [s1]);
    }
  }

  // ---- the module can always answer -------------------------------------------------------------

  function Answer(ctrl: bv8, f: Frag, len: TelegramLength): (r: RxTelegram)
    ensures |r| == len
  {
    var body := [ctrl] + f + Zeros(len - OVERHEAD);
    body + CrcBytes(body)
  }

  lemma AnswerParts(ctrl: bv8, f: Frag, len: TelegramLength)
    ensures var r := Answer(ctrl, f, len); CrcOk(r) && r[0] == ctrl && FragmentOf(r) == f
  {
    var body := [ctrl] + f + Zeros(len - OVERHEAD);
    hide CrcOk, CrcBytes;
    SealedPasses(body);
    assert (body + CrcBytes(body))[1..17] == f;
  }

  lemma ControlBits(t: bool, m: bool)
    ensures var c: bv8 := WithM(if t then 0xA0 else 0x20, m); T(c) == t && M(c) == m && R(c)
  {
  }

  /** The module's promises can be kept: to every new telegram there is an answer, of any length a telegram may have,
      that has the R bit. */
  lemma AnswerExists(p: Peer, tel: RxTelegram, len: TelegramLength) returns (p': Peer, got: seq<Msg>)
    requires p.wr.Some? ==> UnderWay(p.wr.value)
    ensures PeerRound(p, p', tel, [], got) && |p'.reply| == len && R(p'.reply[0]) && p'.wr == Advanced(p.wr)
  {
    hide T, M, R, Receive, FragmentAt, FragmentOf, CrcOk, Answer;
    var (rx, more) := Receive(p.rx, M(tel[0]), FragmentOf(tel));
    got := more;
    var ongoing := p.wr.Some? && p.wr.value.cnt < p.wr.value.nFrags;
    var ctrl: bv8 := WithM(if T(tel[0]) then 0xA0 else 0x20, ongoing);
    ControlBits(T(tel[0]), ongoing);
    var f := if ongoing then FragmentAt(p.wr.value.msg, p.wr.value.cnt, Zeros(FRAG)) else Zeros(FRAG);
    var reply := Answer(ctrl, f, len);
    AnswerParts(ctrl, f, len);
    var wr := if ongoing then Some(p.wr.value.(cnt := p.wr.value.cnt + 1)) else None;
    p' := Peer(T(tel[0]), reply, wr, rx, R(tel[0]));
    if ongoing {
      assert Carries(reply, p.wr.value.msg, p.wr.value.cnt);
    }
  }

  /** If the module has answered the newest telegram, then in the length the driver expects. */
  predicate AnswerFits(s: Sys) { 0 < s.n == s.k ==> |s.p.reply| == s.d.l.serialRead }

  predicate OnlyPeer(s: Sys, s': Sys) {
    s'.d == s.d && s'.n == s.n && s'.m == s.m && s'.log == s.log.(pgot := s'.log.pgot)
  }

  /** The module's message, one telegram later. */
  function Advanced(wr: Option<Buf>): Option<Buf> {
    if wr.Some? && wr.value.cnt < wr.value.nFrags then Some(wr.value.(cnt := wr.value.cnt + 1)) else None
  }

  /** What the module does when it starts no new message. */
  predicate ModuleSide(s: Sys, s': Sys, answers: bool) {
    s'.log.ptook == s.log.ptook && s.log.pgot <= s'.log.pgot &&
    s'.p.wr == if answers then Advanced(s.p.wr) else s.p.wr
  }

  /** Neither the application nor the module starts anything. */
  predicate SameSides(s: Sys, s': Sys) {
    s'.log.accepted == s.log.accepted && s'.log.ptook == s.log.ptook && s'.log.handed == s.log.handed &&
    s'.log.written == s.log.written && s.log.got <= s'.log.got && s.log.done <= s'.log.done &&
    (Configuring(s'.d.a) <==> Configuring(s.d.a)) && s'.d.a.lim == s.d.a.lim
  }

  /** Nor do state and sizes change but as the messages delivered say, and process data stays coherent. */
  predicate Undisturbed(s: Sys, s': Sys, env: Env) {
    SameSides(s, s') && Follows(s.d, s'.d, s'.log.got[|s.log.got|..], env) &&
    (PlainCoherent(s.d) ==> PlainCoherent(s'.d))
  }

  predicate PlainCoherent(d: Drv) { Plain(d) && Coherent(d) }

  /** The telegram carries the application's data. */
  predicate SendsData(d: Drv) { Fresh(d) && PdField(Telegram(d)) == Area(d) }

  lemma UndisturbedJoined(s: Sys, s1: Sys, s': Sys, env: Env)
    requires Undisturbed(s, s1, env) && Undisturbed(s1, s', env)
    ensures Undisturbed(s, s', env)
  {
    hide Follows, PlainCoherent;
    var got, more := s1.log.got[|s.log.got|..], s'.log.got[|s1.log.got|..];
    FollowsJoined(s.d, s1.d, s'.d, got, more, env);
    assert s'.log.got[|s.log.got|..] == got + more;
  }

  /** The newest telegram, arriving undamaged, is answered. */
  lemma ModuleAnswers(s: Sys) returns (s': Sys)
    requires Inv(s) && s.d.l.st == WAIT_FOR_TELEGRAM && AnswerFits(s)
    requires s.toPeer == [Item(s.n, Telegram(s.d))] && s.toDrv == []
    ensures s.k < s.n ==> R(s'.p.reply[0])
    ensures DisciplinedPeer(s, s') && OnlyPeer(s, s') && ModuleSide(s, s', s.k < s.n) && s'.k == s.n && AnswerFits(s')
    ensures s'.toPeer == [] && s'.toDrv == [Item(s.n, s'.p.reply)]
  {
    var tel := Telegram(s.d);
    WriterUnderWay(s);
    NewestAtModule(s);
    hide Inv, T, M, R, Telegram, PeerRound, CrcOk;
    var s1 := s.(toPeer := []);
    assert s.toPeer[1..] == [];
    if s.k == s.n {
      s' := s1.(toDrv := s.toDrv + [Item(s.k, s.p.reply)]);
      assert PeerStep(s, s', [], []);
    } else {
      var p', got := AnswerExists(s.p, tel, s.d.l.serialRead);
      s' := s1.(p := p', k := s.k + 1, toDrv := s.toDrv + [Item(s.k + 1, p'.reply)],
                log := s.log.(ptook := s.log.ptook + [], pgot := s.log.pgot + got));
      assert PeerStep(s, s', [], got);
    }
  }

  lemma WriterUnderWay(s: Sys)
    requires Inv(s)
    ensures s.p.wr.Some? ==> UnderWay(s.p.wr.value)
  {
    hide CrcOk, T, M, Lines, Parities, Forward, Orderly, Receive, Starting, Exchanging;
  }

  /** The module tells the newest telegram from the one before it by the toggle bit. */
  lemma NewestAtModule(s: Sys)
    requires Inv(s) && s.d.l.st == WAIT_FOR_TELEGRAM
    ensures CrcOk(Telegram(s.d)) && (T(Telegram(s.d)[0]) == s.p.lastT <==> s.k == s.n) && s.n - 1 <= s.k <= s.n
  {
    hide CrcOk, T, M, Lines, Forward, Backward, Orderly;
  }

  // ---- a round is completed ---------------------------------------------------------------------

  /** What the next telegram takes up; nothing only if a message is under way or nothing may be sent, where r says
      that a command may. */
  ghost predicate TakesUp(s: Sys, s': Sys, took: seq<Msg>, r: bool) {
    s'.log.took == s.log.took + took && Sent(s.d.l.wr, s'.d.l.wr, took, Telegram(s'.d)) &&
    FromQueue(s.d.a, s'.d.a, took) &&
    (s.d.l.wr == None && took == [] ==> s.d.a.rspQ == [] && (r ==> s.d.a.cmdQ == []))
  }

  /** The next round: one more telegram, with what the driver has to send next; a message that had come to its end is
      at the module. */
  ghost predicate NextRound(s: Sys, s': Sys, r: bool, answers: bool, env: Env) {
    ModuleSide(s, s', answers) && s'.n == s.n + 1 && s'.k == s.n && s'.d.l.st == WAIT_FOR_TELEGRAM &&
    Undisturbed(s, s', env) && (PlainCoherent(s.d) ==> SendsData(s'.d)) &&
    (R(s'.d.l.ctrl) <==> FreeCmdSlots(s'.d.a)) &&
    (s.d.l.wr == None ==> s.log.took <= s'.log.pgot) && exists took :: TakesUp(s, s', took, r)
  }

  lemma OneMoreRun(s: Sys, s': Sys, env: Env)
    requires RunStep(s, s', env)
    ensures DisciplinedNext(s, s')
  {
    hide RunStep;
  }

  /** An accepted answer finds a buffer. */
  lemma NotBlocked(run: seq<Sys>, env: Env)
    requires DisciplinedExecution(run)
    requires Last(run).d.l.st == WAIT_FOR_TELEGRAM && Last(run).d.l.received && Accepts(Last(run).d.l)
    ensures !Blocked(Accept(Last(run).d))
  {
    var s := Last(run);
    hide DisciplinedExecution, DisciplinedNext, Inv, Queued, Counters, Pools, Promises, RunProcess, Run, Accepts,
      Accept, Blocked;
    RunKeepsAllCredits(run, |run| - 1);
    var (d, out) := Run(s.d, env, QUIET);
    var s' := After(s, d, out);
    OneMoreRun(s, s', env);
    OneMore(run, s');
    RunKeepsAllCredits(run + [s'], |run|);
    AcceptedRun(s.d, env);
    AcceptState(s.d);
    BlockedStays(Accept(s.d), env);
  }

  lemma BlockedStays(d: Drv, env: Env)
    ensures Blocked(d) ==> RunProcess(d, env, QUIET).0 == d
  {
    hide Blocked;
  }

  lemma AcceptedCompletes(run: seq<Sys>, env: Env) returns (s': Sys)
    requires DisciplinedExecution(run)
    requires Last(run).d.l.st == WAIT_FOR_TELEGRAM && Last(run).d.l.received && Accepts(Last(run).d.l)
    ensures RunStep(Last(run), s', env) && NextRound(Last(run), s', R(Last(run).p.reply[0]), false, env)
  {
    var s := Last(run);
    hide DisciplinedExecution, Inv, Queued, Counters, Pools, Promises, RunProcess, Run, Round, TookIn, Accepts, Accept,
      NextRound, Blocked, QueuesOk, InboundOk, WriterOk, R, Follows,
      PlainCoherent, SendsData;
    NotBlocked(run, env);
    RunKeepsAllCredits(run, |run| - 1);
    InvParts(s);
    AcceptsNewest(s);
    AcceptedRun(s.d, env);
    AcceptIsSame(s.d);
    ProcessRound(Accept(s.d), env);
    AcceptedFollows(s.d, env);
    AcceptedCoheres(s.d, env);
    ProcessKeepsState(Accept(s.d), env);
    var (d, out) := Run(s.d, env, QUIET);
    RoundKeepsLimits(Accept(s.d), d, out);
    s' := After(s, d, out);
    assert RunStep(s, s', env);
    RoundIsNext(s, Accept(s.d), d, out, s', env);
  }

  lemma AcceptedFollows(d: Drv, env: Env)
    requires !Blocked(Accept(d))
    ensures var (d1, out) := RunProcess(Accept(d), env, QUIET); Follows(d, d1, out.got, env)
  {
    hide RunProcess, PlainMessage, PlainQueue, Blocked;
    var (d1, out) := RunProcess(Accept(d), env, QUIET);
    FollowsNothing(d, Accept(d), env);
    ProcessFollows(Accept(d), env);
    hide Follows;
    FollowsJoined(d, Accept(d), d1, [], out.got, env);
    assert [] + out.got == out.got;
  }

  lemma AcceptedCoheres(d: Drv, env: Env)
    requires !Blocked(Accept(d))
    ensures
      var (d1, out) := RunProcess(Accept(d), env, QUIET);
      PlainCoherent(d) ==> PlainCoherent(d1) && SendsData(d1)
  {
    if PlainCoherent(d) {
      AcceptCoherent(d);
      AcceptState(d);
      AcceptedFollows(d, env);
      hide RunProcess, PlainMessage, PlainQueue, Blocked, Coherent, Accept, Fresh, PdField, Area, Telegram;
      ProcessCoherent(Accept(d), env);
    }
  }

  lemma RoundKeepsLimits(d: Drv, d1: Drv, out: Out)
    requires Round(d, d1, out)
    ensures d1.a.lim == d.a.lim
  {
    hide Transmits, Sent, WriterOk, QueuesOk, InboundOk, FromQueue, Arbitrates, Commands, Responses;
  }

  lemma RoundIsNext(s: Sys, d: Drv, d1: Drv, out: Out, s': Sys, env: Env)
    requires Inv(s) && s.d.l.st == WAIT_FOR_TELEGRAM && Accepted(s, d) && SameAp(s.d.a, d.a)
    requires Round(d, d1, out) && TookIn(d, d1, out) && s' == After(s, d1, out) && Follows(s.d, d1, out.got, env)
    requires PlainCoherent(s.d) ==> PlainCoherent(d1) && SendsData(d1)
    requires (Configuring(d1.a) <==> Configuring(d.a)) && d1.a.lim == d.a.lim
    ensures NextRound(s, s', R(s.p.reply[0]), false, env)
  {
    hide CrcOk, T, M, R, Lines, Parities, Backward, Orderly, Sent, Counted, QueuesOk, InboundOk, WriterOk, Telegram,
      FreeCmdSlots, Receive, FragmentOf, IsCommand, ChannelOk, Follows, PlainCoherent, SendsData;
    assert s'.log.got[|s.log.got|..] == out.got;
    assert TakesUp(s, s', out.took, R(s.p.reply[0]));
  }

  // ---- retransmission ---------------------------------------------------------------------------

  /** Every answer the module gave has a checksum that fits. */
  lemma {:induction false} AnswersSound(run: seq<Sys>, i: nat)
    requires DisciplinedExecution(run) && i < |run|
    ensures run[i].k > 0 ==> CrcOk(run[i].p.reply)
    decreases i
  {
    hide CrcOk, DisciplinedNext;
    if i > 0 {
      AnswersSound(run, i - 1);
      StepSound(run[i - 1], run[i - 1 + 1]);
    }
  }

  lemma StepSound(s: Sys, s': Sys)
    requires DisciplinedNext(s, s') && (s.k > 0 ==> CrcOk(s.p.reply))
    ensures s'.k > 0 ==> CrcOk(s'.p.reply)
  {
    hide CrcOk, T, M, R, Run, Timeouts, Received, Receive, Sent, Telegram, FragmentOf, SendMessage, PostConfig,
      HandleQueued, ConfigTake, WriteProcessData, AfterPass, IsCommand, Faulty, UnderWay;
  }

  lemma TimeoutRetransmits(s: Sys, env: Env) returns (s': Sys)
    requires s.d.l.st == WAIT_FOR_TELEGRAM && s.d.l.telegramTo && !(s.d.l.received && Accepts(s.d.l))
    ensures RunStep(s, s', env)
    ensures s'.toPeer == s.toPeer + [Item(s.n, Telegram(s.d))] && s'.toDrv == s.toDrv && s'.p == s.p
    ensures s'.d.l.st == WAIT_FOR_TELEGRAM && Telegram(s'.d) == Telegram(s.d) && !s'.d.l.received
    ensures s'.d.l.wr == s.d.l.wr && s'.d.l.serialRead == s.d.l.serialRead && s'.d.a == s.d.a
    ensures s'.d.tx == s.d.tx && s'.d.writeData == s.d.writeData && s'.d.l.ctrl == s.d.l.ctrl
    ensures s'.d.l.completeRemap == s.d.l.completeRemap && s'.d.l.pdWriteLen == s.d.l.pdWriteLen
    ensures s'.n == s.n && s'.k == s.k && s'.log == s.log
  {
    hide Accepts, RunProcess;
    var d := s.d.(l := s.d.l.(received := false));
    Retransmits(d);
    SameBuffer(s.d, d);
    var (d1, out) := RunTimeouts(d, QUIET);
    SameBuffer(d, d1);
    s' := After(s, d1, out);
    hide Telegram;
    assert s.log.took + [] == s.log.took && s.log.got + [] == s.log.got && s.log.done + [] == s.log.done;
    assert s'.log == s.log;
  }

  /** The answer to the newest telegram, arriving undamaged, is accepted. */
  lemma AnswerAccepted(s: Sys)
    requires Inv(s) && s.d.l.st == WAIT_FOR_TELEGRAM && s.k == s.n && s.d.l.rx == s.p.reply && CrcOk(s.p.reply)
    requires |s.p.reply| == s.d.l.serialRead
    ensures Accepts(s.d.l)
  {
    hide CrcOk, T, M, Lines, Forward, Backward, Orderly;
  }

  /** A retransmission alone on the line is answered, and the answer received. */
  lemma RetransmissionAnswered(run: seq<Sys>) returns (run': seq<Sys>)
    requires DisciplinedExecution(run)
    requires
      var s := Last(run);
      s.d.l.st == WAIT_FOR_TELEGRAM && AnswerFits(s) && s.toPeer == [Item(s.n, Telegram(s.d))] && s.toDrv == []
    ensures Continues(run, run') && |run'| == |run| + 2
    ensures SameQuestion(Last(run), Last(run'), Last(run).k < Last(run).n)
    ensures Last(run').d.l.received && Last(run').d.l.rx == Last(run').p.reply && Last(run').k == Last(run').n
    ensures AnswerFits(Last(run')) && (Last(run).k < Last(run).n ==> R(Last(run').p.reply[0]))
  {
    var s := Last(run);
    hide DisciplinedExecution, Inv, Queued, Counters, Pools, Promises, Telegram, R, OnlyPeer, ModuleSide, AnswerFits,
      SameQuestion;
    RunKeepsAllCredits(run, |run| - 1);
    var s1 := ModuleAnswers(s);
    assert DisciplinedNext(s, s1);
    OneMore(run, s1);
    var s2 := Delivered(s1);
    hide DisciplinedNext;
    QuestionAnswered(s, s1, s2);
    OneMore(run + [s1], s2);
    run' := run + [s1] + [s2];
  }

  lemma QuestionAnswered(s: Sys, s1: Sys, s2: Sys)
    requires OnlyPeer(s, s1) && ModuleSide(s, s1, s.k < s.n) && s1.k == s.n && AnswerFits(s1)
    requires SameQuestion(s1, s2, false) && s2.p == s1.p && s2.k == s1.k && s2.d.l.serialRead == s1.d.l.serialRead
    ensures SameQuestion(s, s2, s.k < s.n) && s2.k == s2.n && AnswerFits(s2)
  {
    hide T, M, R;
  }

  lemma Delivered(s: Sys) returns (s': Sys)
    requires |s.toDrv| == 1
    ensures DisciplinedNext(s, s') && SameQuestion(s, s', false) && s'.p == s.p && s'.k == s.k
    ensures s'.d.l.received && s'.d.l.rx == s.toDrv[0].tel && s'.d.l.serialRead == s.d.l.serialRead
  {
    s' := s.(d := Received(s.d, s.toDrv[0].tel), rxIdx := s.toDrv[0].idx, toDrv := s.toDrv[1..]);
    assert DeliverStep(s, s');
  }

  /** What the next round depends on. */
  predicate SameQuestion(s: Sys, s': Sys, answers: bool) {
    ModuleSide(s, s', answers) && s'.n == s.n && s'.d.l.st == s.d.l.st && s'.d.l.wr == s.d.l.wr && s'.d.a == s.d.a &&
    s'.d.tx == s.d.tx && s'.d.writeData == s.d.writeData && s'.d.l.completeRemap == s.d.l.completeRemap &&
    s'.d.l.ctrl == s.d.l.ctrl && s'.d.l.pdWriteLen == s.d.l.pdWriteLen &&
    s'.d.l.serialRead == s.d.l.serialRead && s'.log == s.log.(pgot := s'.log.pgot)
  }

  lemma KeepsPlainCoherent(s: Sys, s': Sys, answers: bool)
    requires SameQuestion(s, s', answers)
    ensures PlainCoherent(s.d) ==> PlainCoherent(s'.d)
  {
    hide PlainMessage, PlainQueue;
  }

  lemma SameIsUndisturbed(s: Sys, s': Sys, answers: bool, env: Env)
    requires SameQuestion(s, s', answers)
    ensures Undisturbed(s, s', env)
  {
    KeepsPlainCoherent(s, s', answers);
    hide PlainMessage, PlainQueue, Coherent, PlainCoherent;
    FollowsNothing(s.d, s'.d, env);
    assert s'.log.got[|s.log.got|..] == [];
  }

  /** A received answer to the newest telegram completes the round. */
  lemma AnswerCompletes(run: seq<Sys>, env: Env) returns (run': seq<Sys>)
    requires DisciplinedExecution(run)
    requires
      var s := Last(run);
      s.d.l.st == WAIT_FOR_TELEGRAM && s.d.l.received && s.d.l.rx == s.p.reply && s.k == s.n && AnswerFits(s)
    ensures Continues(run, run') && |run'| == |run| + 1
    ensures NextRound(Last(run), Last(run'), R(Last(run).p.reply[0]), false, env)
  {
    var s := Last(run);
    hide DisciplinedExecution, DisciplinedNext, Inv, Queued, Counters, Pools, Promises, Accepts, NextRound, RunStep,
      CrcOk, R;
    RunKeepsAllCredits(run, |run| - 1);
    AnswersSound(run, |run| - 1);
    NewestCounted(s);
    AnswerAccepted(s);
    run' := AcceptedGoesOn(run, env);
  }

  lemma NewestCounted(s: Sys)
    requires Inv(s) && s.d.l.st == WAIT_FOR_TELEGRAM
    ensures s.n > 0
  {
    hide CrcOk, T, M, Lines, Parities, Forward, Backward, Orderly;
  }

  /** The next round, with the module's part in it, if it had not yet answered, and its R bit. */
  ghost predicate Recovered(s: Sys, s': Sys, env: Env) { NextRound(s, s', s.k < s.n, s.k < s.n, env) }

  lemma SameRound(s: Sys, s1: Sys, s': Sys, r: bool, answers: bool, env: Env)
    requires SameQuestion(s, s1, answers) && NextRound(s1, s', r, (s.k < s.n) && !answers, env)
    requires (s.k < s.n ==> r) && (answers ==> s.k < s.n)
    ensures Recovered(s, s', env)
  {
    SameIsUndisturbed(s, s1, answers, env);
    UndisturbedJoined(s, s1, s', env);
    KeepsPlainCoherent(s, s1, answers);
    hide Sent, Telegram, FromQueue, Undisturbed, PlainCoherent, SendsData;
    var took :| TakesUp(s1, s', took, r);
    assert TakesUp(s, s', took, s.k < s.n);
  }

  lemma TimeoutFacts(s: Sys) returns (s': Sys)
    ensures DisciplinedNext(s, s') && SameQuestion(s, s', false) && s'.d.l.telegramTo
    ensures s' == s.(d := s'.d) && s'.d.l.serialRead == s.d.l.serialRead
  {
    s' := s.(d := Timeouts(s.d, true, false, false));
    assert TimeoutStep(s, s', true, false, false);
  }

  /** A telegram timeout on an empty line: an answer already received completes the round, or else the answer to the
      retransmission does. */
  lemma TimeoutRecovers(run: seq<Sys>, env: Env) returns (run': seq<Sys>)
    requires DisciplinedExecution(run)
    requires
      var s := Last(run);
      s.d.l.st == WAIT_FOR_TELEGRAM && s.d.l.telegramTo && AnswerFits(s) && s.toPeer == [] && s.toDrv == []
    ensures Continues(run, run') && |run'| <= |run| + 4
    ensures Recovered(Last(run), Last(run'), env)
  {
    var s := Last(run);
    hide DisciplinedExecution, NextRound, R, Accepts, Recovered;
    if s.d.l.received && Accepts(s.d.l) {
      NewestReceived(run);
      run' := AcceptedGoesOn(run, env);
      SameRound(s, s, Last(run'), R(s.p.reply[0]), false, env);
    } else {
      run' := TimeoutGoesOn(run, env);
      var s1 := Last(run');
      run' := AnswerRecovers(run', env);
      SameRound(s, s1, Last(run'), s.k < s.n, false, env);
    }
  }

  lemma AcceptedGoesOn(run: seq<Sys>, env: Env) returns (run': seq<Sys>)
    requires DisciplinedExecution(run)
    requires Last(run).d.l.st == WAIT_FOR_TELEGRAM && Last(run).d.l.received && Accepts(Last(run).d.l)
    ensures Continues(run, run') && |run'| == |run| + 1
    ensures NextRound(Last(run), Last(run'), R(Last(run).p.reply[0]), false, env)
  {
    var s := Last(run);
    hide DisciplinedExecution, DisciplinedNext, NextRound, R, Accepts, RunStep;
    var s' := AcceptedCompletes(run, env);
    OneMoreRun(s, s', env);
    OneMore(run, s');
    run' := run + [s'];
  }

  lemma TimeoutGoesOn(run: seq<Sys>, env: Env) returns (run': seq<Sys>)
    requires DisciplinedExecution(run)
    requires
      var s := Last(run);
      s.d.l.st == WAIT_FOR_TELEGRAM && s.d.l.telegramTo && AnswerFits(s) && s.toPeer == [] && s.toDrv == [] &&
      !(s.d.l.received && Accepts(s.d.l))
    ensures Continues(run, run') && |run'| == |run| + 1
    ensures
      var s, s' := Last(run), Last(run');
      SameQuestion(s, s', false) && s'.k == s.k && AnswerFits(s') && s'.toPeer == [Item(s.n, Telegram(s'.d))] &&
      s'.toDrv == []
  {
    var s := Last(run);
    hide DisciplinedExecution, DisciplinedNext, Accepts, RunStep, Telegram;
    var s' := TimeoutRetransmits(s, env);
    OneMoreRun(s, s', env);
    OneMore(run, s');
    run' := run + [s'];
  }

  lemma NewestReceived(run: seq<Sys>)
    requires DisciplinedExecution(run)
    requires Last(run).d.l.st == WAIT_FOR_TELEGRAM && Last(run).d.l.received && Accepts(Last(run).d.l)
    ensures Last(run).k == Last(run).n
  {
    RunKeepsAllCredits(run, |run| - 1);
    hide DisciplinedExecution, Inv, Queued, Counters, Pools, Promises, Accepts;
    AcceptsNewest(Last(run));
  }

  lemma AnswerRecovers(run: seq<Sys>, env: Env) returns (run': seq<Sys>)
    requires DisciplinedExecution(run)
    requires
      var s := Last(run);
      s.d.l.st == WAIT_FOR_TELEGRAM && AnswerFits(s) && s.toPeer == [Item(s.n, Telegram(s.d))] && s.toDrv == []
    ensures Continues(run, run') && |run'| == |run| + 3
    ensures Recovered(Last(run), Last(run'), env)
  {
    var s := Last(run);
    hide DisciplinedExecution, NextRound, Telegram, R, Recovered;
    var run1 := RetransmissionAnswered(run);
    run' := AnswerCompletes(run1, env);
    SameRound(s, Last(run1), Last(run'), R(Last(run1).p.reply[0]), s.k < s.n, env);
  }

  /** Even if everything on the line is lost, from every state of every run in which the driver waits, the next round
      can be completed. */
  lemma LossRecovered(run: seq<Sys>, env: Env) returns (run': seq<Sys>)
    requires DisciplinedExecution(run) && Last(run).d.l.st == WAIT_FOR_TELEGRAM && AnswerFits(Last(run))
    ensures Continues(run, run') && Recovered(Last(run), Last(run'), env)
    ensures |run'| <= |run| + |Last(run).toPeer| + |Last(run).toDrv| + 5
  {
    var s := Last(run);
    hide DisciplinedExecution, DisciplinedNext, Recovered;
    var run1 := LineLost(run);
    var s2 := TimeoutFacts(Last(run1));
    OneMore(run1, s2);
    run' := TimeoutRecovers(run1 + [s2], env);
    SameRound(s, s2, Last(run'), s.k < s.n, false, env);
  }

  // ---- what was accepted is delivered -----------------------------------------------------------

  /** Rounds until the message under way is at the module. */
  function RoundsLeft(wr: Option<Buf>): nat {
    match wr
    case None => 0
    case Some(b) => 1 + if b.cnt < b.nFrags then b.nFrags - b.cnt else 0
  }

  function Waiting(a: Ap): nat { |a.cmdQ| + |a.rspQ| }

  /** A round brings everything nearer to its delivery, or there was nothing left to send. */
  lemma RoundProgress(s: Sys, s': Sys, env: Env)
    requires Recovered(s, s', env) && s.k <= s.n
    ensures Waiting(s'.d.a) <= Waiting(s.d.a)
    ensures
      Waiting(s'.d.a) < Waiting(s.d.a) ||
      (s.d.l.wr.Some? && RoundsLeft(s'.d.l.wr) < RoundsLeft(s.d.l.wr)) ||
      (s.d.l.wr == None && s'.d.l.wr == None && (s.k == s.n || Waiting(s.d.a) == 0))
  {
    hide M, Carries, Telegram, IsCommand;
    var took :| TakesUp(s, s', took, s.k < s.n);
  }

  lemma RoundEnd(s: Sys, s': Sys, env: Env)
    requires Recovered(s, s', env)
    ensures s'.d.l.st == WAIT_FOR_TELEGRAM && AnswerFits(s') && s'.k < s'.n && Undisturbed(s, s', env)
    ensures s.d.l.wr == None ==> s.log.took <= s'.log.pgot
  {
    hide TakesUp;
  }

  /** With nothing waiting, whoever has delivered what was taken has delivered everything accepted. */
  lemma NothingWaiting(s: Sys, s': Sys)
    requires Queued(s.d.a, s.log) && Waiting(s.d.a) == 0
    requires CreditInv(s') && s.log.took <= s'.log.pgot && s'.log.accepted == s.log.accepted
    ensures AllDelivered(s'.log)
  {
    hide CommandsOf, ResponsesOf;
    assert CommandsOf(s.log.accepted) == CommandsOf(s.log.took);
    assert ResponsesOf(s.log.accepted) == ResponsesOf(s.log.took);
    FilterPrefix(s.log.took, s'.log.pgot);
    NoMoreThanAccepted(s');
    hide Inv, Queued, Counters, Pools, Promises;
  }

  lemma NoMoreThanAccepted(s: Sys)
    requires CreditInv(s)
    ensures Commands(s.log.pgot) <= Commands(s.log.accepted) && Responses(s.log.pgot) <= Responses(s.log.accepted)
  {
    hide Inv, Queued, Counters, Pools, Promises, Commands, Responses;
    Chains(s);
    DeliveredIsDone(s);
    FilterPrefix(s.log.pgot, s.log.done);
  }

  /** Every message the application handed over is at the module. */
  predicate AllDelivered(log: Log) {
    CommandsOf(log.pgot) == CommandsOf(log.accepted) && ResponsesOf(log.pgot) == ResponsesOf(log.accepted)
  }

  /** One more round: nearer to the delivery of everything, or there. */
  lemma RoundTowards(run: seq<Sys>, env: Env) returns (run': seq<Sys>)
    requires DisciplinedExecution(run) && Last(run).d.l.st == WAIT_FOR_TELEGRAM && AnswerFits(Last(run))
    ensures Continues(run, run') && Last(run').d.l.st == WAIT_FOR_TELEGRAM && AnswerFits(Last(run'))
    ensures Undisturbed(Last(run), Last(run'), env)
    ensures AllDelivered(Last(run').log) || Nearer(Last(run), Last(run'))
  {
    RunKeepsAllCredits(run, |run| - 1);
    var s := Last(run);
    hide DisciplinedExecution, Recovered, AllDelivered, CreditInv;
    AtMostOneBehind(s);
    run' := LossRecovered(run, env);
    var s' := Last(run');
    RoundProgress(s, s', env);
    RoundEnd(s, s', env);
    if s.d.l.wr == None && Waiting(s.d.a) == 0 {
      LastInvariant(run');
      NothingWaiting(s, s');
    }
  }

  lemma LastInvariant(run: seq<Sys>)
    requires DisciplinedExecution(run)
    ensures CreditInv(Last(run))
  {
    RunKeepsAllCredits(run, |run| - 1);
  }

  lemma AtMostOneBehind(s: Sys)
    requires CreditInv(s) && s.d.l.st == WAIT_FOR_TELEGRAM
    ensures s.k <= s.n && Queued(s.d.a, s.log)
  {
    NewestAtModule(s);
  }

  predicate Nearer(s: Sys, s': Sys) {
    Waiting(s'.d.a) < Waiting(s.d.a) ||
    (Waiting(s'.d.a) == Waiting(s.d.a) &&
     (RoundsLeft(s'.d.l.wr) < RoundsLeft(s.d.l.wr) ||
      (RoundsLeft(s'.d.l.wr) == RoundsLeft(s.d.l.wr) && s.k == s.n && s'.k != s'.n)))
  }

  lemma {:induction false} WaitingCanArrive(run: seq<Sys>, env: Env) returns (run': seq<Sys>)
    requires DisciplinedExecution(run) && Last(run).d.l.st == WAIT_FOR_TELEGRAM && AnswerFits(Last(run))
    ensures Continues(run, run') && Undisturbed(Last(run), Last(run'), env) && AllDelivered(Last(run').log)
    ensures Last(run').d.l.st == WAIT_FOR_TELEGRAM && AnswerFits(Last(run'))
    decreases Waiting(Last(run).d.a), RoundsLeft(Last(run).d.l.wr), Last(run).k == Last(run).n
  {
    run' := RoundTowards(run, env);
    hide DisciplinedExecution, AllDelivered, Undisturbed;
    if !AllDelivered(Last(run').log) {
      var s1 := Last(run');
      run' := WaitingCanArrive(run', env);
      UndisturbedJoined(Last(run), s1, Last(run'), env);
    }
  }

  // ---- the other way ----------------------------------------------------------------------------

  /** In step, with no message of the module under way: all it took up is in the driver's inbound queue or beyond. */
  lemma ModuleIdle(s: Sys)
    requires CreditInv(s) && s.d.l.st == WAIT_FOR_TELEGRAM && s.k < s.n && s.p.wr == None
    ensures s.log.got == s.log.ptook
  {
    hide CrcOk, T, M, Lines, Parities, Forward, Orderly, Queued, Counters, Pools, Promises;
  }

  lemma StillDelivered(s: Sys, s': Sys, env: Env)
    requires AllDelivered(s.log) && Recovered(s, s', env) && CreditInv(s')
    ensures AllDelivered(s'.log)
  {
    hide CommandsOf, ResponsesOf, TakesUp;
    FilterPrefix(s.log.pgot, s'.log.pgot);
    NoMoreThanAccepted(s');
  }

  lemma ModuleProgress(s: Sys, s': Sys, env: Env)
    requires Recovered(s, s', env) && s.k <= s.n
    ensures s'.log.ptook == s.log.ptook
    ensures RoundsLeft(s'.p.wr) <= RoundsLeft(s.p.wr)
    ensures s.k < s.n && s'.p.wr.Some? ==> RoundsLeft(s'.p.wr) < RoundsLeft(s.p.wr)
  {
    hide TakesUp;
  }

  /** All the application handed over is at the module, and all the module began is with the driver. */
  predicate Settled(log: Log) { AllDelivered(log) && log.got == log.ptook }

  /** The module ends the message it has begun. */
  lemma {:induction false} BegunCanArrive(run: seq<Sys>, env: Env) returns (run': seq<Sys>)
    requires DisciplinedExecution(run) && Last(run).d.l.st == WAIT_FOR_TELEGRAM && AnswerFits(Last(run))
    requires AllDelivered(Last(run).log)
    ensures Continues(run, run') && Undisturbed(Last(run), Last(run'), env) && Settled(Last(run').log)
    ensures Last(run').d.l.st == WAIT_FOR_TELEGRAM && AnswerFits(Last(run'))
    ensures Last(run').p.wr == None && Last(run').k < Last(run').n
    decreases RoundsLeft(Last(run).p.wr), Last(run).k == Last(run).n
  {
    LastInvariant(run);
    var s := Last(run);
    hide DisciplinedExecution, Recovered, AllDelivered, CreditInv;
    AtMostOneBehind(s);
    run' := LossRecovered(run, env);
    LastInvariant(run');
    var s' := Last(run');
    RoundEnd(s, s', env);
    StillDelivered(s, s', env);
    ModuleProgress(s, s', env);
    hide Undisturbed;
    if s'.p.wr == None {
      ModuleIdle(s');
    } else {
      run' := BegunCanArrive(run', env);
      UndisturbedJoined(s, s', Last(run'), env);
    }
  }

  // ---- from the start ---------------------------------------------------------------------------

  /** The start: no side starts anything, and what was coherent stays so. */
  predicate Begins(s: Sys, s': Sys) {
    SameSides(s, s') && (PlainCoherent(s.d) ==> PlainCoherent(s'.d))
  }

  /** The first telegram goes out once the handshake delay has passed. */
  lemma FirstTelegram(run: seq<Sys>, env: Env) returns (run': seq<Sys>)
    requires DisciplinedExecution(run) && Last(run).d.l.st == INITIAL_HANDSHAKE
    ensures Continues(run, run') && Begins(Last(run), Last(run'))
    ensures Last(run').d.l.st == WAIT_FOR_TELEGRAM && AnswerFits(Last(run'))
  {
    var s := Last(run);
    hide DisciplinedExecution, DisciplinedNext, RunStep, Begins, AnswerFits, CreditInv;
    var s1 := HandshakeOver(s);
    OneMore(run, s1);
    LastInvariant(run + [s1]);
    var s2 := FirstRun(s1, env);
    OneMoreRun(s1, s2, env);
    OneMore(run + [s1], s2);
    run' := run + [s1] + [s2];
    BeginsJoined(s, s1, s2);
  }

  lemma HandshakeOver(s: Sys) returns (s': Sys)
    ensures DisciplinedNext(s, s') && Begins(s, s') && s'.d.l.st == s.d.l.st && s'.d.l.handshakeTo
  {
    s' := s.(d := Timeouts(s.d, false, false, true));
    TimeoutIsStep(s, s');
    hide PlainMessage, PlainQueue, DisciplinedNext;
  }

  lemma TimeoutIsStep(s: Sys, s': Sys)
    requires s' == s.(d := Timeouts(s.d, false, false, true))
    ensures DisciplinedNext(s, s')
  {
    assert TimeoutStep(s, s', false, false, true);
  }

  lemma IdleDelivers(d: Drv, env: Env)
    ensures var out := RunIdle(d, env, QUIET).1; out.got == [] && out.done == []
  {
    hide Send, Select;
  }

  lemma IdleStaysPlain(d: Drv, env: Env)
    ensures PlainCoherent(d) ==> PlainCoherent(RunIdle(d, env, QUIET).0)
  {
    IdleFollows(d, env, QUIET);
    if PlainCoherent(d) {
      hide RunIdle, PlainMessage, PlainQueue, Coherent, Fresh, PdField, Area, Telegram;
      IdleCoherent(d, env, QUIET);
    }
  }

  lemma FirstRun(s: Sys, env: Env) returns (s': Sys)
    requires CreditInv(s) && s.d.l.st == INITIAL_HANDSHAKE && s.d.l.handshakeTo
    ensures RunStep(s, s', env) && Begins(s, s') && s'.d.l.st == WAIT_FOR_TELEGRAM
    ensures AnswerFits(s')
  {
    var d := s.d.(l := s.d.l.(st := IDLE));
    var (d1, out) := Run(s.d, env, QUIET);
    s' := After(s, d1, out);
    hide RunIdle, CrcOk, T, M, R, Lines, Parities, Forward, Backward, Sent, Counted, FromQueue, QueuesOk, InboundOk,
      WriterOk, Arbitrates, Telegram, Queued, Counters, Pools, Promises, FreeCmdSlots;
    assert (d1, out) == RunIdle(d, env, QUIET);
    FirstIsRound(d, env);
    RoundKeepsLimits(d, d1, out);
    IdleKeepsState(d, env, QUIET);
    IdleDelivers(d, env);
    IdleStaysPlain(d, env);
    assert PlainCoherent(s.d) ==> PlainCoherent(d);
  }

  /** The first run of all. */
  lemma Initialised(run: seq<Sys>, env: Env) returns (run': seq<Sys>)
    requires DisciplinedExecution(run) && Last(run).d.l.st == INIT
    ensures Continues(run, run') && Begins(Last(run), Last(run'))
    ensures Last(run').d.l.st == INITIAL_HANDSHAKE
  {
    var s := Last(run);
    hide DisciplinedExecution, DisciplinedNext;
    var (d, out) := Run(s.d, env, QUIET);
    var s' := After(s, d, out);
    assert RunStep(s, s', env);
    OneMoreRun(s, s', env);
    OneMore(run, s');
    run' := run + [s'];
  }

  lemma BeginsJoined(s: Sys, s1: Sys, s': Sys)
    requires Begins(s, s1) && Begins(s1, s')
    ensures Begins(s, s')
  {
    hide PlainCoherent;
  }

  lemma SidesJoined(s: Sys, s1: Sys, s': Sys)
    requires SameSides(s, s1) && SameSides(s1, s')
    ensures SameSides(s, s')
  {
  }

  lemma Started(run: seq<Sys>, env: Env) returns (run': seq<Sys>)
    requires DisciplinedExecution(run) && AnswerFits(Last(run))
    ensures Continues(run, run') && Begins(Last(run), Last(run'))
    ensures Last(run').d.l.st == WAIT_FOR_TELEGRAM && AnswerFits(Last(run'))
  {
    LastInvariant(run);
    DriverStates(Last(run));
    assert Begins(Last(run), Last(run));
    hide DisciplinedExecution, CreditInv, AnswerFits, Begins;
    match Last(run).d.l.st {
      case INIT =>
        var run1 := Initialised(run, env);
        hide Continues;
        run' := HandshakeDone(run, run1, env);
      case INITIAL_HANDSHAKE =>
        run' := FirstTelegram(run, env);
      case _ =>
        run' := run;
    }
  }

  lemma HandshakeDone(run: seq<Sys>, run1: seq<Sys>, env: Env) returns (run': seq<Sys>)
    requires Continues(run, run1) && Begins(Last(run), Last(run1)) && Last(run1).d.l.st == INITIAL_HANDSHAKE
    ensures Continues(run, run') && Begins(Last(run), Last(run'))
    ensures Last(run').d.l.st == WAIT_FOR_TELEGRAM && AnswerFits(Last(run'))
  {
    hide DisciplinedExecution, AnswerFits, Begins;
    run' := FirstTelegram(run1, env);
    BeginsJoined(Last(run), Last(run1), Last(run'));
  }

  lemma DriverStates(s: Sys)
    requires CreditInv(s)
    ensures s.d.l.st in {INIT, INITIAL_HANDSHAKE, WAIT_FOR_TELEGRAM}
  {
    InvParts(s);
    hide Inv, Queued, Counters, Pools, Promises;
  }

  // ---- an answer of the wrong length ------------------------------------------------------------

  /** The module keeps repeating an answer of another length than the driver waits for. That such a telegram is refused
      is the model's rule: the source tests the bytes it asked for, whatever arrived. */
  predicate Stuck(s: Sys) { s.d.l.st == WAIT_FOR_TELEGRAM && !AnswerFits(s) }

  predicate SameState(s: Sys, s': Sys) {
    s'.n == s.n && s'.k == s.k && s'.p == s.p && s'.d.l.st == s.d.l.st && s'.d.l.serialRead == s.d.l.serialRead &&
    s'.log.got == s.log.got && s'.log.pgot == s.log.pgot && s'.log.ptook == s.log.ptook
  }

  lemma StuckRun(s: Sys, s': Sys, env: Env)
    requires Inv(s) && Stuck(s) && RunStep(s, s', env)
    ensures SameState(s, s')
  {
    hide Accepts, RunProcess, RunTimeouts, Telegram, Accept, Forward, Backward, Orderly, ChannelOk;
    if s.d.l.received && Accepts(s.d.l) {
      NotAccepted(s);
      assert false;
    }
    var d := s.d.(l := s.d.l.(received := false));
    Retransmits(d);
    assert s.log.got + [] == s.log.got;
  }

  lemma NotAccepted(s: Sys)
    requires Inv(s) && Stuck(s) && s.d.l.received
    ensures !Accepts(s.d.l)
  {
    if Accepts(s.d.l) {
      NewestArrives(s);
      assert false;
    }
  }

  lemma StuckPeer(s: Sys, s': Sys, took: seq<Msg>, got: seq<Msg>)
    requires Inv(s) && Stuck(s) && PeerStep(s, s', took, got)
    ensures SameState(s, s')
  {
    hide T, CrcOk, M, R, Forward, Backward, Orderly, Telegram, PeerRound;
    HeadOk(s.toPeer, s.k, s.n, Telegram(s.d));
  }

  lemma StuckLine(s: Sys, s': Sys)
    requires DeliverStep(s, s') || FaultStep(s, s') || exists t, w, h :: TimeoutStep(s, s', t, w, h)
    ensures SameState(s, s')
  {
    hide Faulty;
  }

  /** No step completes the round: by the rule above, the repeated answer is refused every time. */
  lemma StuckStays(s: Sys, s': Sys)
    requires Inv(s) && Stuck(s) && Next(s, s')
    ensures SameState(s, s')
  {
    hide Inv, RunStep, PeerStep, TimeoutStep, DeliverStep, FaultStep, LocalStep, Stuck;
    if env: Env :| RunStep(s, s', env) {
      StuckRun(s, s', env);
    } else if took, got :| PeerStep(s, s', took, got) {
      StuckPeer(s, s', took, got);
    } else if LocalStep(s, s') {
      LocalFrame(s, s');
    } else {
      StuckLine(s, s');
    }
  }

  lemma {:induction false} StuckForGood(run: seq<Sys>, run': seq<Sys>, i: nat)
    requires DisciplinedExecution(run) && Continues(run, run') && Stuck(Last(run)) && |run| - 1 <= i < |run'|
    ensures SameState(Last(run), run'[i])
    decreases i
  {
    hide Init, DisciplinedNext, CreditInv, Next, Inv;
    if i >= |run| {
      StuckForGood(run, run', i - 1);
      RunKeepsAllCredits(run', i - 1);
      InvOf(run'[i - 1]);
      DisciplinedIsNext(run'[i - 1], run'[i - 1 + 1]);
      StuckStays(run'[i - 1], run'[i - 1 + 1]);
    }
  }

  lemma InvOf(s: Sys)
    requires CreditInv(s)
    ensures Inv(s)
  {
  }

  /** What a run is to reach. */
  ghost predicate Reaches(run: seq<Sys>, run': seq<Sys>) {
    Continues(run, run') && SameSides(Last(run), Last(run')) && Settled(Last(run').log)
  }

  /** The theorem: nothing the line loses is lost for good. A run, wherever it stands, can be continued so that the
      module has delivered every message the application handed over, and the driver every message the module began,
      once and in order and without either starting anything, if and only if the module's newest answer has the length
      the driver expects, or all of that is so already. The only-if half rests on the refusal of other lengths. */
  lemma EverythingCanArrive(run: seq<Sys>)
    requires DisciplinedExecution(run)
    ensures (exists run' :: Reaches(run, run')) <==> AnswerFits(Last(run)) || Settled(Last(run).log)
  {
    if AnswerFits(Last(run)) {
      AnsweredCanArrive(run);
    } else {
      if Settled(Last(run).log) {
        assert Reaches(run, run);
      }
      hide DisciplinedExecution, AllDelivered, AnswerFits, Reaches;
      if run' :| Reaches(run, run') {
        UnfitNeverSettles(run, run');
      }
    }
  }

  lemma UnfitNeverSettles(run: seq<Sys>, run': seq<Sys>)
    requires DisciplinedExecution(run) && !AnswerFits(Last(run)) && Reaches(run, run')
    ensures Settled(Last(run).log)
  {
    LastInvariant(run);
    UnfitIsStuck(Last(run));
    hide DisciplinedExecution, CreditInv, AllDelivered;
    StuckForGood(run, run', |run'| - 1);
    SameLogs(Last(run), Last(run'));
  }

  lemma AnsweredCanArrive(run: seq<Sys>)
    requires DisciplinedExecution(run) && AnswerFits(Last(run))
    ensures exists run' :: Reaches(run, run')
  {
    hide DisciplinedExecution, AllDelivered, AnswerFits, SameSides;
    var env := Env(Zeros(FRAG), 0, 0);
    var run1 := Started(run, env);
    var run2 := WaitingCanArrive(run1, env);
    var run3 := BegunCanArrive(run2, env);
    SidesJoined(Last(run), Last(run1), Last(run2));
    SidesJoined(Last(run), Last(run2), Last(run3));
    assert Reaches(run, run3);
  }

  lemma UnfitIsStuck(s: Sys)
    requires CreditInv(s) && !AnswerFits(s)
    ensures Stuck(s)
  {
    DriverStates(s);
    hide CrcOk, Parities, Lines, Forward, Backward, Orderly, Queued, Counters, Pools, Promises;
  }

  lemma SameLogs(s: Sys, s': Sys)
    requires SameState(s, s') && SameSides(s, s') && Settled(s'.log)
    ensures Settled(s.log)
  {
  }
}

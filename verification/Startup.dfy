/** Process data gets to flow: every run out of the configuration, with no remap under way, can be continued so that the
    module's answer to "setup complete" puts the driver into the RUN state and the application's data goes out. */
module Startup {
  import opened Abp
  import opened Options
  import opened DriverSpec
  import opened Fragments
  import opened Rounds
  import opened LinkSystem
  import opened ExactlyOnce
  import opened EndToEnd
  import opened ProcessData
  import opened Messages
  import opened Sizes
  import opened Credits
  import opened Recovery
  import opened Service

  /** "Set attribute 5 of instance 1 of object 1" to 1, and its positive answer. */
  function SetupComplete(): (m: OutMsg)
    ensures IsCommand(m) && PlainMessage(m)
  {
    [1, 1, 1, 0, 0x42, 1, 5, 0, 1]
  }

  function SetupAnswer(): (m: Msg)
    ensures !IsCommand(m) && SetupAnswered(m)
  {
    [1, 1, 1, 0, 0x02, 0, 5, 0]
  }

  // ---- what the steps on the way leave alone ----------------------------------------------------

  lemma HandedStaysPlain(s: Sys, s': Sys)
    requires OnlyHanded(s, s') && PlainCoherent(s.d)
    ensures PlainCoherent(s'.d)
  {
    hide PlainMessage, PlainQueue;
  }

  lemma ModuleStaysPlain(s: Sys, s': Sys, m: Msg)
    requires OnlyModule(s, s', m) && PlainCoherent(s.d)
    ensures PlainCoherent(s'.d)
  {
    hide PlainMessage, PlainQueue;
  }

  lemma CommandPosted(s: Sys) returns (s': Sys)
    requires SendMessage(s.d.a, SetupComplete()).1 == OK && PlainCoherent(s.d)
    ensures DisciplinedNext(s, s') && PlainCoherent(s'.d) && (AtRest(s) ==> AtRest(s'))
    ensures s'.log == s.log.(accepted := s.log.accepted + [SetupComplete()])
    ensures Configuring(s'.d.a) == Configuring(s.d.a)
  {
    var m := SetupComplete();
    var (a, status) := SendMessage(s.d.a, m);
    s' := s.(d := s.d.(a := a), log := s.log.(accepted := s.log.accepted + [m]));
    assert SendStep(s, s', m) && DisciplinedSend(s, s');
    PlainPosted(s.d, m);
    hide SendMessage, DisciplinedNext, SetupComplete, PlainCoherent;
    SendKeepsFlags(s.d.a, m);
  }

  lemma PlainPosted(d: Drv, m: OutMsg)
    requires PlainCoherent(d) && PlainMessage(m)
    ensures PlainCoherent(d.(a := SendMessage(d.a, m).0))
  {
    SendKeepsFlags(d.a, m);
    PostedQueues(d.a, m);
    hide SendMessage, LooksLikeRemapAck;
  }

  lemma AddedQueues(a: Ap, m: OutMsg)
    requires PlainMessage(m)
    ensures
      var a1 := AddFragAndPost(a, m).0;
      a1.remapWrite == a.remapWrite && (PlainQueue(a.cmdQ) ==> PlainQueue(a1.cmdQ)) &&
      (PlainQueue(a.rspQ) ==> PlainQueue(a1.rspQ))
  {
    hide IsCommand, PlainMessage, FragCount, SizesFit;
  }

  lemma PostedQueues(a: Ap, m: OutMsg)
    requires PlainMessage(m)
    ensures
      var a1 := SendMessage(a, m).0;
      a1.remapWrite == a.remapWrite && (PlainQueue(a.cmdQ) ==> PlainQueue(a1.cmdQ)) &&
      (PlainQueue(a.rspQ) ==> PlainQueue(a1.rspQ))
  {
    AddedQueues(Allocated(a, m).(remapWrite := a.remapWrite || LooksLikeRemapAck(m, REMAP_WRITE),
                                 remapRead := a.remapRead || LooksLikeRemapAck(m, REMAP_READ)), m);
    hide IsCommand, LooksLikeRemapAck, AddFragAndPost, PlainQueue, CanAllocate;
  }

  // ---- an answer is owed ------------------------------------------------------------------------

  /** Calm, handed over, plain. */
  predicate Ready(s: Sys) { Calm(s) && s.log.handed == s.log.got && !Configuring(s.d.a) && PlainCoherent(s.d) }

  lemma CanBeReady(run: seq<Sys>, env: Env) returns (run': seq<Sys>)
    requires DisciplinedExecution(run) && Last(run).d.l.st == WAIT_FOR_TELEGRAM && AnswerFits(Last(run))
    requires !Configuring(Last(run).d.a) && PlainCoherent(Last(run).d)
    ensures Continues(run, run') && Ready(Last(run'))
    ensures Last(run').log.accepted == Last(run).log.accepted && Last(run').log.ptook == Last(run).log.ptook
  {
    hide DisciplinedExecution, Calm, PlainCoherent, Follows;
    var run1 := CanCalm(run, env);
    run' := CanHand(run1);
    HandedStaysPlain(Last(run1), Last(run'));
  }

  /** The module has a command to answer. */
  predicate Owing(s: Sys) { Responses(s.log.ptook) < Commands(s.log.pgot) }

  /** With everything settled, the credits in use are the answers the module owes. */
  lemma CreditsOwed(s: Sys)
    requires CreditInv(s) && Ready(s)
    ensures s.d.a.nTo == Commands(s.log.pgot) - Responses(s.log.ptook) && 0 < s.d.a.lim.appl
  {
    assert s.d.a.lim.Valid();
    hide Inv, Queued, Pools, Promises, CommandsOf, ResponsesOf, AtRest, PlainCoherent;
  }

  lemma CanOwe(run: seq<Sys>, env: Env) returns (run': seq<Sys>)
    requires DisciplinedExecution(run) && Ready(Last(run))
    ensures Continues(run, run') && Ready(Last(run')) && Owing(Last(run'))
  {
    var s := Last(run);
    LastInvariant(run);
    CreditsOwed(s);
    run' := run;
    if s.d.a.nTo == 0 {
      SendSucceeds(run, |run| - 1, SetupComplete());
      hide DisciplinedExecution, DisciplinedNext, CreditInv, PlainCoherent, SendMessage, SetupComplete, AllDelivered;
      var s1 := CommandPosted(s);
      OneMore(run, s1);
      CalmFits(s1);
      run' := CanBeReady(run + [s1], env);
      LastInvariant(run');
      CreditsOwed(Last(run'));
      AcceptedOwes(s, Last(run'));
    }
  }

  lemma AcceptedOwes(s: Sys, s': Sys)
    requires CreditInv(s) && Ready(s) && s.d.a.nTo == 0 && Ready(s') && s'.log.ptook == s.log.ptook
    requires s'.log.accepted == s.log.accepted + [SetupComplete()]
    ensures Owing(s')
  {
    CreditsOwed(s);
    FilterOne(s.log.accepted, SetupComplete());
    hide CreditInv, CommandsOf, ResponsesOf, AtRest, PlainCoherent, Configuring, IsCommand;
  }

  // ---- the answer starts the process data -------------------------------------------------------

  /** Running, with the sizes the application gave. */
  predicate Running(d: Drv, env: Env) { d.a.state == IN_RUN && SetSizes(d, env) && PlainCoherent(d) }

  lemma AnswerStarts(s: Sys, s1: Sys, s': Sys, env: Env)
    requires CreditInv(s) && Ready(s) && OnlyModule(s, s1, SetupAnswer()) && Undisturbed(s1, s', env)
    requires s'.log.got == s'.log.ptook
    ensures Running(s'.d, env)
  {
    ModuleStaysPlain(s, s1, SetupAnswer());
    var more := s'.log.got[|s1.log.got|..];
    assert s'.log.got == s.log.got + [SetupAnswer()];
    assert more[0] == SetupAnswer();
    assert StartsData(more);
    hide CreditInv, Coherent, PlainMessage, PlainQueue, AllDelivered, StartsData;
  }

  lemma CanRun(run: seq<Sys>, env: Env) returns (run': seq<Sys>)
    requires DisciplinedExecution(run) && Ready(Last(run)) && Owing(Last(run))
    ensures Continues(run, run') && Running(Last(run').d, env) && Calm(Last(run'))
  {
    LastInvariant(run);
    var s, m := Last(run), SetupAnswer();
    assert MayStart(s, m);
    hide DisciplinedExecution, CreditInv, SetupAnswer, MayStart, Undisturbed, AllDelivered, Running, PlainCoherent;
    var run1 := ModuleCanStart(run, m, env);
    LastInvariant(run1);
    StartedAllDelivered(s, Last(run1), m);
    run' := BegunCanArrive(run1, env);
    AnswerStarts(s, Last(run1), Last(run'), env);
  }

  // ---- data -------------------------------------------------------------------------------------

  lemma DataWritten(s: Sys, data: PdBuffer, env: Env) returns (s': Sys)
    requires Running(s.d, env) && Calm(s)
    ensures DisciplinedNext(s, s') && Running(s'.d, env) && Calm(s')
    ensures s'.d.writeData[..env.writeSize] == data[..env.writeSize]
  {
    s' := s.(d := WriteProcessData(s.d, data),
             log := s.log.(written := s.log.written + [data[..s.d.a.writePdLen]]));
    assert WritePdStep(s, s', data);
    WriteCoherent(s.d, data);
    hide DisciplinedNext, Coherent, PlainMessage, PlainQueue, CommandsOf, ResponsesOf;
  }

  /** The telegram carries these bytes as process data. */
  predicate Carrying(s: Sys, data: PdBuffer, n: PdLength) {
    s.d.a.state == IN_RUN && s.d.a.writePdLen == n && PdField(Telegram(s.d)) == data[..n]
  }

  lemma RoundCarries(s: Sys, s': Sys, data: PdBuffer, env: Env)
    requires Running(s.d, env) && Calm(s) && Recovered(s, s', env) && CreditInv(s')
    requires s'.d.writeData == s.d.writeData && s.d.writeData[..env.writeSize] == data[..env.writeSize]
    ensures Carrying(s', data, env.writeSize)
  {
    GotIsTakenUp(s');
    assert s'.log.got[|s.log.got|..] == [];
    hide TakesUp, CreditInv, Coherent, PlainMessage, PlainQueue, AllDelivered, Telegram, PdField, R, FreeCmdSlots;
  }

  lemma CanCarry(run: seq<Sys>, data: PdBuffer, env: Env) returns (run': seq<Sys>)
    requires DisciplinedExecution(run) && Running(Last(run).d, env) && Calm(Last(run))
    ensures Continues(run, run') && Carrying(Last(run'), data, env.writeSize)
  {
    var s := Last(run);
    hide DisciplinedExecution, DisciplinedNext, CreditInv, Running, AllDelivered, Recovered, Carrying, Image;
    var s1 := DataWritten(s, data, env);
    OneMore(run, s1);
    var run1 := run + [s1];
    CalmFits(s1);
    run' := LossRecovered(run1, env);
    LastInvariant(run');
    RoundEnd(s1, Last(run'), env);
    SameData(run1);
    SameData(run');
    RoundCarries(s1, Last(run'), data, env);
  }

  lemma SameData(run: seq<Sys>)
    requires DisciplinedExecution(run)
    ensures Last(run).d.writeData == Image(Last(run).log.written)
  {
    DisciplinedIsExecution(run);
    hide DisciplinedExecution;
    BufferIsImage(run, |run| - 1);
  }

  lemma DisciplinedIsExecution(run: seq<Sys>)
    requires DisciplinedExecution(run)
    ensures Execution(run)
  {
    hide Init, DisciplinedNext, Next;
    forall i: nat | i + 1 < |run|
      ensures Next(run[i], run[i + 1])
    {
      DisciplinedIsNext(run[i], run[i + 1]);
    }
  }

  /** Every run out of the configuration, with no remap under way, can be continued until the driver runs and sends any
      data the application may write, in an area of any size it may ask for. */
  lemma DataCanFlow(run: seq<Sys>, data: PdBuffer, env: Env)
    requires DisciplinedExecution(run) && AnswerFits(Last(run)) && !Configuring(Last(run).d.a)
    requires PlainCoherent(Last(run).d)
    ensures exists run' :: Continues(run, run') && Carrying(Last(run'), data, env.writeSize)
  {
    hide DisciplinedExecution, CreditInv, AllDelivered, PlainCoherent, Running, Ready, Owing, Follows, Carrying;
    var run1 := Started(run, env);
    var run2 := CanBeReady(run1, env);
    var run3 := CanOwe(run2, env);
    var run4 := CanRun(run3, env);
    var run5 := CanCarry(run4, data, env);
    assert Continues(run, run5);
  }

  /** So process data flows: with any limits, data and area there is a run of the system in which the driver runs and
      sends the data. */
  lemma SomeRunCarries(lim: Limits, data: PdBuffer, env: Env)
    requires lim.Valid()
    ensures exists run: seq<Sys> ::
      DisciplinedExecution(run) && run[0].d.a.lim == lim && Carrying(Last(run), data, env.writeSize)
  {
    var d := Initial(lim);
    var p := Peer(false, Zeros(OVERHEAD), None, Rx(Zeros(MAX_MESSAGE), 0, false), false);
    var s0 := Sys(d, p, [], [], 0, 0, 0, 0, Log([], [], [], [], [], [], [], []));
    var s1 := s0.(d := d.(a := d.a.(state := IN_RUN_NO_PD)));
    assert Init(s0) && ConfigDoneStep(s0, s1);
    DoneIsNext(s0, s1);
    assert DisciplinedExecution([s0]);
    OneMore([s0], s1);
    var run := [s0] + [s1];
    assert PlainCoherent(s1.d) && AnswerFits(s1);
    hide DisciplinedExecution, PlainCoherent, Carrying;
    DataCanFlow(run, data, env);
    var run' :| Continues(run, run') && Carrying(Last(run'), data, env.writeSize);
    assert run'[0] == s0;
  }

  lemma DoneIsNext(s: Sys, s': Sys)
    requires ConfigDoneStep(s, s')
    ensures DisciplinedNext(s, s')
  {
    hide ConfigDoneStep;
  }
}

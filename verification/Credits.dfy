/** Command credits and flow control. The module starts a command only if the last telegram it took in had the R bit
    and answers each command at most once; the application answers each command at most once; during configuration the
    module sends no commands. Then the credit counter is exact in every run, no buffer or queue on the inbound and
    response side ever runs out, and a command is accepted exactly while credits are left. */
module Credits {
  import opened Abp
  import opened Options
  import opened DriverSpec
  import opened Fragments
  import opened Rounds
  import opened LinkSystem
  import opened ExactlyOnce
  import opened EndToEnd

  // ---- who promises what ------------------------------------------------------------------------

  predicate ModuleObeys(p': Peer, log': Log, took: seq<Msg>) {
    took != [] ==> if IsCommand(took[0]) then p'.seesR else Responses(log'.ptook) <= Commands(log'.pgot)
  }

  predicate ApplicationOwes(log: Log) { Responses(log.accepted) < Commands(log.handed) }

  ghost predicate DisciplinedPeer(s: Sys, s': Sys) {
    exists took, got :: PeerStep(s, s', took, got) && ModuleObeys(s'.p, s'.log, took)
  }

  ghost predicate DisciplinedSend(s: Sys, s': Sys) {
    exists m: OutMsg :: SendStep(s, s', m) && (IsCommand(m) || ApplicationOwes(s.log))
  }

  ghost predicate DisciplinedTake(s: Sys, s': Sys) {
    ConfigTakeStep(s, s') && (s.d.a.inQ != [] ==> !IsCommand(s.d.a.inQ[0]))
  }

  ghost predicate DisciplinedNext(s: Sys, s': Sys) {
    (exists env: Env :: RunStep(s, s', env)) || (exists t, w, h :: TimeoutStep(s, s', t, w, h)) ||
    DeliverStep(s, s') || DisciplinedPeer(s, s') || FaultStep(s, s') || DisciplinedSend(s, s') || HandleStep(s, s') ||
    (exists m: OutMsg :: ConfigPostStep(s, s', m)) || DisciplinedTake(s, s') || ConfigDoneStep(s, s') ||
    (exists data: PdBuffer :: WritePdStep(s, s', data)) || NoPdStep(s, s')
  }

  ghost predicate DisciplinedExecution(run: seq<Sys>) {
    run != [] && Init(run[0]) && forall i: nat :: i + 1 < |run| ==> DisciplinedNext(run[i], run[i + 1])
  }

  lemma DisciplinedIsNext(s: Sys, s': Sys)
    requires DisciplinedNext(s, s')
    ensures Next(s, s')
  {
    hide RunStep, TimeoutStep, DeliverStep, PeerStep, FaultStep, SendStep, HandleStep, ConfigPostStep, ConfigTakeStep,
      ConfigDoneStep, WritePdStep, NoPdStep;
  }

  // ---- the invariant ----------------------------------------------------------------------------

  function Held(wr: Option<OutBuf>, commands: bool): nat {
    if wr.Some? && IsCommand(wr.value.msg) == commands then 1 else 0
  }

  /** The counters of APLINK in terms of what happened so far. */
  predicate Counters(a: Ap, log: Log) {
    a.nTo + Responses(log.handed) == Commands(log.accepted) && a.nTo <= a.lim.appl &&
    a.nFrom + Responses(log.done) == Commands(log.got)
  }

  predicate Pools(a: Ap, wr: Option<OutBuf>) {
    a.cmdUsed == |a.cmdQ| + Held(wr, true) && a.rspUsed == |a.rspQ| + Held(wr, false)
  }

  /** Nobody sends what he may not: the promises, summed up over the run. */
  predicate Promises(s: Sys) {
    Commands(s.log.ptook) <= Responses(s.log.done) + s.d.a.lim.abcc &&
    Responses(s.log.ptook) <= Commands(s.log.pgot) &&
    Responses(s.log.accepted) <= Commands(s.log.handed) &&
    (R(s.d.l.ctrl) ==> s.d.a.nFrom < s.d.a.lim.abcc)
  }

  ghost predicate CreditInv(s: Sys) {
    Inv(s) && Queued(s.d.a, s.log) && Counters(s.d.a, s.log) && Pools(s.d.a, s.d.l.wr) && Promises(s) &&
    s.d.l.st != PROCESS_TELEGRAM
  }

  // ---- consequences -----------------------------------------------------------------------------

  lemma DropLast(a: seq<Msg>, b: seq<Msg>, m: Msg)
    requires a + [m] == b + [m]
    ensures a == b
  {
    assert a == (a + [m])[..|a|] && b == (b + [m])[..|b|];
    assert |a + [m]| == |b + [m]|;
  }

  /** What the sending side has finished, for either way the two sides stand. */
  lemma FinishedBehind(wr: Option<Buf>, lastM: bool, took: seq<Msg>, rx: Rx, got: seq<Msg>, done: seq<Msg>)
    requires Synced(wr, lastM, took, rx, got) && took == done + (if wr.Some? then [wr.value.msg] else [])
    ensures got == done
  {
    hide Holds, UnderWay;
    if wr.Some? {
      DropLast(got, done, wr.value.msg);
    } else {
      assert done + [] == done;
    }
  }

  /** What the module delivered, the driver has completed. */
  lemma DeliveredIsDone(s: Sys)
    requires Inv(s)
    ensures s.log.pgot <= s.log.done
  {
    hide CrcOk, T, M, FragmentOf, Receive, Lines, Parities, Backward, Synced, QueuesOk, InboundOk, Telegram;
    var tel := Telegram(s.d);
    if s.k == s.n {
      FinishedBehind(s.d.l.wr, M(s.d.l.ctrl), s.log.took, s.p.rx, s.log.pgot, s.log.done);
    } else {
      var (rx, more) := Receive(s.p.rx, M(tel[0]), FragmentOf(tel));
      FinishedBehind(s.d.l.wr, M(s.d.l.ctrl), s.log.took, rx, s.log.pgot + more, s.log.done);
    }
  }

  lemma TookSplit(s: Sys)
    requires Inv(s)
    ensures s.log.done <= s.log.took
    ensures Commands(s.log.took) == Commands(s.log.done) + Held(s.d.l.wr, true)
    ensures Responses(s.log.took) == Responses(s.log.done) + Held(s.d.l.wr, false)
  {
    hide Lines, Parities, Backward, Forward, Starting, Exchanging, IsCommand;
    if s.d.l.wr.Some? {
      FilterAppend(s.log.done, [s.d.l.wr.value.msg]);
      OneMessage(s.d.l.wr.value.msg);
    } else {
      assert s.log.done + [] == s.log.done;
    }
  }

  lemma GotIsTaken(s: Sys)
    requires Inv(s)
    ensures s.log.got <= s.log.ptook
  {
    hide CrcOk, T, FragmentOf, StoreFragment, MessageIn, Lines, Parities, Forward;
  }

  /** The two chains of counts behind all bounds. */
  lemma Chains(s: Sys)
    requires Inv(s) && Queued(s.d.a, s.log)
    ensures
      var log := s.log;
      Responses(log.handed) <= Responses(log.got) <= Responses(log.ptook) &&
      Commands(log.pgot) <= Commands(log.done) <= Commands(log.took) <= Commands(log.accepted) &&
      Responses(log.done) <= Responses(log.took) <= Responses(log.accepted) &&
      Commands(log.handed) <= Commands(log.got) <= Commands(log.ptook)
    ensures Commands(s.log.accepted) == Commands(s.log.took) + |s.d.a.cmdQ|
    ensures Responses(s.log.accepted) == Responses(s.log.took) + |s.d.a.rspQ|
    ensures Responses(s.log.got) == Responses(s.log.handed) + Responses(s.d.a.inQ)
    ensures Commands(s.log.got) == Commands(s.log.handed) + Commands(s.d.a.inQ)
  {
    DeliveredIsDone(s);
    TookSplit(s);
    GotIsTaken(s);
    hide Inv;
    FilterAppend(s.log.handed, s.d.a.inQ);
    FilterPrefix(s.log.got, s.log.ptook);
    FilterPrefix(s.log.pgot, s.log.done);
    FilterPrefix(s.log.done, s.log.took);
    hide CommandsOf, ResponsesOf;
  }

  /** The module never has more on its way than the inbound buffers can take. */
  lemma InboundRoom(s: Sys)
    requires CreditInv(s)
    ensures |s.log.ptook| <= |s.log.handed| + s.d.a.lim.Inbound()
    ensures s.d.a.inUsed == |s.d.a.inQ| && |s.log.got| == |s.log.handed| + |s.d.a.inQ|
  {
    Chains(s);
    FilterCount(s.log.ptook);
    FilterCount(s.log.handed);
    hide CommandsOf, ResponsesOf, Starting, Exchanging, Parities, Lines, Forward, Backward;
  }

  lemma NeverOutOfBuffers(s: Sys)
    requires CreditInv(s)
    ensures !OutOfBuffers(s)
  {
    InboundRoom(s);
  }

  // ---- the steps --------------------------------------------------------------------------------

  lemma FilterOne(s: seq<Msg>, m: Msg)
    ensures Commands(s + [m]) == Commands(s) + if IsCommand(m) then 1 else 0
    ensures Responses(s + [m]) == Responses(s) + if IsCommand(m) then 0 else 1
  {
    FilterAppend(s, [m]);
    OneMessage(m);
  }

  lemma CountedFrom(a: Ap, a0: Ap, a1: Ap, got: seq<Msg>, done: seq<Msg>, took: seq<Msg>)
    requires SameAp(a, a0) && Counted(a0, a1, got, done) && FromQueue(a0, a1, took)
    ensures Counted(a, a1, got, done) && FromQueue(a, a1, took)
  {
    hide IsCommand, Commands, Responses;
  }

  /** Messages delivered and completed move the counter of the module's open commands. */
  lemma OpenCommands(a: Ap, a1: Ap, log: Log, got: seq<Msg>, done: seq<Msg>)
    requires Counted(a, a1, got, done) && a.nFrom + Responses(log.done) == Commands(log.got)
    requires Commands(log.got + got) <= Responses(log.done) + a.lim.abcc && a.lim.Valid()
    requires Responses(log.done + done) <= Commands(log.got + got)
    ensures a1.nFrom + Responses(log.done + done) == Commands(log.got + got)
  {
    FilterAppend(log.got, got);
    FilterAppend(log.done, done);
    hide CommandsOf, ResponsesOf;
  }

  lemma RoundFacts(s: Sys, s': Sys, d: Drv, out: Out)
    requires RoundRun(s, s', d, out)
    ensures Counted(s.d.a, s'.d.a, out.got, out.done) && FromQueue(s.d.a, s'.d.a, out.took)
    ensures s'.log == s.log.(took := s.log.took + out.took, got := s.log.got + out.got, done := s.log.done + out.done)
    ensures R(s'.d.l.ctrl) == FreeCmdSlots(s'.d.a) && s'.d.l.st == WAIT_FOR_TELEGRAM && s'.p == s.p
    ensures Sent(s.d.l.wr, s'.d.l.wr, out.took, Telegram(s'.d))
    ensures out.done == (if Finished(s.d.l.wr) then [s.d.l.wr.value.msg] else [])
  {
    hide SameAp, Counted, FromQueue, Sent, WriterOk, QueuesOk, InboundOk, CrcOk, T, R, Telegram, FreeCmdSlots;
    CountedFrom(s.d.a, d.a, s'.d.a, out.got, out.done, out.took);
  }

  lemma RoundCounters(s: Sys, s': Sys, d: Drv, out: Out)
    requires CreditInv(s) && Inv(s') && Queued(s'.d.a, s'.log) && RoundRun(s, s', d, out)
    ensures Counters(s'.d.a, s'.log) && Promises(s')
  {
    RoundFacts(s, s', d, out);
    assert s.d.a.lim.Valid();
    Chains(s');
    FilterAppend(s.log.done, out.done);
    hide Inv, CommandsOf, ResponsesOf, Queued, RoundRun, Sent, FromQueue, R, Telegram, Pools;
    OpenCommands(s.d.a, s'.d.a, s.log, out.got, out.done);
  }

  /** The pools over one round: what was completed is freed, what was taken moves from the queue to the link. */
  lemma PoolsOver(a: Ap, a1: Ap, wr: Option<OutBuf>, wr1: Option<OutBuf>, took: seq<Msg>, got: seq<Msg>,
                  tel: RxTelegram)
    requires Pools(a, wr) && WriterOk(wr) && FromQueue(a, a1, took) && Sent(wr, wr1, took, tel)
    requires Counted(a, a1, got, if Finished(wr) then [wr.value.msg] else [])
    ensures Pools(a1, wr1)
  {
    hide IsCommand, CommandsOf, ResponsesOf, M, Carries, FragCount;
    if wr.Some? {
      OneMessage(wr.value.msg);
    } else {
      OneMessage(Zeros(HEADER));
    }
    hide Commands, Responses;
  }

  lemma RoundPools(s: Sys, s': Sys, d: Drv, out: Out)
    requires CreditInv(s) && RoundRun(s, s', d, out)
    ensures Pools(s'.d.a, s'.d.l.wr)
  {
    RoundFacts(s, s', d, out);
    assert WriterOk(s.d.l.wr);
    hide Inv, Queued, RoundRun, Pools, Promises, Counters, Sent, WriterOk, Counted, FromQueue;
    PoolsOver(s.d.a, s'.d.a, s.d.l.wr, s'.d.l.wr, out.took, out.got, Telegram(s'.d));
  }

  lemma RunKeepsCredits(s: Sys, s': Sys, env: Env)
    requires CreditInv(s) && RunStep(s, s', env) && Inv(s') && Queued(s'.d.a, s'.log)
    ensures CreditInv(s')
  {
    hide Inv, Queued, RunStep, OutOfBuffers, RoundRun, Counters, Pools, Promises;
    RunIsEither(s, s', env);
    NeverOutOfBuffers(s);
    if d, out :| RoundRun(s, s', d, out) {
      RoundCounters(s, s', d, out);
      RoundPools(s, s', d, out);
      RoundFacts(s, s', d, out);
    } else {
      QuietCredits(s, s');
    }
  }

  lemma QuietCredits(s: Sys, s': Sys)
    requires CreditInv(s) && QuietRun(s, s')
    ensures Counters(s'.d.a, s'.log) && Pools(s'.d.a, s'.d.l.wr) && Promises(s')
  {
    hide Inv, Queued, R, Commands, Responses;
  }

  /** The module takes up a message only when everything it sent before has been processed, and then it has seen the R
      bit of the newest telegram. */
  lemma NewMessageAtModule(s: Sys, s': Sys, took: seq<Msg>, got: seq<Msg>)
    requires Inv(s) && PeerStep(s, s', took, got) && took != []
    ensures s.log.ptook == s.log.got && s'.p.seesR == R(s.d.l.ctrl) && |took| == 1
  {
    var x := s.toPeer[0];
    assert Exchanging(s) && ItemOk(x, s.k, s.n, Telegram(s.d));
    NewIsNewest(s, x);
    hide CrcOk, T, M, R, FragmentOf, ChannelOk, Carries, Forward, Lines, Receive, Orderly;
    assert s.k == s.m && s.p.wr == None;
  }

  lemma PeerKeepsPromises(s: Sys, s': Sys, took: seq<Msg>, got: seq<Msg>)
    requires CreditInv(s) && PeerStep(s, s', took, got) && ModuleObeys(s'.p, s'.log, took)
    ensures Promises(s')
  {
    hide Inv, Queued, R, PeerStep, CommandsOf, ResponsesOf, IsCommand, Pools;
    PeerStepSame(s, s', took, got);
    FilterPrefix(s.log.pgot, s.log.pgot + got);
    if took == [] {
      assert s.log.ptook + took == s.log.ptook;
    } else {
      NewMessageAtModule(s, s', took, got);
      FilterOne(s.log.ptook, took[0]);
      assert took == [took[0]];
    }
  }

  lemma OtherKeepsCounters(s: Sys, s': Sys)
    requires CreditInv(s) && SameQueuing(s, s')
    ensures Counters(s'.d.a, s'.log) && Pools(s'.d.a, s'.d.l.wr) && s'.d.l.st != PROCESS_TELEGRAM
    ensures s'.log == s.log.(written := s'.log.written) ==> Promises(s')
  {
    hide Inv, Queued, R, CommandsOf, ResponsesOf, Held;
  }

  /** Posting a message: the credit is taken if and only if the message is accepted. */
  lemma PostKeepsCredits(a: Ap, m: OutMsg, log: Log, wr: Option<OutBuf>)
    requires Counters(a, log) && Pools(a, wr) && a.lim.Valid()
    ensures
      var (a1, status) := AddFragAndPost(Allocated(a, m), m);
      Counters(a1, log.(accepted := log.accepted + if status == OK then [m] else [])) && Pools(a1, wr)
  {
    hide IsCommand, Held, FragCount;
    FilterOne(log.accepted, m);
    hide CommandsOf, ResponsesOf, Commands, Responses;
    assert log.accepted + [] == log.accepted;
  }

  lemma RaisedFlags(a: Ap, m: OutMsg, rw: bool, rr: bool)
    ensures
      var (a1, status) := AddFragAndPost(Allocated(a, m), m);
      AddFragAndPost(Allocated(a, m).(remapWrite := rw, remapRead := rr), m) ==
        (a1.(remapWrite := rw, remapRead := rr), status)
  {
    hide IsCommand, FragCount;
  }

  lemma PostCounters(s: Sys, s': Sys, m: OutMsg)
    requires Counters(s.d.a, s.log) && Pools(s.d.a, s.d.l.wr) && s.d.a.lim.Valid() && ConfigPostStep(s, s', m)
    ensures Counters(s'.d.a, s'.log) && Pools(s'.d.a, s.d.l.wr)
  {
    hide AddFragAndPost, IsCommand, Commands, Responses, Allocated, CanAllocate;
    PostKeepsCredits(s.d.a, m, s.log, s.d.l.wr);
    assert s.log.accepted + [] == s.log.accepted;
  }

  lemma SendCounters(s: Sys, s': Sys, m: OutMsg)
    requires Counters(s.d.a, s.log) && Pools(s.d.a, s.d.l.wr) && s.d.a.lim.Valid() && SendStep(s, s', m)
    ensures Counters(s'.d.a, s'.log) && Pools(s'.d.a, s.d.l.wr)
  {
    hide AddFragAndPost, IsCommand, LooksLikeRemapAck, Commands, Responses, Allocated, CanAllocate, Held;
    var a := s.d.a;
    PostKeepsCredits(a, m, s.log, s.d.l.wr);
    RaisedFlags(a, m, a.remapWrite || LooksLikeRemapAck(m, REMAP_WRITE),
                a.remapRead || LooksLikeRemapAck(m, REMAP_READ));
    assert s.log.accepted + [] == s.log.accepted;
  }

  lemma SendKeepsCredits(s: Sys, s': Sys, m: OutMsg)
    requires CreditInv(s) && (SendStep(s, s', m) || ConfigPostStep(s, s', m))
    requires IsCommand(m) || ApplicationOwes(s.log)
    ensures Counters(s'.d.a, s'.log) && Pools(s'.d.a, s'.d.l.wr) && Promises(s') && s'.d.l.st != PROCESS_TELEGRAM
  {
    assert s.d.a.lim.Valid();
    hide Inv, Queued, Counters, Pools;
    if SendStep(s, s', m) {
      SendCounters(s, s', m);
    } else {
      PostCounters(s, s', m);
    }
    SendSame(s, s', m);
    FilterOne(s.log.accepted, m);
    hide SendStep, ConfigPostStep, IsCommand, R, Commands, Responses;
  }

  lemma SendSame(s: Sys, s': Sys, m: OutMsg)
    requires SendStep(s, s', m) || ConfigPostStep(s, s', m)
    ensures s'.d.l == s.d.l && s'.d.a.nFrom == s.d.a.nFrom && s'.d.a.lim == s.d.a.lim
    ensures s'.log == s.log || s'.log == s.log.(accepted := s.log.accepted + [m])
  {
    hide IsCommand, LooksLikeRemapAck, FragCount, SizesFit, AddFragAndPost;
    PostSame(Allocated(s.d.a, m).(remapWrite := s.d.a.remapWrite || LooksLikeRemapAck(m, REMAP_WRITE),
                                  remapRead := s.d.a.remapRead || LooksLikeRemapAck(m, REMAP_READ)), m);
    PostSame(Allocated(s.d.a, m), m);
    assert s.log.accepted + [] == s.log.accepted;
  }

  lemma PostSame(a: Ap, m: OutMsg)
    ensures AddFragAndPost(a, m).0.nFrom == a.nFrom && AddFragAndPost(a, m).0.lim == a.lim
  {
    hide IsCommand, FragCount;
  }

  lemma ValidLimits(s: Sys)
    requires Inv(s)
    ensures s.d.a.lim.Valid()
  {
    hide Starting, Exchanging, Parities, Lines, Forward, Backward, QueuesOk, InboundOk;
  }

  /** A message handed over gives its credit back if it is a response. */
  /** Taking the head of the inbound queue gives a response's credit back. */
  predicate Taken(s: Sys, s': Sys) {
    s.d.a.inQ != [] && s'.d.l == s.d.l && s'.p == s.p &&
    s'.d.a == s.d.a.(inQ := s.d.a.inQ[1..], inUsed := s'.d.a.inUsed, nTo := s'.d.a.nTo) &&
    s'.d.a.nTo == (if IsCommand(s.d.a.inQ[0]) then s.d.a.nTo else (s.d.a.nTo + 255) % 256) &&
    s'.log == s.log.(handed := s.log.handed + [s.d.a.inQ[0]])
  }

  lemma TakeIsTaken(s: Sys, s': Sys)
    requires HandleStep(s, s') || DisciplinedTake(s, s')
    ensures if s.d.a.inQ == [] then s' == s else Taken(s, s')
  {
    hide IsCommand;
    if s.d.a.inQ == [] {
      assert s.log.handed + [] == s.log.handed;
    }
  }

  lemma CreditTaken(s: Sys)
    requires CreditInv(s) && s.d.a.inQ != [] && !IsCommand(s.d.a.inQ[0])
    ensures 1 <= s.d.a.nTo < 256
  {
    ValidLimits(s);
    Chains(s);
    HeadCounts(s.d.a.inQ);
    hide Inv, Queued, Pools, IsCommand, R, CommandsOf, ResponsesOf, Commands, Responses;
  }

  lemma TakenCounters(a: Ap, a1: Ap, log: Log, log1: Log, m: Msg)
    requires Counters(a, log) && log1 == log.(handed := log.handed + [m]) && a1.lim == a.lim && a1.nFrom == a.nFrom
    requires a1.nTo == (if IsCommand(m) then a.nTo else (a.nTo + 255) % 256) && (!IsCommand(m) ==> 1 <= a.nTo < 256)
    ensures Counters(a1, log1)
  {
    FilterOne(log.handed, m);
    hide IsCommand, CommandsOf, ResponsesOf, Commands, Responses;
  }

  lemma TakenPromises(s: Sys, s': Sys)
    requires Promises(s) && Taken(s, s')
    ensures Promises(s')
  {
    FilterOne(s.log.handed, s.d.a.inQ[0]);
    hide IsCommand, R, CommandsOf, ResponsesOf, Commands, Responses;
  }

  lemma TakenPools(s: Sys, s': Sys)
    requires Pools(s.d.a, s.d.l.wr) && Taken(s, s')
    ensures Pools(s'.d.a, s'.d.l.wr)
  {
    hide IsCommand, Held;
  }

  lemma TakenKeepsCredits(s: Sys, s': Sys)
    requires CreditInv(s) && Taken(s, s')
    ensures Counters(s'.d.a, s'.log) && Pools(s'.d.a, s'.d.l.wr) && Promises(s')
  {
    if !IsCommand(s.d.a.inQ[0]) {
      CreditTaken(s);
    }
    TakenPools(s, s');
    hide Inv, Queued, IsCommand, Counters, Pools, Promises;
    TakenCounters(s.d.a, s'.d.a, s.log, s'.log, s.d.a.inQ[0]);
    TakenPromises(s, s');
  }

  lemma TakeKeepsCredits(s: Sys, s': Sys)
    requires CreditInv(s) && (HandleStep(s, s') || DisciplinedTake(s, s'))
    ensures Counters(s'.d.a, s'.log) && Pools(s'.d.a, s'.d.l.wr) && Promises(s') && s'.d.l.st != PROCESS_TELEGRAM
  {
    hide Inv, Queued, Counters, Pools, Promises, HandleStep, DisciplinedTake;
    TakeIsTaken(s, s');
    if s.d.a.inQ != [] {
      TakenKeepsCredits(s, s');
    }
  }

  lemma HeadCounts(q: seq<Msg>)
    requires q != []
    ensures !IsCommand(q[0]) ==> Responses(q) >= 1
  {
    assert q == [q[0]] + q[1..];
    FilterAppend([q[0]], q[1..]);
    OneMessage(q[0]);
  }

  /** The other half of the invariant, for a step that the link invariants survive. */
  predicate CreditPart(s: Sys) {
    Counters(s.d.a, s.log) && Pools(s.d.a, s.d.l.wr) && Promises(s) && s.d.l.st != PROCESS_TELEGRAM
  }

  lemma PeerKeepsCredits(s: Sys, s': Sys)
    requires CreditInv(s) && DisciplinedPeer(s, s')
    ensures CreditPart(s')
  {
    hide CreditInv, PeerStep, ModuleObeys, Counters, Pools, Promises, SameQueuing;
    var took, got :| PeerStep(s, s', took, got) && ModuleObeys(s'.p, s'.log, took);
    PeerStepSame(s, s', took, got);
    OtherKeepsCounters(s, s');
    PeerKeepsPromises(s, s', took, got);
  }

  lemma SilentKeepsCredits(s: Sys, s': Sys)
    requires CreditInv(s)
    requires DeliverStep(s, s') || FaultStep(s, s') || (exists t, w, h :: TimeoutStep(s, s', t, w, h)) ||
      ConfigDoneStep(s, s') || NoPdStep(s, s') || exists data: PdBuffer :: WritePdStep(s, s', data)
    ensures CreditPart(s')
  {
    hide CreditInv, Counters, Pools, Promises, SameQueuing;
    SilentFacts(s, s');
    OtherKeepsCounters(s, s');
  }

  lemma StepKeepsCreditPart(s: Sys, s': Sys)
    requires CreditInv(s) && DisciplinedNext(s, s') && Inv(s') && Queued(s'.d.a, s'.log)
    ensures CreditPart(s')
  {
    hide CreditInv, CreditPart, Inv, Queued, Counters, Pools, Promises, RunStep, TimeoutStep, DeliverStep, PeerStep,
      FaultStep, SendStep, HandleStep, ConfigPostStep, ConfigDoneStep, WritePdStep, NoPdStep, DisciplinedTake,
      DisciplinedPeer, ApplicationOwes;
    if env: Env :| RunStep(s, s', env) {
      RunKeepsCredits(s, s', env);
      CreditInvPart(s');
    } else if DisciplinedPeer(s, s') {
      PeerKeepsCredits(s, s');
    } else if m: OutMsg :| SendStep(s, s', m) && (IsCommand(m) || ApplicationOwes(s.log)) {
      SendKeepsCredits(s, s', m);
      MakePart(s');
    } else if m: OutMsg :| ConfigPostStep(s, s', m) {
      PostsCommand(s, s', m);
      SendKeepsCredits(s, s', m);
      MakePart(s');
    } else if HandleStep(s, s') || DisciplinedTake(s, s') {
      TakeKeepsCredits(s, s');
      MakePart(s');
    } else {
      SilentKeepsCredits(s, s');
    }
  }

  lemma CreditInvPart(s: Sys)
    requires CreditInv(s)
    ensures CreditPart(s)
  {
    hide Inv, Queued, Counters, Pools, Promises;
  }

  lemma MakePart(s: Sys)
    requires Counters(s.d.a, s.log) && Pools(s.d.a, s.d.l.wr) && Promises(s) && s.d.l.st != PROCESS_TELEGRAM
    ensures CreditPart(s)
  {
    hide Counters, Pools, Promises;
  }

  lemma StepKeepsCredits(s: Sys, s': Sys)
    requires CreditInv(s) && DisciplinedNext(s, s')
    ensures CreditInv(s')
  {
    DisciplinedIsNext(s, s');
    hide Inv, Queued, Next, DisciplinedNext, Counters, Pools, Promises;
    StepKeeps(s, s');
    StepKeepsQueued(s, s');
    StepKeepsCreditPart(s, s');
  }

  lemma PostsCommand(s: Sys, s': Sys, m: OutMsg)
    requires ConfigPostStep(s, s', m)
    ensures IsCommand(m)
  {
  }

  lemma SilentFacts(s: Sys, s': Sys)
    requires DeliverStep(s, s') || FaultStep(s, s') || (exists t, w, h :: TimeoutStep(s, s', t, w, h)) ||
      ConfigDoneStep(s, s') || NoPdStep(s, s') || exists data: PdBuffer :: WritePdStep(s, s', data)
    ensures SameQueuing(s, s') && s'.log == s.log.(written := s'.log.written)
  {
    if ConfigDoneStep(s, s') || NoPdStep(s, s') || exists data: PdBuffer :: WritePdStep(s, s', data) {
      FlagStepSame(s, s');
    } else {
      LineStepSame(s, s');
    }
    hide Faulty, SameQueuing;
  }

  lemma {:induction false} RunKeepsAllCredits(run: seq<Sys>, i: nat)
    requires DisciplinedExecution(run) && i < |run|
    ensures CreditInv(run[i])
    decreases i
  {
    if i == 0 {
      InitInv(run[0]);
      InitCredits(run[0]);
    } else {
      hide Inv, Queued, Counters, Pools, Promises, DisciplinedNext;
      RunKeepsAllCredits(run, i - 1);
      StepKeepsCredits(run[i - 1], run[i - 1 + 1]);
    }
  }

  lemma InitCredits(s: Sys)
    requires Init(s)
    ensures Queued(s.d.a, s.log) && Counters(s.d.a, s.log) && Pools(s.d.a, s.d.l.wr) && Promises(s)
    ensures s.d.l.st != PROCESS_TELEGRAM
  {
  }

  // ---- the theorems -----------------------------------------------------------------------------

  /** Credit conservation: in every reachable state the counter equals the commands queued, plus the one being sent,
      plus those the module still owes an answer to, plus the responses waiting for the application; it never exceeds
      its limit, and is never taken below zero. */
  lemma CreditsConserved(run: seq<Sys>, i: nat)
    requires DisciplinedExecution(run) && i < |run|
    ensures
      var a, wr, log := run[i].d.a, run[i].d.l.wr, run[i].log;
      Responses(log.got) <= Commands(log.done) &&
      a.nTo == |a.cmdQ| + Held(wr, true) + (Commands(log.done) - Responses(log.got)) + Responses(a.inQ) &&
      a.nTo <= a.lim.appl
  {
    RunKeepsAllCredits(run, i);
    Chains(run[i]);
    TookSplit(run[i]);
    hide Inv, Queued, Pools, Promises, Held, CommandsOf, ResponsesOf;
  }

  /** The counter of the module's open commands: handed over or still in the inbound queue, and not yet answered. */
  lemma OpenCommandsCounted(run: seq<Sys>, i: nat)
    requires DisciplinedExecution(run) && i < |run|
    ensures
      var a, log := run[i].d.a, run[i].log;
      a.nFrom == Commands(log.got) - Responses(log.done) <= a.lim.abcc
  {
    RunKeepsAllCredits(run, i);
    Chains(run[i]);
    hide Inv, Queued, Pools, CommandsOf, ResponsesOf;
  }

  /** Flow control, as told to the module: every new telegram has bit 0x20 set if and only if the module may start a
      command, that is, fewer than the limit of its commands are unanswered and the inbound queue is not full. */
  lemma RoomTold(run: seq<Sys>, i: nat, env: Env)
    requires DisciplinedExecution(run) && i + 1 < |run| && RunStep(run[i], run[i + 1], env)
    requires run[i + 1].n > run[i].n
    ensures
      var log, lim := run[i + 1].log, run[i + 1].d.a.lim;
      Telegram(run[i + 1].d)[0] & 0x20 != 0 <==>
        Commands(log.got) - Responses(log.done) < lim.abcc && |log.got| - |log.handed| < lim.abcc + lim.appl
  {
    RunKeepsAllCredits(run, i);
    RunKeepsAllCredits(run, i + 1);
    hide DisciplinedExecution, CreditInv, RunStep, CommandsOf, ResponsesOf;
    NewRoomShown(run[i], run[i + 1], env);
    RoomCounted(run[i + 1]);
  }

  lemma RoomCounted(s: Sys)
    requires CreditInv(s)
    ensures
      FreeCmdSlots(s.d.a) <==>
        Commands(s.log.got) - Responses(s.log.done) < s.d.a.lim.abcc &&
        |s.log.got| - |s.log.handed| < s.d.a.lim.abcc + s.d.a.lim.appl
  {
    InboundRoom(s);
    hide Inv, Queued, Pools, Promises, CommandsOf, ResponsesOf;
  }

  lemma NewRoomShown(s: Sys, s': Sys, env: Env)
    requires CreditInv(s) && RunStep(s, s', env) && s'.n > s.n
    ensures Telegram(s'.d)[0] & 0x20 != 0 <==> FreeCmdSlots(s'.d.a)
  {
    hide Inv, Queued, Counters, Pools, Promises, RunStep, RoundRun, FreeCmdSlots, Telegram;
    RunIsEither(s, s', env);
    var d, out :| RoundRun(s, s', d, out);
    RoundFacts(s, s', d, out);
    NewTelegramHead(s, s', d, out);
  }

  lemma NewTelegramHead(s: Sys, s': Sys, d: Drv, out: Out)
    requires RoundRun(s, s', d, out)
    ensures Telegram(s'.d)[0] == s'.d.l.ctrl
  {
    hide CrcOk, T, M, R, Sent, WriterOk, QueuesOk, InboundOk, FromQueue, Counted, Arbitrates, FreeCmdSlots, SameAp;
  }

  /** Flow control, inbound: the driver never blocks for want of a buffer, and while a message of the module is under
      way both a buffer and a place in the queue are free for it. */
  lemma InboundNeverFull(run: seq<Sys>, i: nat)
    requires DisciplinedExecution(run) && i < |run|
    ensures
      var s := run[i];
      s.d.l.st != PROCESS_TELEGRAM &&
      (|s.log.ptook| > |s.log.got| ==> s.d.a.inUsed < s.d.a.lim.Inbound() && |s.d.a.inQ| < s.d.a.lim.Inbound())
  {
    RunKeepsAllCredits(run, i);
    InboundRoom(run[i]);
    hide Inv, Queued, Counters, Pools, Promises;
  }

  lemma CommandAccepted(a: Ap, m: OutMsg)
    requires IsCommand(m) && a.state != IN_CONFIGURATION && |a.cmdQ| <= a.cmdUsed <= a.nTo <= a.lim.appl
    ensures SendMessage(a, m).1 == if a.nTo < a.lim.appl then OK else OUT_OF_RESOURCES
  {
    hide IsCommand, LooksLikeRemapAck, FragCount;
  }

  lemma ResponseAccepted(a: Ap, m: OutMsg)
    requires !IsCommand(m) && a.state != IN_CONFIGURATION && |a.rspQ| <= a.rspUsed < a.lim.abcc
    ensures SendMessage(a, m).1 == OK
  {
    hide IsCommand, LooksLikeRemapAck, FragCount;
  }

  /** Flow control, outbound, in the run states: a command is accepted exactly while fewer than the limit are
      outstanding, and a response the application owes is always accepted. */
  lemma SendSucceeds(run: seq<Sys>, i: nat, m: OutMsg)
    requires DisciplinedExecution(run) && i < |run| && run[i].d.a.state != IN_CONFIGURATION
    ensures
      var a := run[i].d.a;
      IsCommand(m) ==> (SendMessage(a, m).1 == OK <==> a.nTo < a.lim.appl)
    ensures !IsCommand(m) && ApplicationOwes(run[i].log) ==> SendMessage(run[i].d.a, m).1 == OK
  {
    var s := run[i];
    RunKeepsAllCredits(run, i);
    Chains(s);
    TookSplit(s);
    hide Inv, Queued, Held, CommandsOf, ResponsesOf, SendMessage, IsCommand;
    if IsCommand(m) {
      CommandAccepted(s.d.a, m);
    } else if ApplicationOwes(s.log) {
      ResponseAccepted(s.d.a, m);
    }
  }

  // ---- configuration ----------------------------------------------------------------------------

  /** With no command outstanding a buffer is free, and a command is accepted. */
  lemma PostSucceeds(s: Sys, m: OutMsg)
    requires CreditInv(s) && s.d.a.nTo == 0 && IsCommand(m)
    ensures CanAllocate(s.d.a, m) && PostConfig(s.d.a, m).1 == OK && PostConfig(s.d.a, m).0.nTo == 1
  {
    Chains(s);
    TookSplit(s);
    assert s.d.a.lim.Valid();
    hide Inv, Queued, Held, CommandsOf, ResponsesOf, IsCommand, FragCount;
  }

  /** Why the module must not send commands yet: taking a message during configuration keeps the balance of the credit
      counter if and only if it is a response. */
  lemma ConfigTakeBalance(a: Ap, log: Log)
    requires Counters(a, log) && a.inQ != [] && a.lim.Valid() && (!IsCommand(a.inQ[0]) ==> a.nTo > 0)
    ensures
      var (a1, handed) := ConfigTake(a);
      Counters(a1, log.(handed := log.handed + handed)) <==> !IsCommand(a.inQ[0])
  {
    FilterOne(log.handed, a.inQ[0]);
    hide IsCommand, CommandsOf, ResponsesOf, Commands, Responses;
  }
}

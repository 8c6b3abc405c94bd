/** The configuration machine at work in the running system: its calls between the driver's runs, each posting a request
    into the driver's command queue or taking an answer from its inbound queue. */
module ConfigSystem {
  import opened Abp
  import opened Options
  import opened DriverSpec
  import opened Rounds
  import opened LinkSystem
  import opened ExactlyOnce
  import opened EndToEnd
  import opened Credits
  import opened ProcessData
  import opened Sizes
  import C = Configuration

  /** The system and the configuration machine's variables. */
  datatype Whole = Whole(s: Sys, c: C.Cfg)

  ghost predicate WholeInit(w: Whole) { Init(w.s) && w.c.st == C.CFG_INIT && !w.c.running }

  // ---- requests are commands --------------------------------------------------------------------

  lemma AttrIsCommand(obj: bv8, attr: bv8)
    ensures WellFormed(C.AttrRequest(obj, attr)) && IsCommand(C.AttrRequest(obj, attr))
    ensures SizesFit(C.AttrRequest(obj, attr))
  {
  }

  lemma MapIsCommand(command: bv8, x: C.Mapping)
    requires command == C.MAP_READ_AREA || command == C.MAP_WRITE_AREA
    ensures WellFormed(C.MapRequest(command, x)) && IsCommand(C.MapRequest(command, x))
    ensures SizesFit(C.MapRequest(command, x))
  {
    hide C.Low, C.High;
  }

  predicate IsRequest(r: Bytes) { WellFormed(r) && IsCommand(r) && SizesFit(r) }

  /** What a call does: it posts from the states that do not wait and takes in those that do, and only then does
      waiting begin and end. */
  lemma CallKinds(c: C.Cfg, answer: Option<Msg>, wishes: C.Wishes)
    requires C.Ok(c)
    ensures
      var (c1, e) := C.Step(c, answer, wishes);
      match e
      case Posted(r) => IsRequest(r) && !C.Waits(c.st) && C.Waits(c1.st) && c1.running == c.running
      case Took => answer.Some? && C.Waits(c.st) && (c1.running || !C.Waits(c1.st))
      case Nothing => c1.running || C.Waits(c1.st) == C.Waits(c.st)
  {
    hide IsRequest, C.AttrRequest, C.MapRequest, C.Answers, C.EntrySize, C.Recorded, C.Maps;
    RequestKinds(c);
  }

  lemma RequestKinds(c: C.Cfg)
    ensures
      IsRequest(C.AttrRequest(C.OBJ_NW, 1)) && IsRequest(C.AttrRequest(C.OBJ_NW, 4)) &&
      IsRequest(C.AttrRequest(C.OBJ_NW, 3)) && IsRequest(C.AttrRequest(OBJ_ANB, 1))
    ensures forall x ::
      IsRequest(C.MapRequest(C.MAP_READ_AREA, x)) && IsRequest(C.MapRequest(C.MAP_WRITE_AREA, x))
  {
    AttrIsCommand(C.OBJ_NW, 1);
    AttrIsCommand(C.OBJ_NW, 4);
    AttrIsCommand(C.OBJ_NW, 3);
    AttrIsCommand(OBJ_ANB, 1);
    forall x
      ensures IsRequest(C.MapRequest(C.MAP_READ_AREA, x)) && IsRequest(C.MapRequest(C.MAP_WRITE_AREA, x))
    {
      MapIsCommand(C.MAP_READ_AREA, x);
      MapIsCommand(C.MAP_WRITE_AREA, x);
    }
  }

  // ---- the steps --------------------------------------------------------------------------------

  /** The answer at the head of the inbound queue. */
  function Head(s: Sys): Option<Msg> { if s.d.a.inQ == [] then None else Some(s.d.a.inQ[0]) }

  /** What a call does to the driver's queues and counters. */
  ghost predicate Effected(s: Sys, s1: Sys, e: C.Effect) {
    match e
    case Nothing => s1 == s
    case Posted(r) => WellFormed(r) && SizesFit(r) && ConfigPostStep(s, s1, r)
    case Took => DisciplinedTake(s, s1)
  }

  /** One call of aplink_RunCfgStateMachine; when the machine is through, the driver leaves the configuration. */
  ghost predicate CfgCall(w: Whole, w': Whole, wishes: C.Wishes, s1: Sys) {
    w.s.d.a.state == IN_CONFIGURATION && C.Ok(w.c) &&
    var (c1, e) := C.Step(w.c, Head(w.s), wishes);
    w'.c == c1 && Effected(w.s, s1, e) && if c1.running then ConfigDoneStep(s1, w'.s) else w'.s == s1
  }

  /** All that is not the configuration machine. */
  ghost predicate Elsewhere(s: Sys, s': Sys) {
    (exists env: Env :: RunStep(s, s', env)) || (exists t, w, h :: TimeoutStep(s, s', t, w, h)) ||
    DeliverStep(s, s') || DisciplinedPeer(s, s') || FaultStep(s, s') || DisciplinedSend(s, s') || HandleStep(s, s') ||
    (exists data: PdBuffer :: WritePdStep(s, s', data)) || NoPdStep(s, s')
  }

  ghost predicate WholeNext(w: Whole, w': Whole) {
    (Elsewhere(w.s, w'.s) && w'.c == w.c) || (exists wishes, s1 :: CfgCall(w, w', wishes, s1))
  }

  ghost predicate WholeExecution(run: seq<Whole>) {
    run != [] && WholeInit(run[0]) && forall i: nat :: i + 1 < |run| ==> WholeNext(run[i], run[i + 1])
  }

  // ---- one request at a time --------------------------------------------------------------------

  /** While configuring, a command is outstanding exactly while the machine waits for its answer. */
  predicate OneAtATime(w: Whole) {
    C.Ok(w.c) &&
    (Configuring(w.s.d.a) ==> !w.c.running && w.s.d.a.nTo == if C.Waits(w.c.st) then 1 else 0)
  }

  ghost predicate WholeInv(w: Whole) { CreditInv(w.s) && OneAtATime(w) }

  /** Elsewhere the counter does not move while the driver is configuring. */
  predicate CounterStays(a: Ap, a1: Ap) {
    (Configuring(a1) ==> Configuring(a)) && (Configuring(a) ==> a1.nTo == a.nTo)
  }

  lemma RunCounter(s: Sys, s': Sys, env: Env)
    requires CreditInv(s) && RunStep(s, s', env)
    ensures CounterStays(s.d.a, s'.d.a)
  {
    hide Inv, Queued, Counters, Pools, Promises, Run, Round;
    RunsBegin(s);
    RunKeepsState(s.d, env);
    RunIsEither(s, s', env);
    if d, out :| RoundRun(s, s', d, out) {
      RoundFacts(s, s', d, out);
      hide RoundRun;
    }
  }

  lemma ElsewhereCounter(s: Sys, s': Sys)
    requires CreditInv(s) && Elsewhere(s, s')
    ensures CounterStays(s.d.a, s'.d.a)
  {
    hide CreditInv, RunStep, PeerStep, Faulty, CounterStays;
    if env: Env :| RunStep(s, s', env) {
      RunCounter(s, s', env);
    } else if took, got :| PeerStep(s, s', took, got) {
      PeerStepDriver(s, s', took, got);
      SameCounter(s.d.a, s'.d.a);
    } else if m: OutMsg :| SendStep(s, s', m) {
      SendCounter(s, s', m);
    } else {
      QuietCounter(s, s');
    }
  }

  lemma SameCounter(a: Ap, a1: Ap)
    requires a1 == a
    ensures CounterStays(a, a1)
  {
  }

  lemma SendCounter(s: Sys, s': Sys, m: OutMsg)
    requires SendStep(s, s', m)
    ensures CounterStays(s.d.a, s'.d.a)
  {
    SendKeepsFlags(s.d.a, m);
    hide AddFragAndPost, IsCommand, LooksLikeRemapAck;
  }

  lemma QuietCounter(s: Sys, s': Sys)
    requires DeliverStep(s, s') || FaultStep(s, s') || (exists t, w, h :: TimeoutStep(s, s', t, w, h)) ||
      HandleStep(s, s') || NoPdStep(s, s') || exists data: PdBuffer :: WritePdStep(s, s', data)
    ensures CounterStays(s.d.a, s'.d.a)
  {
    hide Faulty, IsCommand;
  }

  lemma ElsewhereKeeps(w: Whole, w': Whole)
    requires WholeInv(w) && Elsewhere(w.s, w'.s) && w'.c == w.c
    ensures WholeInv(w')
  {
    ElsewhereCounter(w.s, w'.s);
    ElsewhereIsNext(w.s, w'.s);
    hide CreditInv, Elsewhere, DisciplinedNext;
    StepKeepsCredits(w.s, w'.s);
  }

  lemma ElsewhereIsNext(s: Sys, s': Sys)
    requires Elsewhere(s, s')
    ensures DisciplinedNext(s, s')
  {
    hide RunStep, TimeoutStep, DeliverStep, DisciplinedPeer, FaultStep, DisciplinedSend, HandleStep, WritePdStep,
      NoPdStep;
  }

  /** The machine's call keeps the credits, and moves the counter as its effect says. */
  lemma EffectKeeps(s: Sys, s1: Sys, e: C.Effect)
    requires CreditInv(s) && Configuring(s.d.a) && Effected(s, s1, e) && (e.Posted? ==> s.d.a.nTo == 0)
    requires e.Took? ==> s.d.a.inQ != [] && s.d.a.nTo == 1
    ensures CreditInv(s1) && Configuring(s1.d.a)
    ensures s1.d.a.nTo == if e.Posted? then 1 else if e.Took? then 0 else s.d.a.nTo
  {
    hide CreditInv, DisciplinedNext, IsCommand;
    match e {
      case Nothing =>
      case Posted(r) =>
        assert DisciplinedNext(s, s1) by { PostIsNext(s, s1, r); }
        StepKeepsCredits(s, s1);
        PostedCounter(s, s1, r);
      case Took =>
        assert DisciplinedNext(s, s1) by { TakeIsNext(s, s1); }
        StepKeepsCredits(s, s1);
    }
  }

  lemma PostIsNext(s: Sys, s': Sys, m: OutMsg)
    requires ConfigPostStep(s, s', m)
    ensures DisciplinedNext(s, s')
  {
    hide ConfigPostStep;
  }

  lemma TakeIsNext(s: Sys, s': Sys)
    requires DisciplinedTake(s, s')
    ensures DisciplinedNext(s, s')
  {
    hide DisciplinedTake;
  }

  lemma DoneIsNext(s: Sys, s': Sys)
    requires ConfigDoneStep(s, s')
    ensures DisciplinedNext(s, s')
  {
    hide ConfigDoneStep;
  }

  lemma PostedCounter(s: Sys, s': Sys, m: OutMsg)
    requires CreditInv(s) && s.d.a.nTo == 0 && ConfigPostStep(s, s', m)
    ensures s'.d.a.nTo == 1 && Configuring(s'.d.a)
  {
    PostSucceeds(s, m);
    SendKeepsFlags(s.d.a, m);
    hide PostConfig, IsCommand, CreditInv;
  }

  lemma CallKeeps(w: Whole, w': Whole, wishes: C.Wishes, s1: Sys)
    requires WholeInv(w) && CfgCall(w, w', wishes, s1)
    ensures WholeInv(w')
  {
    var (c1, e) := C.Step(w.c, Head(w.s), wishes);
    C.StepOk(w.c, Head(w.s), wishes);
    CallKinds(w.c, Head(w.s), wishes);
    hide CreditInv, C.Step, C.Ok, Effected, IsRequest, C.Waits, DisciplinedNext;
    EffectKeeps(w.s, s1, e);
    if c1.running {
      DoneIsNext(s1, w'.s);
      StepKeepsCredits(s1, w'.s);
    }
  }

  lemma {:induction false} WholeRunKeeps(run: seq<Whole>, i: nat)
    requires WholeExecution(run) && i < |run|
    ensures WholeInv(run[i])
    decreases i
  {
    if i == 0 {
      StartInv(run[0]);
    } else {
      hide WholeInv, Elsewhere, CfgCall;
      WholeRunKeeps(run, i - 1);
      assert WholeNext(run[i - 1], run[i - 1 + 1]);
      if Elsewhere(run[i - 1].s, run[i].s) && run[i].c == run[i - 1].c {
        ElsewhereKeeps(run[i - 1], run[i]);
      } else {
        var wishes, s1 :| CfgCall(run[i - 1], run[i], wishes, s1);
        CallKeeps(run[i - 1], run[i], wishes, s1);
      }
    }
  }

  lemma StartInv(w: Whole)
    requires WholeInit(w)
    ensures WholeInv(w)
  {
    InitInv(w.s);
    InitCredits(w.s);
    hide Inv, Queued, Counters, Pools, Promises;
  }

  /** In every run, whenever the configuration machine posts a request: none is outstanding, a buffer is free (the
      pointer the source uses without a test is not null), and the request is accepted. */
  lemma ConfigPostSucceeds(run: seq<Whole>, i: nat, wishes: C.Wishes)
    requires WholeExecution(run) && i < |run| && Configuring(run[i].s.d.a) && C.Ok(run[i].c)
    requires C.Step(run[i].c, Head(run[i].s), wishes).1.Posted?
    ensures
      var a, r := run[i].s.d.a, C.Step(run[i].c, Head(run[i].s), wishes).1.request;
      IsRequest(r) && a.nTo == 0 && CanAllocate(a, r) && PostConfig(a, r).1 == OK
  {
    WholeRunKeeps(run, i);
    CallKinds(run[i].c, Head(run[i].s), wishes);
    hide CreditInv, C.Step, C.Waits, PostConfig, CanAllocate;
    PostSucceeds(run[i].s, C.Step(run[i].c, Head(run[i].s), wishes).1.request);
  }

  /** In every run, while the driver is configuring, a command is outstanding exactly while the machine waits, and never
      more than one. */
  lemma OneOutstanding(run: seq<Whole>, i: nat)
    requires WholeExecution(run) && i < |run| && Configuring(run[i].s.d.a)
    ensures run[i].s.d.a.nTo == if C.Waits(run[i].c.st) then 1 else 0
  {
    WholeRunKeeps(run, i);
    hide CreditInv;
  }
}

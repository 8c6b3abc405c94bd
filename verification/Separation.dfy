/** Two messages are always separated, both ways: between the last fragment of one and the first of the next, the other
    side takes in a telegram without M bit. */
module Separation {
  import opened Abp
  import opened Options
  import opened DriverSpec
  import opened Fragments
  import opened Rounds
  import opened LinkSystem
  import opened ExactlyOnce
  import opened EndToEnd

  /** Between two new telegrams the driver's message stays where it is; between two answers the module's does. */
  predicate RoundsKeepWriters(s: Sys, s': Sys) {
    s.n <= s'.n && (s.n == s'.n ==> s'.d.l.wr == s.d.l.wr && s'.log.took == s.log.took) &&
    s.k <= s'.k && (s.k == s'.k ==> s'.p.wr == s.p.wr && s'.log.ptook == s.log.ptook)
  }

  lemma QuietKeeps(s: Sys, s': Sys, env: Env)
    requires Inv(s) && RunStep(s, s', env)
    ensures RoundsKeepWriters(s, s')
  {
    RunIsEither(s, s', env);
    hide Run, Inv, Telegram, Round;
    if d, out :| RoundRun(s, s', d, out) {
      RoundAdvances(s, s', d, out);
    }
  }

  lemma RoundAdvances(s: Sys, s': Sys, d: Drv, out: Out)
    requires RoundRun(s, s', d, out)
    ensures s'.n == s.n + 1 && s'.k == s.k && s'.p == s.p && s'.log.ptook == s.log.ptook
    ensures s'.log.took == s.log.took + out.took && Sent(s.d.l.wr, s'.d.l.wr, out.took, Telegram(s'.d))
  {
    hide CrcOk, T, M, R, Sent, WriterOk, QueuesOk, InboundOk, FromQueue, Counted, Arbitrates, FreeCmdSlots, Telegram;
  }

  lemma ModuleKeeps(s: Sys, s': Sys, took: seq<Msg>, got: seq<Msg>)
    requires PeerStep(s, s', took, got)
    ensures RoundsKeepWriters(s, s') && s'.d == s.d && s'.n == s.n && s'.log.took == s.log.took
  {
    hide CrcOk, T, PeerRound;
  }

  lemma StepKeepsWriters(s: Sys, s': Sys)
    requires Inv(s) && Next(s, s')
    ensures RoundsKeepWriters(s, s')
  {
    hide Inv, RunStep, PeerStep, LocalStep, Faulty;
    if env: Env :| RunStep(s, s', env) {
      QuietKeeps(s, s', env);
    } else if took, got :| PeerStep(s, s', took, got) {
      ModuleKeeps(s, s', took, got);
    } else if LocalStep(s, s') {
      LocalFrame(s, s');
    }
  }

  lemma KeepsTransitive(s: Sys, s1: Sys, s': Sys)
    requires RoundsKeepWriters(s, s1) && RoundsKeepWriters(s1, s')
    ensures RoundsKeepWriters(s, s')
  {
  }

  lemma StepAt(run: seq<Sys>, i: nat)
    requires Execution(run) && i + 1 < |run|
    ensures Inv(run[i]) && Next(run[i], run[i + 1])
  {
    RunKeeps(run, i);
    hide Inv, Next;
  }

  lemma {:induction false} RunKeepsWriters(run: seq<Sys>, i: nat, j: nat)
    requires Execution(run) && i <= j < |run|
    ensures RoundsKeepWriters(run[i], run[j])
    decreases j
  {
    hide Execution, Inv, Next;
    if i < j {
      RunKeepsWriters(run, i, j - 1);
      StepAt(run, j - 1);
      StepKeepsWriters(run[j - 1], run[j]);
      KeepsTransitive(run[i], run[j - 1], run[j]);
    }
  }

  // ---- the driver's messages --------------------------------------------------------------------

  /** The driver takes up a message with this step. */
  predicate TakesUp(s: Sys, s': Sys) { |s'.log.took| > |s.log.took| }

  lemma OnlyRunsTakeUp(s: Sys, s': Sys) returns (env: Env)
    requires Next(s, s') && TakesUp(s, s')
    ensures RunStep(s, s', env)
  {
    hide Run, PeerStep, LocalStep, Faulty;
    if env': Env :| RunStep(s, s', env') {
      env := env';
    } else if LocalStep(s, s') {
      LocalFrame(s, s');
    } else if took, got :| PeerStep(s, s', took, got) {
      ModuleKeeps(s, s', took, got);
    }
  }

  lemma FirstFragment(s: Sys, s': Sys)
    requires Inv(s) && Next(s, s') && TakesUp(s, s')
    ensures s.d.l.wr == None && s'.d.l.wr.Some? && s'.n == s.n + 1 && M(Telegram(s'.d)[0])
    ensures s.k == s.n || Starting(s)
  {
    hide CrcOk, T, M, R, RunStep, Telegram, Inv, Next, Round, FragmentOf;
    var env := OnlyRunsTakeUp(s, s');
    RunIsEither(s, s', env);
    var d, out :| RoundRun(s, s', d, out);
    RoundAdvances(s, s', d, out);
    AnswerProcessed(s, s', env);
  }

  lemma AnswerProcessed(s: Sys, s': Sys, env: Env)
    requires Inv(s) && RunStep(s, s', env) && s'.n == s.n + 1
    ensures s.k == s.n || Starting(s)
  {
    hide CrcOk, T, M, Forward, Backward, Orderly, RunProcess, RunTimeouts, RunHandshake, Accepts, Telegram;
    if s.d.l.st == WAIT_FOR_TELEGRAM {
      if s.d.l.received && Accepts(s.d.l) {
        NewestArrives(s);
      } else {
        Retransmits(s.d.(l := s.d.l.(received := false)));
      }
    }
  }

  /** In every run: of two messages of the driver, the first fragment of the later one is the telegram right after one
      that is later than the first fragment of the earlier one, has no M bit, and was taken in by the module. */
  lemma DriverSeparates(run: seq<Sys>, i: nat, j: nat)
    requires Execution(run) && i < j && j + 1 < |run| && TakesUp(run[i], run[i + 1]) && TakesUp(run[j], run[j + 1])
    ensures M(Telegram(run[i + 1].d)[0]) && M(Telegram(run[j + 1].d)[0]) && run[j + 1].n == run[j].n + 1
    ensures run[i + 1].n < run[j].n && !M(Telegram(run[j].d)[0]) && run[j].k == run[j].n
  {
    hide Execution, Inv, Next, M, Telegram;
    StepAt(run, i);
    StepAt(run, j);
    FirstFragment(run[i], run[i + 1]);
    FirstFragment(run[j], run[j + 1]);
    RunKeepsWriters(run, i + 1, j);
    NothingUnderWay(run, j);
  }

  // ---- the module's messages --------------------------------------------------------------------

  /** The module takes up a message with this step. */
  predicate ModuleTakesUp(s: Sys, s': Sys) { |s'.log.ptook| > |s.log.ptook| }

  lemma OnlyModuleTakesUp(s: Sys, s': Sys) returns (took: seq<Msg>, got: seq<Msg>)
    requires Inv(s) && Next(s, s') && ModuleTakesUp(s, s')
    ensures PeerStep(s, s', took, got)
  {
    hide Inv, Run, PeerStep, LocalStep, Faulty;
    if took', got' :| PeerStep(s, s', took', got') {
      took, got := took', got';
    } else if LocalStep(s, s') {
      LocalFrame(s, s');
    }
  }

  lemma ModuleFirstFragment(s: Sys, s': Sys)
    requires Inv(s) && Next(s, s') && ModuleTakesUp(s, s')
    ensures s.p.wr == None && s'.p.wr.Some? && s'.k == s.k + 1 && M(s'.p.reply[0])
    ensures s.m == s.k && !M(s.p.reply[0])
  {
    var took, got := OnlyModuleTakesUp(s, s');
    TakingIsNew(s, s', took, got);
    hide CrcOk, T, M, R, Lines, Parities, Forward, Orderly, Receive, FragmentOf, Telegram, Carries, PeerStep, Next;
  }

  lemma TakingIsNew(s: Sys, s': Sys, took: seq<Msg>, got: seq<Msg>)
    requires Inv(s) && PeerStep(s, s', took, got) && ModuleTakesUp(s, s')
    ensures s.k < s.n && s'.k == s.k + 1 && s.p.wr == None && s'.p.wr.Some? && M(s'.p.reply[0])
    ensures Exchanging(s)
  {
    hide CrcOk, M, R, Forward, Backward, Orderly, Receive, FragmentOf, Telegram;
    HeadOk(s.toPeer, s.k, s.n, Telegram(s.d));
  }

  /** The same for two messages of the module: between them the driver has processed an answer without M bit. */
  lemma ModuleSeparates(run: seq<Sys>, i: nat, j: nat)
    requires Execution(run) && i < j && j + 1 < |run|
    requires ModuleTakesUp(run[i], run[i + 1]) && ModuleTakesUp(run[j], run[j + 1])
    ensures M(run[i + 1].p.reply[0]) && M(run[j + 1].p.reply[0]) && run[j + 1].k == run[j].k + 1
    ensures run[i + 1].k < run[j].k && !M(run[j].p.reply[0]) && run[j].m == run[j].k
  {
    hide Execution, Inv, Next, M;
    StepAt(run, i);
    StepAt(run, j);
    ModuleFirstFragment(run[i], run[i + 1]);
    ModuleFirstFragment(run[j], run[j + 1]);
    RunKeepsWriters(run, i + 1, j);
  }
}

/** Arbitration over whole runs: what the driver sends next, and that nothing it takes from a queue is lost. */
module Arbitration {
  import opened Abp
  import opened Options
  import opened DriverSpec
  import opened Fragments
  import opened Rounds
  import opened LinkSystem
  import opened ExactlyOnce
  import opened EndToEnd

  predicate LastWasCommand(took: seq<Msg>) { took != [] && IsCommand(took[|took| - 1]) }

  /** The driver remembers the kind of the message it took last. */
  predicate Remembers(s: Sys) { s.d.l.lastSentCmd == LastWasCommand(s.log.took) }

  lemma RoundRemembers(s: Sys, s': Sys, d: Drv, out: Out)
    requires Remembers(s) && RoundRun(s, s', d, out)
    ensures Remembers(s')
  {
    hide SameAp, Transmits, Sent, WriterOk, QueuesOk, InboundOk, Counted, IsCommand, R;
    if out.took == [] {
      assert s.log.took + out.took == s.log.took;
    } else {
      assert s'.log.took[|s'.log.took| - 1] == out.took[0];
    }
  }

  lemma StepRemembers(s: Sys, s': Sys)
    requires Inv(s) && Remembers(s) && Next(s, s')
    ensures Remembers(s')
  {
    hide Inv, RunStep, SendStep, ConfigPostStep, HandleStep, ConfigTakeStep, TimeoutStep, DeliverStep, PeerStep,
      FaultStep, ConfigDoneStep, WritePdStep, NoPdStep, RoundRun;
    if env: Env :| RunStep(s, s', env) {
      RunIsEither(s, s', env);
      if d, out :| RoundRun(s, s', d, out) {
        RoundRemembers(s, s', d, out);
      }
    } else if OtherStep(s, s') {
      OtherStepFacts(s, s');
    } else {
      LocalFrame(s, s');
    }
  }

  lemma {:induction false} RunRemembers(run: seq<Sys>, i: nat)
    requires Execution(run) && i < |run|
    ensures Inv(run[i]) && Remembers(run[i])
    decreases i
  {
    RunKeeps(run, i);
    hide Inv, Next;
    if i > 0 {
      hide Remembers;
      RunRemembers(run, i - 1);
      StepRemembers(run[i - 1], run[i - 1 + 1]);
    }
  }

  /** In every run of the system, whenever a run of the driver sends a new telegram: a message taken from a queue is
      the oldest of its kind; it is a command only if the answer just processed had the R bit; while both kinds wait
      and the R bit is set, commands and responses alternate; and nothing is taken only if a message is still under
      way or has just ended, or nothing may be sent. */
  lemma Arbitrated(run: seq<Sys>, i: nat, env: Env)
    requires Execution(run) && i + 1 < |run| && RunStep(run[i], run[i + 1], env) && run[i + 1].n > run[i].n
    ensures
      var s, s' := run[i], run[i + 1];
      var r := R(s'.d.l.last);
      if |s'.log.took| == |s.log.took| then
        s.d.l.wr == None ==> s.d.a.rspQ == [] && (r ==> s.d.a.cmdQ == [])
      else
        |s'.log.took| == |s.log.took| + 1 &&
        var m := s'.log.took[|s.log.took|];
        s'.log.took == s.log.took + [m] && s.d.l.wr == None &&
        (if IsCommand(m) then s.d.a.cmdQ != [] && m == s.d.a.cmdQ[0].msg
         else s.d.a.rspQ != [] && m == s.d.a.rspQ[0].msg) &&
        (IsCommand(m) ==> r) &&
        (r && s.d.a.cmdQ != [] && s.d.a.rspQ != [] ==> IsCommand(m) != LastWasCommand(s.log.took))
  {
    hide Inv, RunStep, Execution, QueuesOk, InboundOk, Counted, Commands, Responses, IsCommand, R, CrcOk, Carries,
      FragCount, T, M, FreeCmdSlots, Telegram, SizesFit;
    var s, s' := run[i], run[i + 1];
    RunRemembers(run, i);
    RunIsEither(s, s', env);
    assert !QuietRun(s, s');
    var d, out :| RoundRun(s, s', d, out);
    if out.took == [] {
      assert s.log.took + out.took == s.log.took;
    } else {
      assert s'.log.took == s.log.took + out.took;
    }
  }

  /** What is taken is completed, in order and at most once; the only message taken and not completed is the one whose
      buffer the link still holds. */
  lemma NothingAbandoned(run: seq<Sys>, i: nat)
    requires Execution(run) && i < |run|
    ensures
      var log, wr := run[i].log, run[i].d.l.wr;
      log.took == log.done + (if wr.Some? then [wr.value.msg] else [])
  {
    RunKeeps(run, i);
    hide Starting, Exchanging, Parities, Lines, Forward, Backward;
  }
}

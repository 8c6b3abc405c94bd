/** The driver, the module at the other end, and the line between them as one state machine. The line keeps order but
    may lose, repeat, delay and detectably damage telegrams in both directions. The application sends, fetches and
    writes process data at any point between two runs of the driver. */
module LinkSystem {
  import opened Abp
  import opened Options
  import opened DriverSpec
  import opened Fragments
  import opened Rounds

  /** The module: the toggle bit it saw last, its last answer, its message under way, its reassembly side, and the R
      bit of the last telegram it took in. */
  datatype Peer = Peer(lastT: bool, reply: RxTelegram, wr: Option<Buf>, rx: Rx, seesR: bool)

  /** A telegram on the line, with the number of the round it belongs to (no step reads the number). */
  datatype Item = Item(idx: nat, tel: RxTelegram)

  /** What happened so far: messages accepted by APLINK_SendMessage, taken from the queues, completed, delivered by
      the module, handed to the application; and taken up and delivered at the module; and the process data the
      application wrote, each time as much as the area then held. */
  datatype Log = Log(accepted: seq<Msg>, took: seq<Msg>, done: seq<Msg>, got: seq<Msg>, handed: seq<Msg>,
                     ptook: seq<Msg>, pgot: seq<Msg>, written: seq<PdBlock>)

  type PdBlock = b: Bytes | |b| <= MAX_PD

  /** n new telegrams sent, k of them taken in by the module, m answers processed by the driver; rxIdx belongs to the
      telegram waiting in the driver. */
  datatype Sys = Sys(d: Drv, p: Peer, toPeer: seq<Item>, toDrv: seq<Item>, rxIdx: nat, n: nat, k: nat, m: nat, log: Log)

  predicate Odd(n: nat) { n % 2 == 1 }

  ghost predicate Init(s: Sys) {
    (exists lim: Limits :: lim.Valid() && s.d == Initial(lim)) &&
    s.p == Peer(false, Zeros(OVERHEAD), None, Rx(s.p.rx.buf, 0, false), false) &&
    s.toPeer == [] && s.toDrv == [] && s.rxIdx == 0 && s.n == 0 && s.k == 0 && s.m == 0 &&
    s.log == Log([], [], [], [], [], [], [], [])
  }

  // ---- the steps --------------------------------------------------------------------------------

  /** The system after a run of the driver that ends in d and did out. */
  function After(s: Sys, d: Drv, out: Out): Sys {
    var isNew := out.tel.Some? && out.isNew;
    var n := if isNew then s.n + 1 else s.n;
    s.(d := d, n := n, m := if isNew then s.n else s.m,
       toPeer := if out.tel.Some? then s.toPeer + [Item(n, Telegram(d))] else s.toPeer,
       log := s.log.(took := s.log.took + out.took, got := s.log.got + out.got, done := s.log.done + out.done))
  }

  /** One call of APDR_RunDataLinkStateMachine. */
  ghost predicate RunStep(s: Sys, s': Sys, env: Env) {
    var (d, out) := Run(s.d, env, QUIET);
    s' == After(s, d, out)
  }

  ghost predicate TimeoutStep(s: Sys, s': Sys, telegram: bool, watchdog: bool, handshake: bool) {
    s' == s.(d := Timeouts(s.d, telegram, watchdog, handshake))
  }

  ghost predicate DeliverStep(s: Sys, s': Sys) {
    s.toDrv != [] &&
    s' == s.(d := Received(s.d, s.toDrv[0].tel), rxIdx := s.toDrv[0].idx, toDrv := s.toDrv[1..])
  }

  /** A newly toggled telegram at the module: it goes through the receiving side, and the answer carries the same T
      bit and what the sending side has next. */
  ghost predicate PeerRound(p: Peer, p': Peer, tel: RxTelegram, took: seq<Msg>, got: seq<Msg>) {
    (p'.rx, got) == Receive(p.rx, M(tel[0]), FragmentOf(tel)) && p'.lastT == T(tel[0]) && p'.seesR == R(tel[0]) &&
    CrcOk(p'.reply) && T(p'.reply[0]) == T(tel[0]) && Sent(p.wr, p'.wr, took, p'.reply) &&
    (p'.wr.Some? ==> UnderWay(p'.wr.value))
  }

  /** The module reads the next telegram: a damaged one is ignored, a repeated one answered with the last answer. */
  ghost predicate PeerStep(s: Sys, s': Sys, took: seq<Msg>, got: seq<Msg>) {
    s.toPeer != [] &&
    var tel := s.toPeer[0].tel;
    var s1 := s.(toPeer := s.toPeer[1..]);
    if !CrcOk(tel) then s' == s1 && took == [] && got == []
    else if T(tel[0]) == s.p.lastT then
      s' == s1.(toDrv := s.toDrv + [Item(s.k, s.p.reply)]) && took == [] && got == []
    else
      PeerRound(s.p, s'.p, tel, took, got) &&
      s' == s1.(p := s'.p, k := s.k + 1, toDrv := s.toDrv + [Item(s.k + 1, s'.p.reply)],
                log := s.log.(ptook := s.log.ptook + took, pgot := s.log.pgot + got))
  }

  /** A telegram is lost, repeated, or damaged so that its checksum no longer fits. */
  ghost predicate Faulty(ch: seq<Item>, ch': seq<Item>) {
    exists i: nat :: i < |ch| && FaultAt(ch, ch', i)
  }

  ghost predicate FaultAt(ch: seq<Item>, ch': seq<Item>, i: nat)
    requires i < |ch|
  {
    ch' == ch[..i] + ch[i + 1..] || ch' == ch[..i] + [ch[i]] + ch[i..] ||
    exists bad: RxTelegram :: !CrcOk(bad) && ch' == ch[i := Item(ch[i].idx, bad)]
  }

  ghost predicate FaultStep(s: Sys, s': Sys) {
    (Faulty(s.toPeer, s'.toPeer) && s' == s.(toPeer := s'.toPeer)) ||
    (Faulty(s.toDrv, s'.toDrv) && s' == s.(toDrv := s'.toDrv))
  }

  /** The application or the configuration machine calls APLINK. */
  ghost predicate SendStep(s: Sys, s': Sys, m: OutMsg) {
    var (a, status) := SendMessage(s.d.a, m);
    s' == s.(d := s.d.(a := a), log := s.log.(accepted := s.log.accepted + if status == OK then [m] else []))
  }

  ghost predicate HandleStep(s: Sys, s': Sys) {
    s.d.a.state != IN_CONFIGURATION &&
    var (a, handed) := HandleQueued(s.d.a);
    s' == s.(d := s.d.(a := a), log := s.log.(handed := s.log.handed + handed))
  }

  ghost predicate ConfigPostStep(s: Sys, s': Sys, m: OutMsg) {
    s.d.a.state == IN_CONFIGURATION && IsCommand(m) &&
    var (a, status) := PostConfig(s.d.a, m);
    s' == s.(d := s.d.(a := a), log := s.log.(accepted := s.log.accepted + if status == OK then [m] else []))
  }

  ghost predicate ConfigTakeStep(s: Sys, s': Sys) {
    s.d.a.state == IN_CONFIGURATION &&
    var (a, handed) := ConfigTake(s.d.a);
    s' == s.(d := s.d.(a := a), log := s.log.(handed := s.log.handed + handed))
  }

  ghost predicate ConfigDoneStep(s: Sys, s': Sys) {
    s.d.a.state == IN_CONFIGURATION && s' == s.(d := s.d.(a := s.d.a.(state := IN_RUN_NO_PD)))
  }

  ghost predicate WritePdStep(s: Sys, s': Sys, data: PdBuffer) {
    s' == s.(d := WriteProcessData(s.d, data),
             log := s.log.(written := s.log.written + [data[..s.d.a.writePdLen]]))
  }

  /** The end of a pass begun without process data; by then the state may have changed to running. */
  ghost predicate NoPdStep(s: Sys, s': Sys) {
    s.d.a.state != IN_CONFIGURATION && s' == s.(d := s.d.(a := AfterPass(s.d.a)))
  }

  ghost predicate Next(s: Sys, s': Sys) {
    (exists env: Env :: RunStep(s, s', env)) || (exists t, w, h :: TimeoutStep(s, s', t, w, h)) ||
    DeliverStep(s, s') || (exists took, got :: PeerStep(s, s', took, got)) || FaultStep(s, s') ||
    LocalStep(s, s')
  }

  /** The steps that touch only APLINK's part of the driver and the write buffer. */
  ghost predicate LocalStep(s: Sys, s': Sys) {
    (exists m: OutMsg :: SendStep(s, s', m)) || HandleStep(s, s') || (exists m: OutMsg :: ConfigPostStep(s, s', m)) ||
    ConfigTakeStep(s, s') || ConfigDoneStep(s, s') || (exists data: PdBuffer :: WritePdStep(s, s', data)) ||
    NoPdStep(s, s')
  }

  /** A run of the system. */
  ghost predicate Execution(run: seq<Sys>) {
    run != [] && Init(run[0]) && forall i: nat :: i + 1 < |run| ==> Next(run[i], run[i + 1])
  }
}

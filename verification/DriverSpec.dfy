/** The Anybus host driver as functions on values: the link layer of APDR/apdr_ser.c and the buffer, queue, credit
    and process data handling of APLINK/aplink.c. The class of Driver.dfy is proved against these functions, and
    the protocol theorems are proved about them. */
module DriverSpec {
  import opened Abp
  import opened Options
  import Fragments

  datatype LinkState = INIT | INITIAL_HANDSHAKE | IDLE | SEND_WITH_MESSAGE | SEND_WITHOUT_MESSAGE |
                       WAIT_FOR_TELEGRAM | PROCESS_TELEGRAM | COM_LOST

  datatype DriverState = IN_CONFIGURATION | IN_RUN_NO_PD | IN_RUN

  /** What APDR keeps; the timers are represented by the flags their callbacks set. */
  datatype Link = Link(
    st: LinkState,
    ctrl: bv8,
    cur: bv8,
    last: bv8,
    lastSentCmd: bool,
    wr: Option<OutBuf>,
    recFrags: nat,
    received: bool,
    rx: RxTelegram,
    telegramTo: bool,
    wdTo: bool,
    wdOccurred: bool,
    handshakeTo: bool,
    completeRemap: bool,
    pdReadLen: PdLength,
    pdWriteLen: PdLength,
    serialRead: TelegramLength,
    serialWrite: TelegramLength)

  /** The two limits of the configuration header. */
  datatype Limits = Limits(abcc: nat, appl: nat) {
    predicate Valid() { 1 <= abcc && 1 <= appl && abcc + appl < 256 }

    function Inbound(): nat { abcc + appl }
  }

  /** What APLINK keeps. A pool of message buffers is represented by the number of entries in use, a ring queue by
      its contents. */
  datatype Ap = Ap(
    lim: Limits,
    state: DriverState,
    cmdQ: seq<OutBuf>,
    rspQ: seq<OutBuf>,
    inQ: seq<Msg>,
    cmdUsed: nat,
    rspUsed: nat,
    inUsed: nat,
    nFrom: nat,
    nTo: nat,
    readPdLen: PdLength,
    writePdLen: PdLength,
    newWritePdLen: PdLength,
    remapRead: bool,
    remapWrite: bool,
    newPd: bool)

  /** The two structures of the driver and its three byte buffers: the telegram being sent, the message being
      received, and the process data the application writes. */
  datatype Drv = Drv(l: Link, a: Ap, tx: TxBuffer, inBuf: MessageBuffer, writeData: PdBuffer)

  /** What a run of the link machine is given from outside: the memory behind a message, and the process data sizes
      the application answers when the module acknowledges "setup complete". */
  datatype Env = Env(pad: Frag, readSize: PdLength, writeSize: PdLength)

  /** What a run does to the outside: the telegram handed to the line, and whether it is a new one; the messages
      taken from the queues, delivered by the module and completed. */
  datatype Out = Out(tel: Option<Bytes>, isNew: bool, took: seq<Msg>, got: seq<Msg>, done: seq<Msg>)

  const QUIET := Out(None, false, [], [], [])

  /** The state the setup phase leaves behind. */
  function Initial(lim: Limits): Drv {
    Drv(Link(INIT, 0, 0, 0, false, None, 0, false, Zeros(OVERHEAD), false, false, false, false, false, 0, 0,
             OVERHEAD, OVERHEAD),
        Ap(lim, IN_CONFIGURATION, [], [], [], 0, 0, 0, 0, 0, 0, 0, 0, false, false, false),
        Zeros(TELEGRAM), Zeros(MAX_MESSAGE), Zeros(MAX_PD))
  }

  function Dec(n: nat): nat { if n > 0 then n - 1 else 0 }

  // ---- APLINK -----------------------------------------------------------------------------------

  function SetPdSize(l: Link, read: PdLength, write: PdLength): Link {
    l.(serialRead := read + OVERHEAD, pdReadLen := read, pdWriteLen := write)
  }

  predicate FreeCmdSlots(a: Ap) { a.nFrom < a.lim.abcc && |a.inQ| < a.lim.Inbound() }

  function UseNewWritePdMap(d: Drv): Drv {
    d.(l := SetPdSize(d.l, d.a.readPdLen, d.a.newWritePdLen),
       a := d.a.(writePdLen := d.a.newWritePdLen, remapWrite := false))
  }

  /** APLINK_CompleteMsgTrans: the last fragment of a message was acknowledged; remap answers take effect, the buffer
      is freed. */
  function CompletedLink(l: Link, a: Ap, m: OutMsg): Link {
    if IsRemapAck(m, REMAP_WRITE) then l.(completeRemap := true)
    else if IsRemapAck(m, REMAP_READ) then SetPdSize(l, AckLengthValue(m, REMAP_READ), a.writePdLen)
    else l
  }

  function CompletedAp(a: Ap, m: OutMsg): Ap {
    if IsCommand(m) then a.(cmdUsed := Dec(a.cmdUsed))
    else
      var a1 := a.(nFrom := Dec(a.nFrom), rspUsed := Dec(a.rspUsed));
      if IsRemapAck(m, REMAP_WRITE) then a1.(newWritePdLen := AckLengthValue(m, REMAP_WRITE))
      else if IsRemapAck(m, REMAP_READ) then a1.(readPdLen := AckLengthValue(m, REMAP_READ), remapRead := false)
      else a1
  }

  function ReceivedLink(l: Link, m: Msg, env: Env): Link {
    if IsSetupAck(m) then SetPdSize(l, env.readSize, env.writeSize) else l
  }

  function ReceivedAp(a: Ap, m: Msg, env: Env): Ap {
    if IsCommand(m) then a.(nFrom := (a.nFrom + 1) % 256)
    else if IsSetupAck(m) then
      a.(readPdLen := env.readSize, writePdLen := env.writeSize, newPd := true,
         state := if a.state == IN_RUN_NO_PD then IN_RUN else a.state)
    else a
  }

  function Enqueue(a: Ap, m: Msg): Ap {
    if |a.inQ| < a.lim.Inbound() then a.(inQ := a.inQ + [m]) else a.(inUsed := Dec(a.inUsed))
  }

  /** A complete message from the module, in a buffer already allocated. */
  function MessageReceived(d: Drv, m: Msg, env: Env): Drv {
    d.(l := ReceivedLink(d.l, m, env), a := Enqueue(ReceivedAp(d.a, m, env), m))
  }

  /** Whether the next telegram's process data area is refreshed from the write buffer. */
  predicate TakesNewPd(a: Ap, len: PdLength) { !a.remapWrite && a.state == IN_RUN && len > 0 && a.newPd }

  datatype Status = OK | OUT_OF_RESOURCES | NOT_ALLOWED_DRIVER_STATE

  /** aplink_AddFragAndPostMsg for a message in a buffer already allocated. */
  function AddFragAndPost(a: Ap, m: OutMsg): (Ap, Status) {
    var b := Buf(m, Abp.FragCount(|m|), 0);
    if IsCommand(m) then
      if a.nTo >= a.lim.appl || |a.cmdQ| >= a.lim.appl then (a.(cmdUsed := Dec(a.cmdUsed)), OUT_OF_RESOURCES)
      else (a.(cmdQ := a.cmdQ + [b], nTo := (a.nTo + 1) % 256), OK)
    else
      if |a.rspQ| >= a.lim.abcc then (a.(rspUsed := Dec(a.rspUsed)), OUT_OF_RESOURCES)
      else (a.(rspQ := a.rspQ + [b]), OK)
  }

  /** UTIL_AllocateMsgBuffer on the pool the message belongs to. */
  predicate CanAllocate(a: Ap, m: OutMsg) {
    if IsCommand(m) then a.cmdUsed < a.lim.appl else a.rspUsed < a.lim.abcc
  }

  function Allocated(a: Ap, m: OutMsg): Ap {
    if IsCommand(m) then a.(cmdUsed := a.cmdUsed + 1) else a.(rspUsed := a.rspUsed + 1)
  }

  /** APLINK_SendMessage. The remap flags are raised without a look at the C bit. */
  function SendMessage(a: Ap, m: OutMsg): (Ap, Status) {
    if a.state == IN_CONFIGURATION then (a, NOT_ALLOWED_DRIVER_STATE)
    else if !CanAllocate(a, m) then (a, OUT_OF_RESOURCES)
    else AddFragAndPost(Allocated(a, m).(remapWrite := a.remapWrite || LooksLikeRemapAck(m, REMAP_WRITE),
                                         remapRead := a.remapRead || LooksLikeRemapAck(m, REMAP_READ)), m)
  }

  /** How the configuration machine posts a command. */
  function PostConfig(a: Ap, m: OutMsg): (Ap, Status) {
    if !CanAllocate(a, m) then (a, OUT_OF_RESOURCES) else AddFragAndPost(Allocated(a, m), m)
  }

  /** aplink_HandleQueuedMsgsToAppl: the oldest message goes to the application. */
  function HandleQueued(a: Ap): (Ap, seq<Msg>) {
    if a.inQ == [] then (a, [])
    else
      var m := a.inQ[0];
      (a.(inQ := a.inQ[1..], inUsed := Dec(a.inUsed),
          nTo := if IsCommand(m) then a.nTo else (a.nTo + 255) % 256), [m])
  }

  /** How the configuration machine takes an answer: it counts every message as one. */
  function ConfigTake(a: Ap): (Ap, seq<Msg>) {
    if a.inQ == [] then (a, [])
    else (a.(inQ := a.inQ[1..], inUsed := Dec(a.inUsed), nTo := (a.nTo + 255) % 256), [a.inQ[0]])
  }

  /** The end of a pass of APLINK_RunStateMachine that began before process data may flow: the flag is raised. */
  function AfterPass(a: Ap): Ap { a.(newPd := true) }

  /** APLINK_WriteProcessData, comparing before it copies. */
  function WriteProcessData(d: Drv, data: PdBuffer): Drv {
    var len := d.a.writePdLen;
    if d.writeData[..len] == data[..len] then d
    else d.(writeData := Splice(d.writeData, 0, data[..len]), a := d.a.(newPd := true))
  }

  // ---- APDR -------------------------------------------------------------------------------------

  /** The telegram as last handed to the line. */
  function Telegram(d: Drv): (t: RxTelegram) { d.tx[..d.l.serialWrite] }

  function DoInit(l: Link): Link {
    l.(pdReadLen := 0, pdWriteLen := 0, recFrags := 0, wdOccurred := false, lastSentCmd := false,
       completeRemap := false, wr := None, serialRead := OVERHEAD, ctrl := 0, last := 0, handshakeTo := false,
       received := false, st := INITIAL_HANDSHAKE)
  }

  /** The line hands over a telegram of the length it was told to expect. */
  function Received(d: Drv, data: RxTelegram): Drv { d.(l := d.l.(rx := data, received := true)) }

  /** The timers' callbacks raise flags. */
  function Timeouts(d: Drv, telegram: bool, watchdog: bool, handshake: bool): Drv {
    d.(l := d.l.(telegramTo := d.l.telegramTo || telegram, wdTo := d.l.wdTo || watchdog,
                 handshakeTo := d.l.handshakeTo || handshake))
  }

  /** A telegram counts as received if its T bit differs from the last one's and its checksum fits. The source tests the
      serialRead bytes it has asked for; here a telegram of another length is refused. */
  predicate Accepts(l: Link) { |l.rx| == l.serialRead && T(l.last) != T(l.rx[0]) && CrcOk(l.rx) }

  function Accept(d: Drv): Drv {
    var l := d.l.(received := false, cur := d.l.rx[0], telegramTo := false, wdTo := false, wdOccurred := false,
                  st := PROCESS_TELEGRAM);
    if l.completeRemap then
      var d1 := UseNewWritePdMap(d.(l := l));
      d1.(l := d1.l.(completeRemap := false))
    else d.(l := l)
  }

  /** The end of a message finds no free buffer: the machine returns and tries again on its next run. */
  predicate Blocked(d: Drv) { !M(d.l.cur) && M(d.l.last) && d.a.inUsed >= d.a.lim.Inbound() }

  /** The receiving half of processing a telegram. */
  function Incoming(d: Drv, env: Env): (Drv, seq<Msg>)
    requires !Blocked(d)
  {
    if M(d.l.cur) then
      (d.(inBuf := StoreFragment(d.inBuf, d.l.recFrags, FragmentOf(d.l.rx)),
          l := d.l.(recFrags := (d.l.recFrags + 1) % 65536)), [])
    else if M(d.l.last) then
      var m := MessageIn(d.inBuf);
      var d1 := MessageReceived(d.(a := d.a.(inUsed := d.a.inUsed + 1)), m, env);
      (d1.(l := d1.l.(recFrags := 0)), [m])
    else (d, [])
  }

  /** Every fragment of the message was sent and acknowledged. */
  predicate Finished(wr: Option<OutBuf>) {
    wr.Some? && wr.value.nFrags != 0 && wr.value.cnt == wr.value.nFrags
  }

  predicate Unfinished(wr: Option<OutBuf>) {
    wr.Some? && wr.value.nFrags != 0 && wr.value.cnt < wr.value.nFrags
  }

  /** The sending half: go on with the message under way, complete it, or turn to the queues. */
  function Outgoing(d: Drv): (Drv, seq<Msg>) {
    var l := d.l.(last := d.l.cur);
    if Finished(d.l.wr) then
      var m := d.l.wr.value.msg;
      (d.(l := CompletedLink(l, d.a, m).(st := SEND_WITHOUT_MESSAGE, wr := None), a := CompletedAp(d.a, m)), [m])
    else (d.(l := l.(st := if Unfinished(d.l.wr) then SEND_WITH_MESSAGE else IDLE)), [])
  }

  function TakeCommand(d: Drv): Drv
    requires d.a.cmdQ != []
  {
    d.(l := d.l.(wr := Some(d.a.cmdQ[0]), st := SEND_WITH_MESSAGE, lastSentCmd := true),
       a := d.a.(cmdQ := d.a.cmdQ[1..]))
  }

  function TakeResponse(d: Drv): Drv
    requires d.a.rspQ != []
  {
    d.(l := d.l.(wr := Some(d.a.rspQ[0]), st := SEND_WITH_MESSAGE, lastSentCmd := false),
       a := d.a.(rspQ := d.a.rspQ[1..]))
  }

  datatype Pick = PickCommand | PickResponse | PickNothing

  /** The idle state: which queue is served next. Commands only if the module's last telegram had the R bit, and
      then whatever kind was not sent last goes first. */
  function Choice(l: Link, a: Ap): (p: Pick)
    ensures p == PickCommand ==> a.cmdQ != []
    ensures p == PickResponse ==> a.rspQ != []
  {
    if !R(l.last) then if a.rspQ != [] then PickResponse else PickNothing
    else if l.lastSentCmd then
      if a.rspQ != [] then PickResponse else if a.cmdQ != [] then PickCommand else PickNothing
    else
      if a.cmdQ != [] then PickCommand else if a.rspQ != [] then PickResponse else PickNothing
  }

  function Select(d: Drv): (Drv, seq<Msg>) {
    match Choice(d.l, d.a)
    case PickCommand => (TakeCommand(d), [d.a.cmdQ[0].msg])
    case PickResponse => (TakeResponse(d), [d.a.rspQ[0].msg])
    case PickNothing => (d.(l := d.l.(st := SEND_WITHOUT_MESSAGE)), [])
  }

  /** The message field of the next telegram, and the fragment counter. */
  function PutFragment(d: Drv, env: Env): Drv {
    match d.l.wr
    case None => d
    case Some(b) =>
      if Unfinished(d.l.wr) then
        d.(tx := Splice(d.tx, 1, FragmentAt(b.msg, b.cnt, env.pad)), l := d.l.(wr := Some(b.(cnt := b.cnt + 1))))
      else d.(l := d.l.(wr := Some(b.(cnt := b.nFrags))))
  }

  /** APLINK_GetNewProcessData into the telegram's process data area. */
  function PutProcessData(d: Drv): Drv {
    var len := d.l.pdWriteLen;
    if TakesNewPd(d.a, len) then d.(tx := Splice(d.tx, 17, d.writeData[..len]), a := d.a.(newPd := false)) else d
  }

  function Seal(d: Drv): Drv {
    var len := d.l.pdWriteLen;
    d.(tx := Splice(d.tx, 17 + len, CrcBytes(d.tx[..17 + len])), l := d.l.(serialWrite := OVERHEAD + len))
  }

  /** apdr_BuildSerialTelegram: bits, message field, process data, checksum. */
  function Build(d: Drv, withMessage: bool, env: Env): Drv {
    var d1 := d.(tx := Splice(d.tx, 0, [d.l.ctrl]));
    Seal(PutProcessData(if withMessage then PutFragment(d1, env) else d1))
  }

  /** A new telegram, toggled; then wait for the answer. */
  function Send(d: Drv, withMessage: bool, env: Env): Drv {
    var d0 := if withMessage then d else d.(tx := Splice(d.tx, 1, Zeros(FRAG)));
    var ctrl := ToggleT(WithR(WithM(d.l.ctrl, withMessage), FreeCmdSlots(d.a)));
    var d1 := Build(d0.(l := d0.l.(ctrl := ctrl)), withMessage, env);
    d1.(l := d1.l.(st := WAIT_FOR_TELEGRAM))
  }

  /** A new telegram goes out, with or without a message, as the state says. */
  function Dispatch(d: Drv, env: Env, out: Out): (Drv, Out) {
    var d1 := Send(d, d.l.st == SEND_WITH_MESSAGE, env);
    (d1, out.(tel := Some(Telegram(d1)), isNew := true))
  }

  function RunIdle(d: Drv, env: Env, out: Out): (Drv, Out) {
    var (d1, took) := Select(d);
    Dispatch(d1, env, out.(took := out.took + took))
  }

  function RunProcess(d: Drv, env: Env, out: Out): (Drv, Out) {
    if Blocked(d) then (d, out)
    else
      var (d1, got) := Incoming(d, env);
      var (d2, done) := Outgoing(d1);
      var out2 := out.(got := out.got + got, done := out.done + done);
      if d2.l.st == IDLE then RunIdle(d2, env, out2) else Dispatch(d2, env, out2)
  }

  /** The last telegram goes out again: after a telegram timeout, or when the module seems lost. */
  function RunTimeouts(d: Drv, out: Out): (Drv, Out) {
    if d.l.telegramTo then
      (d.(l := d.l.(telegramTo := false)), out.(tel := Some(Telegram(d)), isNew := false))
    else if d.l.wdTo then RunLost(d, out)
    else (d, out)
  }

  function RunLost(d: Drv, out: Out): (Drv, Out) {
    (d.(l := d.l.(wdOccurred := true, wdTo := false, telegramTo := false, st := WAIT_FOR_TELEGRAM)),
     out.(tel := Some(Telegram(d)), isNew := false))
  }

  function RunWait(d: Drv, env: Env, out: Out): (Drv, Out) {
    if d.l.received && Accepts(d.l) then RunProcess(Accept(d), env, out)
    else RunTimeouts(d.(l := d.l.(received := false)), out)
  }

  function RunHandshake(d: Drv, env: Env, out: Out): (Drv, Out) {
    if d.l.handshakeTo then RunIdle(d.(l := d.l.(st := IDLE)), env, out) else (d, out)
  }

  /** One call of APDR_RunDataLinkStateMachine, from the actions taken so far. */
  function Run(d: Drv, env: Env, out: Out): (Drv, Out) {
    match d.l.st
    case INIT => RunHandshake(d.(l := DoInit(d.l)), env, out)
    case INITIAL_HANDSHAKE => RunHandshake(d, env, out)
    case SEND_WITH_MESSAGE => Dispatch(d, env, out)
    case SEND_WITHOUT_MESSAGE => Dispatch(d, env, out)
    case WAIT_FOR_TELEGRAM => RunWait(d, env, out)
    case PROCESS_TELEGRAM => RunProcess(d, env, out)
    case COM_LOST => RunLost(d, out)
    case IDLE => RunIdle(d, env, out)
  }

  // ---- one turn of the switch -------------------------------------------------------------------

  datatype Turn = Again(d: Drv, out: Out) | Return(d: Drv, out: Out)

  function OneTurn(d: Drv, env: Env, out: Out): Turn {
    match d.l.st
    case INIT => Again(d.(l := DoInit(d.l)), out)
    case INITIAL_HANDSHAKE => if d.l.handshakeTo then Again(d.(l := d.l.(st := IDLE)), out) else Return(d, out)
    case SEND_WITH_MESSAGE =>
      var d1 := Send(d, true, env);
      Return(d1, out.(tel := Some(Telegram(d1)), isNew := true))
    case SEND_WITHOUT_MESSAGE =>
      var d1 := Send(d, false, env);
      Return(d1, out.(tel := Some(Telegram(d1)), isNew := true))
    case WAIT_FOR_TELEGRAM =>
      if d.l.received then
        Again(if Accepts(d.l) then Accept(d) else d.(l := d.l.(received := false)), out)
      else if d.l.telegramTo then
        Return(d.(l := d.l.(telegramTo := false)), out.(tel := Some(Telegram(d)), isNew := false))
      else if d.l.wdTo then Again(d.(l := d.l.(st := COM_LOST)), out)
      else Return(d, out)
    case PROCESS_TELEGRAM =>
      if Blocked(d) then Return(d, out)
      else
        var (d1, got) := Incoming(d, env);
        var (d2, done) := Outgoing(d1);
        Again(d2, out.(got := out.got + got, done := out.done + done))
    case COM_LOST =>
      Return(d.(l := d.l.(wdOccurred := true, wdTo := false, telegramTo := false, st := WAIT_FOR_TELEGRAM)),
             out.(tel := Some(Telegram(d)), isNew := false))
    case IDLE =>
      var (d1, took) := Select(d);
      Again(d1, out.(took := out.took + took))
  }

  lemma AcceptState(d: Drv)
    ensures Accept(d).l.st == PROCESS_TELEGRAM
  {
  }

  lemma OutgoingState(d: Drv)
    ensures Outgoing(d).0.l.st in {IDLE, SEND_WITH_MESSAGE, SEND_WITHOUT_MESSAGE}
  {
  }

  lemma SelectState(d: Drv)
    ensures Select(d).0.l.st in {SEND_WITH_MESSAGE, SEND_WITHOUT_MESSAGE}
  {
    hide Choice, FragCount, SizesFit;
  }

  /** Turning the switch until it returns is what Run says. */
  lemma RunTurns(d: Drv, env: Env, out: Out)
    ensures Run(d, env, out) ==
      match OneTurn(d, env, out)
      case Again(d1, out1) => Run(d1, env, out1)
      case Return(d1, out1) => (d1, out1)
  {
    hide Accept, Incoming, Outgoing, Select, Send, Accepts, Blocked;
    if d.l.st == WAIT_FOR_TELEGRAM { AcceptState(d); }
    if d.l.st == PROCESS_TELEGRAM && !Blocked(d) { OutgoingState(Incoming(d, env).0); }
    if d.l.st == IDLE { SelectState(d); }
  }
}

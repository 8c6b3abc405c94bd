/** What travels on the serial line: the telegram's control and status bits, messages and their fragments, and the
    framing of a telegram with its checksum. */
module Abp {
  import Crc
  import opened Options

  type Bytes = seq<bv8>

  const FRAG := 16
  const MAX_FRAGS := 17
  const LAST_FRAG := 7
  const HEADER := 8
  const MAX_MESSAGE := 263
  const MAX_PD := 256
  const TELEGRAM := 275
  const OVERHEAD := 19

  function Zeros(n: nat): (z: Bytes)
    ensures |z| == n
  {
    seq(n, _ => 0)
  }

  type Frag = f: Bytes | |f| == FRAG witness Zeros(FRAG)
  type MessageBuffer = b: Bytes | |b| == MAX_MESSAGE witness Zeros(MAX_MESSAGE)
  type PdBuffer = b: Bytes | |b| == MAX_PD witness Zeros(MAX_PD)
  type TxBuffer = b: Bytes | |b| == TELEGRAM witness Zeros(TELEGRAM)
  type RxTelegram = b: Bytes | |b| >= OVERHEAD witness Zeros(OVERHEAD)
  type TelegramLength = n: int | OVERHEAD <= n <= TELEGRAM witness OVERHEAD
  type PdLength = n: int | 0 <= n <= MAX_PD

  /** memcpy into a buffer at an offset. */
  function Splice(s: Bytes, at: nat, b: Bytes): (r: Bytes)
    requires at + |b| <= |s|
    ensures |r| == |s|
    ensures r[at..at + |b|] == b
    ensures r[..at] == s[..at]
    ensures r[at + |b|..] == s[at + |b|..]
  {
    s[..at] + b + s[at + |b|..]
  }

  lemma SpliceAt(s: Bytes, at: nat, b: Bytes, i: nat)
    requires at + |b| <= |s| && i < |s|
    ensures Splice(s, at, b)[i] == if at <= i < at + |b| then b[i - at] else s[i]
  {
  }

  // ---- control and status bits ------------------------------------------------------------------

  predicate T(b: bv8) { b & 0x80 != 0 }

  predicate M(b: bv8) { b & 0x40 != 0 }

  predicate R(b: bv8) { b & 0x20 != 0 }

  function WithM(b: bv8, on: bool): (r: bv8)
    ensures M(r) == on && T(r) == T(b) && R(r) == R(b)
  {
    if on then b | 0x40 else b & 0xBF
  }

  function WithR(b: bv8, on: bool): (r: bv8)
    ensures R(r) == on && T(r) == T(b) && M(r) == M(b)
  {
    if on then b | 0x20 else b & 0xDF
  }

  function ToggleT(b: bv8): (r: bv8)
    ensures T(r) == !T(b) && M(r) == M(b) && R(r) == R(b)
  {
    b ^ 0x80
  }

  // ---- messages ---------------------------------------------------------------------------------

  function ByteValue(b: bv8): (n: nat)
    ensures n < 256
  {
    b as nat
  }

  /** A header of eight bytes, whose byte 5 is the number of data bytes that follow. */
  predicate WellFormed(m: Bytes) { |m| >= HEADER && |m| == HEADER + ByteValue(m[5]) }

  lemma HeaderOnly()
    ensures WellFormed(Zeros(HEADER))
  {
    assert Zeros(HEADER)[5] == 0;
  }

  type Msg = m: Bytes | WellFormed(m) witness (HeaderOnly(); Zeros(HEADER))

  predicate IsCommand(m: Msg) { m[4] & 0x40 != 0 }

  predicate IsError(m: Msg) { m[4] & 0x80 != 0 }

  function Command(m: Msg): bv8 { m[4] & 0x3F }

  /** A 16-bit word of a message, low byte first. */
  function WordAt(m: Msg, i: nat): (w: nat)
    requires i + 1 < |m|
    ensures w < 65536
  {
    ByteValue(m[i]) + 256 * ByteValue(m[i + 1])
  }

  const OBJ_ANB: bv8 := 1
  const OBJ_APPD: bv8 := 254
  const REMAP_WRITE: bv8 := 0x13
  const REMAP_READ: bv8 := 0x14

  /** What aplink.c takes for the acknowledgement of a remap command; the C bit is tested separately. */
  predicate LooksLikeRemapAck(m: Msg, command: bv8) {
    m[1] == OBJ_APPD && !IsError(m) && Command(m) == command && m[5] == 2
  }

  lemma AckLength(m: Msg, command: bv8)
    requires LooksLikeRemapAck(m, command)
    ensures |m| == 10
  {
  }

  /** The process data length a remap acknowledgement announces. */
  function AckLengthValue(m: Msg, command: bv8): nat
    requires LooksLikeRemapAck(m, command)
  {
    AckLength(m, command);
    WordAt(m, HEADER)
  }

  predicate IsRemapAck(m: Msg, command: bv8) { !IsCommand(m) && LooksLikeRemapAck(m, command) }

  /** The module's answer to "setup complete". */
  predicate IsSetupAck(m: Msg) {
    !IsCommand(m) && m[1] == OBJ_ANB && !IsError(m) && Command(m) == 0x02 && m[2] == 1 && m[3] == 0 &&
    m[6] == 5 && m[7] == 0 && m[5] == 0
  }

  /** A message waiting to be sent: psWriteMsgBuffer with its fragment counters. */
  datatype Buf = Buf(msg: Msg, nFrags: nat, cnt: nat)

  /** A remap acknowledgement never announces more than the buffers hold (APPD answers no other). */
  predicate SizesFit(m: Msg) {
    (IsRemapAck(m, REMAP_WRITE) ==> AckLengthValue(m, REMAP_WRITE) <= MAX_PD) &&
    (IsRemapAck(m, REMAP_READ) ==> AckLengthValue(m, REMAP_READ) <= MAX_PD)
  }

  lemma HeaderOnlyFits()
    ensures WellFormed(Zeros(HEADER)) && SizesFit(Zeros(HEADER))
  {
    HeaderOnly();
    assert Zeros(HEADER)[1] == 0;
  }

  type OutMsg = m: Msg | SizesFit(m) witness (HeaderOnlyFits(); Zeros(HEADER))

  // ---- fragments --------------------------------------------------------------------------------

  function FragCount(size: nat): nat { (size + FRAG - 1) / FRAG }

  lemma FragCountBounds(m: Msg)
    ensures 1 <= FragCount(|m|) <= MAX_FRAGS
    ensures FRAG * (FragCount(|m|) - 1) < |m| <= FRAG * FragCount(|m|)
  {
  }

  /** Sixteen bytes of the message; what lies behind its end is whatever the memory holds. */
  function FragmentAt(m: Msg, i: nat, pad: Frag): Frag
    requires i < FragCount(|m|)
  {
    FragCountBounds(m);
    (m + pad)[FRAG * i..FRAG * i + FRAG]
  }

  /** A buffer as aplink_AddFragAndPostMsg fills it in. */
  predicate Fragmented(b: Buf) { b.nFrags == FragCount(|b.msg|) && SizesFit(b.msg) }

  function EmptyBuf(): (b: Buf)
    ensures Fragmented(b)
  {
    HeaderOnlyFits();
    Buf(Zeros(HEADER), 1, 0)
  }

  type OutBuf = b: Buf | Fragmented(b) witness EmptyBuf()

  /** The reassembly side: the buffer, the fragments stored so far, and the M bit of the last telegram. */
  datatype Rx = Rx(buf: MessageBuffer, frags: nat, lastM: bool)

  /** Only seven bytes of the seventeenth fragment fit; later ones are dropped. */
  function StoreFragment(buf: MessageBuffer, n: nat, f: Frag): MessageBuffer {
    if n < MAX_FRAGS - 1 then Splice(buf, FRAG * n, f)
    else if n == MAX_FRAGS - 1 then Splice(buf, FRAG * n, f[..LAST_FRAG])
    else buf
  }

  function MessageIn(buf: MessageBuffer): (m: Msg) { buf[..HEADER + ByteValue(buf[5])] }

  /** One telegram at the receiving side: the state after it, and the message it completes, if any. */
  function Receive(rx: Rx, m: bool, f: Frag): (Rx, seq<Msg>) {
    if m then (Rx(StoreFragment(rx.buf, rx.frags, f), (rx.frags + 1) % 65536, true), [])
    else if rx.lastM then (Rx(rx.buf, 0, false), [MessageIn(rx.buf)])
    else (rx, [])
  }

  // ---- telegrams --------------------------------------------------------------------------------

  function CrcBytes(s: Bytes): (b: Bytes)
    ensures |b| == 2
  {
    var crc := Crc.Reference(s);
    [((crc >> 8) & 0x00FF) as bv8, (crc & 0x00FF) as bv8]
  }

  /** The receiver's test: the last two bytes are the checksum of the others, high byte first. */
  predicate CrcOk(b: Bytes) {
    |b| >= OVERHEAD && Crc.Reference(b[..|b| - 2]) == Crc.Word(b[|b| - 2], b[|b| - 1])
  }

  lemma SplitWord(crc: bv16)
    ensures Crc.Word(((crc >> 8) & 0x00FF) as bv8, (crc & 0x00FF) as bv8) == crc
  {
  }

  lemma WordSplits(h: bv8, l: bv8)
    ensures ((Crc.Word(h, l) >> 8) & 0x00FF) as bv8 == h && (Crc.Word(h, l) & 0x00FF) as bv8 == l
  {
  }

  /** Every telegram built passes the receiver's test. */
  lemma SealedPasses(body: Bytes)
    requires |body| >= 17
    ensures CrcOk(body + CrcBytes(body))
  {
    var b := body + CrcBytes(body);
    assert b[..|b| - 2] == body;
    SplitWord(Crc.Reference(body));
  }

  function FragmentOf(tel: RxTelegram): Frag { tel[1..17] }
}

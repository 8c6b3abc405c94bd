# A model of the fieldbus board's core, with proofs

This project models, in Dafny, the parts of the firmware that carry an algorithm, and proves what they promise.

* **The Anybus CompactCom host driver** in serial mode: the link layer (`APDR`), the command credits, buffers, queues,
  process data and configuration above it (`APLINK`), and the checksum, timers, ring queues, buffer pools and
  process data map they use (`CRC`, `UTIL`, `APPD`).
* **The byte ring** `kfifo`, its claim to need no lock, and the boot console built on it.
* **The clock**: 64/32-bit division, the search for a multiplier and a shift, and the wrapping counter that runs on
  them.

## How the driver is modelled

`Driver.dfy` is the driver in the form of the source: one object, whose two structures (`apdr`, `aplink`) and three byte
arrays (the telegram being sent, the message being received, the process data written by the application) its methods
change in place, with the state machine as a loop around a switch. Every method is proved to compute a function of
`DriverSpec.dfy` on the state before it. What the source promises is proved about those functions.

`LinkSystem.dfy` puts the driver into an environment: a line that keeps order but may lose, repeat, delay and
detectably damage telegrams in both directions; the module at the other end; timers that may expire at any time; and an
application that sends, fetches and writes process data at any point between two runs of the driver. The module is any
implementation that takes each newly toggled telegram in once, answers it with the same T bit, repeats its last answer
to a repeat, and cuts its own messages into fragments in the driver's way. A run of the system is any sequence of such
steps from the initial state, and the theorems hold at every moment of every run:

* messages arrive exactly once and in order in both directions (`ExactlyOnce.dfy`), end to end from the application's
  queues (`EndToEnd.dfy`), whatever the line does;
* if the module starts a command only when the last telegram it took in had the R bit, each command is answered at most
  once on either side, and the module sends no command during configuration, then the credit counters are exact, no
  buffer or queue runs out, and a command is accepted exactly while credits are left (`Credits.dfy`);
* two messages are always separated by a telegram without the M bit that the other side has taken in
  (`Separation.dfy`);
* commands and responses are arbitrated as the idle state says, and nothing taken from a queue is abandoned
  (`Arbitration.dfy`);
* under those promises the configuration machine, called between the driver's runs, has one request outstanding exactly
  while it waits, and each request it posts finds a buffer (`ConfigSystem.dfy`);
* a telegram sent in the RUN state outside a write remap carries the process data written last, which the log of the run
  holds as the application wrote it (`ProcessData.dfy`); only the module's answer to "setup complete" starts the process
  data (`Sizes.dfy`), and every run can be continued until it flows (`Startup.dfy`);
* an acknowledged write remap takes effect with the next accepted telegram, with the length announced (`RemapAck.dfy`);
* under the same promises nothing the line loses is lost for good: every run, wherever it stands, can be continued by
  timeouts and retransmissions until all messages on both sides are delivered, if and only if the module's newest answer
  has the length the driver waits for, or all is delivered already (`Recovery.dfy`);
* the R bit of each telegram says whether one more command is welcome (`Credits.dfy`), and flow control never shuts the
  module out: every run can be continued until it has sent any command it likes and the application has it
  (`Service.dfy`).

What goes over the line is also stated in terms of its bytes, without the functions that compute it: new and accepted
telegrams (`Telegrams.dfy`), the messages the driver recognises (`Messages.dfy`, and the contracts of `Driver.dfy`), the
requests and answers of the configuration (`ConfigBytes.dfy`), and the remap command (`Remap.dfy`).

The two limits `ABCC_NBR_SIMULTANEOUS_*` are parameters; the compiled configuration sets both to 1. The compile
switches are those of `src/anybus/std_driver/SYS/INCLUDE/sys_adpt.h`: serial mode, little-endian words, comparison of
written process data. Timers act on the link machine only through the flags their callbacks raise. Memory behind a
message, which the last fragment carries as padding, is an arbitrary parameter. Masking by `size - 1` in `kfifo.c` and by
the counter mask in `clock.c` is written as the remainder by a power of two.

## Where the code falls short of its documentation

* **Growing a process data map** (`src/anybus/std_driver/APPD/appd.c:1376-1379`). The loop that makes room copies in
  the wrong direction, and its 16-bit index wraps on an empty map. It is modelled as written. `Remap.RemapPromise` shows
  that a command does what it promises for every table content if and only if the map does not grow or it grows at the
  end of a map that is not empty; `Remap.GrownInTheMiddle` says entry by entry what it leaves otherwise.
* **A write remap to a longer area** (`src/anybus/std_driver/APLINK/aplink.c:1241-1258`). Completing it does not raise
  the process data flag, so if the flag is clear the next telegrams carry leftovers of the transmission buffer behind the
  old data, the checksum of the telegram before first. `SilentGrowth.RemapCoherence` gives the exact condition on lengths
  and flag over all states with the protocol's invariant, `SilentGrowth.CompletionCoherence` the one for a single state,
  and `SilentGrowth.ChecksumSentAsData` the effect.
* **Messages during configuration** (`src/anybus/std_driver/APLINK/aplink.c:1359`). Every message taken is counted as a
  response; `Credits.ConfigTakeBalance` shows that the balance survives exactly if it is one.
* **The mult/shift search** (`src/Core/src/clock.c:92-106`). If no shift fits, the multiplier of shift 1, cut to 32 bits,
  is returned beside shift 0. Such a clock runs at twice its rate if and only if `from` is not 1; with `from` 1 its
  multiplier is too small by 2^32 - `to` (`Clock.FailedSearchRate`, `Clock.FailedSearchExample`).
* **The conversion to nanoseconds** (`src/Core/inc/clock.h:17-22`). Its result is cut to 32 bits, so a guaranteed range of
  more than about four seconds is not kept (`TimeBase.ConversionExact`, `TimeBase.ConversionCut`).

## Model

| member | source | states |
|---|---|---|
| Div64.Div64By32 | src/Core/src/div64.c:24-55 | the one quotient and remainder of any 64-bit number by any base but zero; no shift, sum or product leaves its word, both loops end |
| Div64.DoDiv | src/Core/inc/div64.h:40-49 | the fast path and the loop give the same division |
| Clock.CalcMultShift | src/Core/src/clock.c:78-107 | the largest shift of 1..32 whose rounded multiplier fits, that multiplier, and the guaranteed range; what is returned when none fits, and what rate that is |
| Clock.RoundedNearest | src/Core/src/clock.c:93-96 | the multiplier is the integer nearest to the exact rate, the larger one halfway between two |
| Clock.MultBitsTight | src/Core/src/clock.c:86-90 | the bits a multiplier may have: with one more, some product could reach 2^64 |
| Clock.RangeGuarantee | src/Core/src/clock.c:66-76 | up to maxsec seconds of cycles times a multiplier that fits stays below 2^64 |
| Clock.NumeratorFits | src/Core/src/clock.c:94-95 | the shifted target rate plus half of `from` never overflows 64 bits |
| Clock.RoundedMonotone | src/Core/src/clock.c:93-101 | smaller shifts give smaller multipliers, so searching downwards finds the largest shift that fits |
| Clock.FailedSearchRate | src/Core/src/clock.c:92-106 | the pair left by a failed search runs at twice the rate if and only if `from` is not 1; otherwise its multiplier is too small by 2^32 - `to` |
| Clock.FirstMultiplier | src/Core/src/clock.c:93-104 | the multiplier of shift 1 fits 32 bits if and only if `from` is not 1 or `to` is below 2^31 |
| Clock.FailedSearchExample | src/Core/src/clock.c:92-106 | an input for which no shift fits |
| TimeBase.RunningClock.GetTimeNs | src/Core/src/clock.c:34-49 | one reading of the counter: the new reference and the new time |
| TimeBase.DeltaIsElapsed | src/Core/src/clock.c:39-40 | the masked difference is the true number of cycles, however often the counter wrapped, while less than a period passed |
| TimeBase.RunAddsAdvance | src/Core/src/clock.c:42-46 | any number of readings adds the sum of the conversions, modulo 2^64 |
| TimeBase.TimeMonotone | src/Core/src/clock.c:42-47 | time never runs backwards while the 64-bit sum does not overflow |
| TimeBase.ConversionBounds | src/Core/inc/clock.h:17-22 | a conversion within its words is the exact product rounded down |
| TimeBase.DriftBound | src/Core/src/clock.c:34-49 | n readings covering C cycles: time <= C * mult / 2^shift < time + n |
| TimeBase.DriftFromTrueTime | src/Core/src/clock.c:34-107 | the same against true time, with the rounding of the multiplier |
| TimeBase.RangeSuffices | src/Core/src/clock.c:66-76 | readings no further apart than the range given to the search, a counter period and 2^32 nanoseconds keep every conversion within its words |
| TimeBase.DriftOfFoundClock | src/Core/src/clock.c:34-107 | from the search's arguments to the drift against true time |
| TimeBase.ConversionExact | src/Core/inc/clock.h:17-22 | a conversion is right exactly if its nanoseconds fit 32 bits |
| TimeBase.ConversionCut | src/Core/inc/clock.h:17-22 | five seconds that come out as 0.7 |
| TimeBase.ProductCut | src/Core/inc/clock.h:17-22 | a product that reaches 2^64 loses what is above it |
| TimeBase.TimeoutExact | src/Core/src/clock.c:137-143 | the signed test is exact although the 64-bit time wraps |
| TimeBase.RunningClock.IsTimeout | src/Core/src/clock.c:137-143 | takes a reading and tests it |
| TimeBase.RunningClock.Wait | src/Core/src/clock.c:146-151 | the wait ends at the first reading at which more than the requested time has passed on this clock |
| TimeBase.RunningClock.NDelay | src/Core/src/clock.c:146-151 | done if and only if more than the nanoseconds asked for have passed on this clock |
| TimeBase.RunningClock.UDelay | src/Core/src/clock.c:154-159 | the same in microseconds |
| TimeBase.RunningClock.MDelay | src/Core/src/clock.c:162-167 | the same in milliseconds |
| TimeBase.DelayLongEnough | src/Core/src/clock.c:137-151 | a finished wait means that more cycles passed than the requested time takes |
| Kfifo.Ring.Len | src/Core/inc/kfifo.h:74-77 | the number of bytes stored |
| Kfifo.Ring.Put | src/Core/src/kfifo.c:120-138 | the longest prefix that fits is appended, wherever the 32-bit counters stand |
| Kfifo.Ring.CopyIn | src/Core/src/kfifo.c:127-133 | the two copies store the bytes behind the stored ones and overwrite none of them |
| Kfifo.Ring.Get | src/Core/src/kfifo.c:151-168 | up to len bytes are removed from the front, in order; the rest of the destination is untouched |
| Kfifo.Ring.CopyOut | src/Core/src/kfifo.c:158-163 | the two copies read the bytes from the reader's position on |
| Kfifo.Ring.PutC | src/Core/src/kfifo.c:170-176 | the ring keeps the last `size` bytes |
| Kfifo.Ring.GetC | src/Core/src/kfifo.c:178-187 | the oldest byte, or nothing from an empty ring |
| Kfifo.FreeSpace | src/Core/src/kfifo.c:125 | the room computed from wrapped counters is the true room |
| Kfifo.SlotOfWrapped | src/Core/src/kfifo.c:128-129 | wrapping of a counter does not move its slot |
| Kfifo.NotWritten | src/Core/src/kfifo.c:127-133 | no slot written by a put holds a stored byte |
| KfifoConcurrent.NoLockNeeded | src/Core/src/kfifo.c:120-168 | for every interleaving of one writer and one reader the bytes got are a prefix of the bytes put, and no unread byte is overwritten |
| KfifoConcurrent.ReadsAreStable | src/Core/src/kfifo.c:151-168 | a byte copied by a get in progress is already the one it will deliver |
| KfifoConcurrent.PutTakesWhatFits | src/Core/src/kfifo.c:125 | in every interleaving, a put sets out to store the longest prefix there is room for |
| KfifoConcurrent.GetTakesWhatIsThere | src/Core/src/kfifo.c:156 | in every interleaving, a get sets out to fetch as much as asked for, or all there is |
| KfifoConcurrent.PutCopiesKeeps | src/Core/src/kfifo.c:127-133 | one byte copied by the writer keeps the invariant while the reader is anywhere |
| KfifoConcurrent.GetCopiesKeeps | src/Core/src/kfifo.c:158-163 | one byte copied by the reader keeps the invariant while the writer is anywhere |
| KfifoConcurrent.StepKeeps | src/Core/src/kfifo.c:120-168 | every step of either side keeps the invariant |
| Console.Console.PutC | src/Bsp/Src/serial.c:174-185 | to the device if there is one, else remembered |
| Console.Console.PutString | src/Bsp/Src/serial.c:186-191 | the characters in order |
| Console.Console.Register | src/Bsp/Src/serial.c:155-166 | the device receives exactly the last min(n, 256) boot characters, in order, before anything else; without a device nothing is drained |
| Console.Console.AllocFifo | src/Bsp/Src/serial.c:167-173 | the ring exists afterwards and nothing remembered is lost |
| Console.LastOfLast | src/Core/src/kfifo.c:170-176 | keeping the last bytes one at a time keeps the last bytes of all |
| Crc.Crc16 | src/anybus/std_driver/CRC/crc.c:133-161 | the table-driven checksum is the bit-by-bit CRC-16 (reflected polynomial 0xA001, initial value 0xFFFF) of any byte sequence |
| Crc.TableEntry | src/anybus/std_driver/CRC/crc.c:71-118 | each of the 256 entries of both tables is the register after eight zero bits |
| Crc.TableStep | src/anybus/std_driver/CRC/crc.c:151-157 | one turn of the loop is one byte of the reference |
| Crc.CheckValue | src/anybus/std_driver/CRC/crc.c:133-161 | the published check value of this CRC: 0x4B37 for the digits 1 to 9 |
| Crc.BurstDetected | src/anybus/std_driver/CRC/crc.c:133-161 | two messages of one length that differ within any sixteen consecutive bits have different checksums |
| Crc.AdjacentBytesDetected | src/anybus/std_driver/CRC/crc.c:133-161 | two messages that differ within one byte or two adjacent bytes have different checksums |
| Abp.SealedPasses | src/anybus/std_driver/APDR/apdr_ser.c:162-179 | a telegram closed with its checksum passes the receiver's test of lines 505-518 |
| Telegrams.NewTelegram | src/anybus/std_driver/APDR/apdr_ser.c:293-483 | a new telegram byte by byte: T turned over, M, R exactly if one more command is welcome; sixteen bytes of the message or zeros; the newest data if it is due, else what was sent before; the checksum, high byte first; the flag of new data cleared exactly if data went out |
| Telegrams.AcceptsFitting | src/anybus/std_driver/APDR/apdr_ser.c:492-518 | a telegram is accepted if and only if it has the expected length, a turned T bit and a fitting checksum, in terms of its bytes |
| Telegrams.WhatIsSent | src/anybus/std_driver/APDR/apdr_ser.c:486-664 | a run that waits sends a new telegram exactly for a fitting answer not held up, and is then rid of every report; otherwise it repeats the last one exactly if a timeout was reported |
| Telegrams.OneTelegramPerTimeout | src/anybus/std_driver/APDR/apdr_ser.c:592-664 | a timeout is good for one repetition: the run after it is silent |
| Telegrams.FirstTelegram | src/anybus/std_driver/APDR/apdr_ser.c:214-290 | nothing is sent before the handshake delay is over; then the control byte is 0xA0 and no message is sent |
| Messages.SetupBytes | src/anybus/std_driver/APLINK/aplink.c:608-618 | the answer to "setup complete" by its seven header bytes |
| Messages.AckBytes | src/anybus/std_driver/APLINK/aplink.c:1059-1104 | the acknowledgements of the remap commands by their header bytes, and the length they announce, low byte first |
| Fragments.TelegramKeepsSync | src/anybus/std_driver/APDR/apdr_ser.c:103-147 | one telegram keeps sender and receiver in step: the receiver holds exactly the fragments the sender counts as sent |
| Fragments.RoundTrip | src/anybus/std_driver/APDR/apdr_ser.c:684-779 | any message of 0 to 255 data bytes, cut into fragments with any padding and ended by a telegram without M bit, comes out as it went in |
| Fragments.StoreExtends | src/anybus/std_driver/APDR/apdr_ser.c:692-704 | a fragment extends what is held of the message, the seventeenth by its last seven bytes |
| Fragments.HeldMessage | src/anybus/std_driver/APDR/apdr_ser.c:756-767 | all fragments held, the message cut out by its own length byte is the one sent |
| DriverSpec.RunTurns | src/anybus/std_driver/APDR/apdr_ser.c:210-1093 | turning the switch until a state returns is the run the theorems speak of |
| Driver.Driver.RunDataLinkStateMachine | src/anybus/std_driver/APDR/apdr_ser.c:196-1095 | the loop ends and computes Run: state, telegram handed to the line, messages taken, delivered and completed |
| Driver.Driver.TurnOnce | src/anybus/std_driver/APDR/apdr_ser.c:212-1091 | one turn of the switch, and how far the run is from its end |
| Driver.Driver.BuildSerialTelegram | src/anybus/std_driver/APDR/apdr_ser.c:82-188 | control byte, next fragment, process data and checksum in the buffer |
| Driver.Driver.SendNewTelegram | src/anybus/std_driver/APDR/apdr_ser.c:293-483 | the telegram of `Telegrams.NewTelegram`, in the buffer, and the wait for its answer |
| Driver.Driver.SendAndReport | src/anybus/std_driver/APDR/apdr_ser.c:293-483 | the telegram sent, byte by byte, as in `Telegrams.NewTelegram` |
| Driver.Driver.TryAccept | src/anybus/std_driver/APDR/apdr_ser.c:492-590 | accepted exactly if the telegram has the expected length, a turned T bit and a fitting checksum; what an accepted telegram changes |
| Driver.Driver.WaitForTelegram | src/anybus/std_driver/APDR/apdr_ser.c:486-670 | telegram, telegram timeout, watchdog timeout, in this order |
| Driver.Driver.TakeIncoming | src/anybus/std_driver/APDR/apdr_ser.c:673-781 | fragments are stored, an ended message delivered; without a buffer nothing changes |
| Driver.Driver.ChooseNext | src/anybus/std_driver/APDR/apdr_ser.c:793-871 | go on, complete, or turn to the queues |
| Driver.Driver.SelectMessage | src/anybus/std_driver/APDR/apdr_ser.c:936-1088 | which queue is served |
| Driver.Driver.constructor | src/anybus/std_driver/APLINK/aplink.c:101-161 | the state the setup phase leaves behind: configuring, nothing queued, nothing owed, every counter 0 |
| Driver.Driver.Send | src/anybus/std_driver/APLINK/aplink.c:1141-1232 | refused while configuring, with nothing changed; otherwise, if accepted, behind the messages of its kind with its buffer, its fragments and a command's credit, and if refused with nothing taken |
| Driver.Driver.AddFragAndPostMsg | src/anybus/std_driver/APLINK/aplink.c:2284-2408 | the number of fragments is the size divided by 16, rounded up; credit, queue and buffer |
| Driver.Driver.HandleQueuedMsgsToAppl | src/anybus/std_driver/APLINK/aplink.c:2223-2276 | the oldest message is handed over, a response gives its credit back |
| Driver.Driver.Deliver | src/anybus/std_driver/APLINK/aplink.c:572-671 | the seven bytes of the answer to "setup complete" set both sizes, the line's length and the flag and start the process data, no other message does; a command is counted as open; the message waits if there is a place |
| Driver.Driver.Complete | src/anybus/std_driver/APLINK/aplink.c:1030-1133 | a sent message frees its buffer, a response its credit; a remap acknowledgement announces the length in its two data bytes, for the read area at once, for the write area for the next accepted telegram |
| Driver.Driver.SwitchWritePdMap | src/anybus/std_driver/APLINK/aplink.c:1241-1258 | the new write length |
| Driver.Driver.WritePd | src/anybus/std_driver/APLINK/aplink.c:469-531 | the bytes written lie at the start of the buffer, the rest is as it was, and the flag is raised exactly if they differed |
| Driver.Driver.GetNewProcessData | src/anybus/std_driver/APLINK/aplink.c:828-906 | new data goes into the telegram and the flag is cleared |
| Driver.Driver.RunPass | src/anybus/std_driver/APLINK/aplink.c:400-428 | a pass in a run state; before process data may flow it ends with the flag raised |
| Driver.PostInBytes | src/anybus/std_driver/APLINK/aplink.c:1141-1232 | the contract of sending, for every message and every state |
| Driver.DeliverInBytes | src/anybus/std_driver/APLINK/aplink.c:593-670 | the contract of delivery, for every message and every state |
| Driver.CompleteInBytes | src/anybus/std_driver/APLINK/aplink.c:1030-1137 | the contract of completion, for every message and every state |
| Rounds.SendFacts | src/anybus/std_driver/APDR/apdr_ser.c:293-483 | what a new telegram changes and leaves alone: bits, with R exactly if one more command is welcome, fragment counter, flag, and a checksum that fits |
| Rounds.ProcessRound | src/anybus/std_driver/APDR/apdr_ser.c:673-873 | one accepted telegram goes through the receiving side, and the next one carries what the sending side has next; queues and counters change by what was taken, delivered and completed |
| Rounds.IdleRound | src/anybus/std_driver/APDR/apdr_ser.c:936-1088 | from idle, a message taken is the head of its queue and its first fragment goes out at once |
| Rounds.SelectArbitrates | src/anybus/std_driver/APDR/apdr_ser.c:944-1086 | commands only on the R bit, the other kind first, never idle with something to send |
| Rounds.IncomingFacts | src/anybus/std_driver/APDR/apdr_ser.c:684-781 | the receiving half is Fragments' receiver; with a buffer free no message is dropped |
| Rounds.OutgoingFinished | src/anybus/std_driver/APDR/apdr_ser.c:820-851 | a finished message is completed once and leaves the link |
| Rounds.Retransmits | src/anybus/std_driver/APDR/apdr_ser.c:597-637 | a timeout sends the same bytes; no counter, bit, queue or buffer moves |
| ExactlyOnce.TransfersExactlyOnce | src/anybus/std_driver/APDR/apdr_ser.c:196-1095 | in every run, what either side delivered is a prefix of what the other took up, behind by at most one message |
| ExactlyOnce.AcceptsExactly | src/anybus/std_driver/APDR/apdr_ser.c:516-518 | toggle and checksum accept exactly the undamaged answers to the newest telegram |
| ExactlyOnce.NothingUnderWay | src/anybus/std_driver/APDR/apdr_ser.c:722-779 | with no message under way, the newest telegram has no M bit, both ways |
| ExactlyOnce.RetransmissionSame | src/anybus/std_driver/APDR/apdr_ser.c:597-637 | in every run, whatever is sent without starting a new round is the last telegram again, and no fragment counter advances |
| ExactlyOnce.StepKeeps | src/anybus/std_driver/APDR/apdr_ser.c:196-1095 | every step of driver, module, line and application keeps the protocol's invariant |
| ExactlyOnce.RoundKeeps | src/anybus/std_driver/APDR/apdr_ser.c:673-873 | a completed round keeps it |
| ExactlyOnce.BlockedKeeps | src/anybus/std_driver/APDR/apdr_ser.c:746-753 | a run without a buffer keeps it: the accepted telegram is processed by a later run |
| ExactlyOnce.TimeoutsKeep | src/anybus/std_driver/APDR/apdr_ser.c:597-664 | a retransmission, after either timeout, keeps it |
| ExactlyOnce.PeerKeeps | src/anybus/std_driver/APDR/apdr_ser.c:492-518 | a module that takes newly toggled telegrams in once and repeats its last answer keeps it |
| ExactlyOnce.FaultsKeepChannel | src/anybus/std_driver/APDR/apdr_ser.c:505-588 | loss, repetition and detectable damage leave the line in order |
| Separation.DriverSeparates | src/anybus/std_driver/APDR/apdr_ser.c:797-862 | of any two messages of the driver in a run: the later one's first fragment follows a telegram without M bit, itself later than the first fragment of the earlier one, that the module has taken in |
| Separation.ModuleSeparates | src/anybus/std_driver/APDR/apdr_ser.c:684-781 | the same for two messages of the module and the answers the driver has processed |
| EndToEnd.DeliversEndToEnd | src/anybus/std_driver/APLINK/aplink.c:1141-1232 | the module delivers a prefix of each kind of message the application handed over; the application is handed a prefix of what the module sent |
| EndToEnd.StepKeepsQueued | src/anybus/std_driver/APLINK/aplink.c:949-1022 | every accepted message was taken, in order, or still waits, in order |
| EndToEnd.RunIsEither | src/anybus/std_driver/APDR/apdr_ser.c:196-1095 | a run completes a round or moves no message; it ends blocked only if the inbound buffers are used up |
| Credits.CreditsConserved | src/anybus/std_driver/APLINK/aplink.c:2335-2382 | the counter equals commands queued, being sent and unanswered plus responses waiting; it never exceeds its limit or underflows |
| Credits.OpenCommandsCounted | src/anybus/std_driver/APLINK/aplink.c:593-604 | the counter of the module's open commands is exact and never above its limit |
| Credits.InboundNeverFull | src/anybus/std_driver/APLINK/aplink.c:914-941 | buffer and queue place are free whenever a message is on its way, and the link machine never blocks |
| Credits.SendSucceeds | src/anybus/std_driver/APLINK/aplink.c:1141-1220 | a command is accepted exactly while fewer than the limit are outstanding; an owed response always |
| ConfigSystem.ConfigPostSucceeds | src/anybus/std_driver/APLINK/aplink.c:1309-1334 | in every run of the machine within the system: when it posts, no command is outstanding, the buffer used without a test is not null, and the request is accepted |
| ConfigSystem.OneOutstanding | src/anybus/std_driver/APLINK/aplink.c:1345-1359 | while configuring, one command is outstanding exactly while the machine waits |
| ConfigSystem.CallKeeps | src/anybus/std_driver/APLINK/aplink.c:1274-2215 | each call of the machine keeps the driver's invariant, the credits and that balance |
| Credits.ConfigTakeBalance | src/anybus/std_driver/APLINK/aplink.c:1353-1359 | the balance survives a message taken during configuration exactly if it is a response |
| Credits.NewMessageAtModule | src/anybus/std_driver/APDR/apdr_ser.c:311-326 | the module starts a message only with nothing on its way, having seen the newest R bit |
| Credits.RoomTold | src/anybus/std_driver/APLINK/aplink.c:914-941 | in every run: each new telegram has bit 0x20 set if and only if fewer commands of the module are unanswered than the limit and fewer messages wait than the queue holds |
| Credits.StepKeepsCredits | src/anybus/std_driver/APLINK/aplink.c:1030-1220 | every step keeps the counters, the pools and the promises |
| Arbitration.Arbitrated | src/anybus/std_driver/APDR/apdr_ser.c:936-1088 | in every run: oldest of its kind, commands only on the R bit, strict alternation while both wait |
| Arbitration.NothingAbandoned | src/anybus/std_driver/APDR/apdr_ser.c:797-862 | what is taken is completed at most once and in order; the one exception is the message still held |
| Recovery.EverythingCanArrive | src/anybus/std_driver/APDR/apdr_ser.c:492-664 | every run can be continued until both sides have delivered everything, if and only if the module's newest answer has the expected length or everything is delivered already |
| Recovery.LossRecovered | src/anybus/std_driver/APDR/apdr_ser.c:592-637 | if everything on the line is lost, a timeout, the retransmission and its answer complete the round |
| Recovery.AnswerAccepted | src/anybus/std_driver/APDR/apdr_ser.c:505-518 | an undamaged answer to the newest telegram, in the expected length, is accepted |
| Recovery.RoundTowards | src/anybus/std_driver/APDR/apdr_ser.c:797-1088 | each completed round brings some message nearer to its delivery: a queue shorter, a fragment fewer, or the R bit seen |
| Recovery.StuckStays | src/anybus/std_driver/APDR/apdr_ser.c:505-588 | an answer of another length is repeated and, by the model's rule, refused: no step completes the round |
| Recovery.AnswerExists | src/anybus/std_driver/APDR/apdr_ser.c:492-518 | the module's promises can be kept: every new telegram has an answer that the driver's test accepts |
| Service.CommandCanArrive | src/anybus/std_driver/APDR/apdr_ser.c:311-326 | every run out of the configuration can be continued until the module has sent any command it likes and the application has been handed it, once and after all before it; if the module's newest answer has the expected length |
| Service.ModuleCanStart | src/anybus/std_driver/APDR/apdr_ser.c:673-781 | from rest, whatever is lost, the module can start any message it may start |
| Startup.DataCanFlow | src/anybus/std_driver/APLINK/aplink.c:608-652 | every run out of the configuration with no remap under way can be continued until the driver runs and sends any data in an area of any size; if the module's newest answer has the expected length |
| Startup.SomeRunCarries | src/anybus/std_driver/APLINK/aplink.c:608-652 | for any limits, data and size there is a run of the system in which that happens |
| Sizes.SetupStarts | src/anybus/std_driver/APLINK/aplink.c:612-650 | the answer to "setup complete": sizes, the line's length, flag and state |
| Sizes.OthersDoNotStart | src/anybus/std_driver/APLINK/aplink.c:608-652 | no other message touches them |
| RemapAck.RemapProgress | src/anybus/std_driver/APLINK/aplink.c:1052-1258 | in every run, what a new telegram leaves of a remap: the switch that was due is made, to the length announced; a completed acknowledgement makes the next one due; only the answer to "setup complete" sets the length otherwise |
| RemapAck.SendHoldsBack | src/anybus/std_driver/APLINK/aplink.c:1175-1203 | sending the acknowledgement of a write remap holds back process data until the switch, whatever bit 0x40 says |
| RemapAck.SwitchMade | src/anybus/std_driver/APLINK/aplink.c:1241-1258 | an accepted telegram makes the switch that is due, for both sides |
| ProcessData.LatestDataSent | src/anybus/std_driver/APLINK/aplink.c:828-906 | each new telegram in RUN outside a write remap carries the bytes the application wrote last and, should the area have grown since, behind them what it wrote before; if no run of the link machine began with a silently growing remap |
| ProcessData.BufferIsImage | src/anybus/std_driver/APLINK/aplink.c:498-508 | in every run the write buffer holds what the application wrote, each write over the start of the one before |
| ProcessData.RunIsCoherent | src/anybus/std_driver/APDR/apdr_ser.c:154-186 | a run keeps the flag's promise, with its one exception |
| ProcessData.WriteCoherent | src/anybus/std_driver/APLINK/aplink.c:469-531 | a write keeps it |
| ProcessData.IncomingCoherent | src/anybus/std_driver/APLINK/aplink.c:612-652 | the start of the process data keeps it |
| ProcessData.StepCoherent | src/anybus/std_driver/APLINK/aplink.c:400-428 | every step keeps it |
| SilentGrowth.RemapCoherence | src/anybus/std_driver/APLINK/aplink.c:1241-1258 | for any two lengths and either state of the flag: a completed write remap keeps the promise in every state with the protocol's invariant, if and only if the flag is raised or the area does not grow |
| SilentGrowth.CompletionCoherence | src/anybus/std_driver/APLINK/aplink.c:1241-1258 | in one state: if and only if the flag is raised, the area does not grow, or what lies behind it is the application's |
| SilentGrowth.ChecksumBehind | src/anybus/std_driver/APDR/apdr_ser.c:162-179 | the first two bytes behind the area are the checksum of the telegram last sent |
| SilentGrowth.ChecksumSentAsData | src/anybus/std_driver/APDR/apdr_ser.c:158-179 | in every run, the telegram sent on a silent growth carries the old data and then the old checksum as process data |
| SilentGrowth.StaleAreaSent | src/anybus/std_driver/APDR/apdr_ser.c:158-179 | with the flag clear the area goes out as the buffer happens to hold it |
| Remap.FindAdiIndex | src/anybus/std_driver/APPD/appd.c:630-653 | the index found holds the number |
| Remap.FindFirst | src/anybus/std_driver/APPD/appd.c:630-653 | it is the first such index, and 0xFFFF exactly if there is none |
| Remap.PdMap.MapInitial | src/anybus/std_driver/APPD/appd.c:326-400 | the initial map, each entry all elements of the first instance of its number, and its size cut to 16 bits; the map is one the command accepts if and only if it has at most 32 entries and 256 bytes |
| Remap.PdMap.Remap | src/anybus/std_driver/APPD/appd.c:1195-1438 | refused, with nothing changed, exactly if its bytes are not acceptable; otherwise, unless it grows the map in the middle, the map its bytes ask for, with its size, at most 256, stored and answered |
| Remap.AcceptedIff | src/anybus/std_driver/APPD/appd.c:1228-1349 | the checks pass if and only if: counts present, range within the map, at most 32 entries, four bytes an item, each item's instance exists and has the elements asked for, number 6 whole, at most 256 bytes; all in terms of the command's bytes |
| Remap.RefusedWith | src/anybus/std_driver/APPD/appd.c:1228-1349 | what a refused command is told, in the order of the checks, by its bytes |
| Remap.FirstBadItem | src/anybus/std_driver/APPD/appd.c:1293-1334 | the first faulty item decides, by its four bytes |
| Remap.NewEntriesBytes | src/anybus/std_driver/APPD/appd.c:1395-1405 | each new entry has number, first element and number of elements from its four bytes, and type and order of the first instance with that number |
| Remap.SplicedAsAsked | src/anybus/std_driver/APPD/appd.c:1351-1409 | the promised map: what stays, in its order, around the items |
| Remap.CommandsKeepPromises | src/anybus/std_driver/APPD/appd.c:1195-1438 | any sequence of commands, each refused or with a right shift, leaves a valid map that is exactly the promised sequence of splices, with its size |
| Remap.PdMap.Check | src/anybus/std_driver/APPD/appd.c:1228-1349 | the first fault in the order of the checks, and the size of the spliced map |
| Remap.PdMap.CheckItems | src/anybus/std_driver/APPD/appd.c:1293-1342 | the first faulty item; the 16-bit size never wraps |
| Remap.PdMap.SizeWithout | src/anybus/std_driver/APPD/appd.c:1264-1268 | the size of what stays |
| Remap.PdMap.ShiftEntries | src/anybus/std_driver/APPD/appd.c:1351-1387 | the shift as written, in both directions |
| Remap.PdMap.WriteEntries | src/anybus/std_driver/APPD/appd.c:1393-1409 | the entries the items' bytes ask for, in place, and no other entry touched |
| Remap.RemapPromise | src/anybus/std_driver/APPD/appd.c:1366-1380 | the splice is right for every table content if and only if the map does not grow, or grows at the end of a non-empty map |
| Remap.LastEntryStale | src/anybus/std_driver/APPD/appd.c:1374-1379 | otherwise the last entry is whatever the table held there |
| Remap.GrownInTheMiddle | src/anybus/std_driver/APPD/appd.c:1366-1380 | a command that grows the map elsewhere: it leaves the table exactly if it begins too low or the map is empty; otherwise only the entries behind the old map's end are wrong, and they are what the table held |
| Remap.AcceptedIsSpliced | src/anybus/std_driver/APPD/appd.c:1224-1438 | an accepted command leaves old[..start] + new + old[start + removed..], of at most 32 entries and 256 bytes |
| Remap.NoSizeWrap | src/anybus/std_driver/APPD/appd.c:1340-1344 | the running 16-bit size stays below 65536 |
| Timers.TimerSystem.Create | src/anybus/std_driver/UTIL/util.c:122-174 | a stopped timer in the next free place; none from a full table or without a callback |
| Timers.TimerSystem.GetTimer | src/anybus/std_driver/UTIL/util.c:182-202 | the time left, 0 for an id refused |
| Timers.TimerSystem.ReloadTimer | src/anybus/std_driver/UTIL/util.c:210-249 | loads and enables, or refuses the id and changes nothing |
| Timers.TimerSystem.StartTimer | src/anybus/std_driver/UTIL/util.c:335-361 | enables, nothing else, or refuses the id |
| Timers.TimerSystem.StopTimer | src/anybus/std_driver/UTIL/util.c:369-395 | disables, nothing else, or refuses the id |
| Timers.TimerSystem.RunTimerSystem | src/anybus/std_driver/UTIL/util.c:257-327 | every timer takes the tick; exactly the ones that reach zero are called back, in table order |
| Timers.TimeLeft | src/anybus/std_driver/UTIL/util.c:210-395 | the time left is the time loaded less what was ticked while enabled |
| Timers.FiresWhenReached | src/anybus/std_driver/UTIL/util.c:279-314 | the callback comes at exactly the tick where the counted time reaches the time loaded |
| Timers.FiresExactlyOnce | src/anybus/std_driver/UTIL/util.c:210-395 | for any sequence of calls after a reload: at most one callback, and one exactly if the time is reached |
| MessageQueues.Queue.Add | src/anybus/std_driver/UTIL/util.c:403-509 | appended, or refused exactly when full |
| MessageQueues.Queue.GetFirst | src/anybus/std_driver/UTIL/util.c:677-784 | the oldest entry, removed |
| MessageQueues.QueueSystem.Create | src/anybus/std_driver/UTIL/util.c:549-607 | an empty queue in the next free place, or none |
| MessageQueues.QueueSystem.Add | src/anybus/std_driver/UTIL/util.c:403-509 | every other queue is left as it was; ids not given out are full or refused |
| MessageQueues.QueueSystem.GetFirst | src/anybus/std_driver/UTIL/util.c:677-784 | every other queue is left as it was; ids not given out are empty or refused |
| MessageQueues.QueueSystem.EntriesLeft | src/anybus/std_driver/UTIL/util.c:615-669 | capacity less length; 0 for ids not given out |
| MessageQueues.AddedLast | src/anybus/std_driver/UTIL/util.c:429-474 | the insert place is behind the last waiting entry, also around the end of the ring |
| MessageQueues.TakenFirst | src/anybus/std_driver/UTIL/util.c:705-748 | the remove place holds the oldest entry, also around the end of the ring |
| MessageQueues.AllocateMsgBuffer | src/anybus/std_driver/UTIL/util.c:792-843 | the first free entry, and none exactly if all are in use |
| MessageQueues.FreeMsgBuffer | src/anybus/std_driver/UTIL/INCLUDE/util.h:648 | one entry fewer in use |
| Configuration.ConfigMachine.RunCfg | src/anybus/std_driver/APLINK/aplink.c:1274-2215 | one call of the machine; without an answer to wait for, nothing |
| Configuration.StepDescends | src/anybus/std_driver/APLINK/aplink.c:1282-2213 | every call that does not wait moves towards the end: phase, maps left, state within |
| Configuration.ConfigurationRun | src/anybus/std_driver/APLINK/aplink.c:1284-2200 | with every request answered: each read map and then each write map posted once in index order, statuses and lengths as answered, and the end after 10 + 3 calls a map |
| ConfigBytes.ConfigurationInBytes | src/anybus/std_driver/APLINK/aplink.c:1284-2200 | with the four attributes answered well: the requests posted, byte by byte, each read map and then each write map; each map's status 1 and offset exactly if its answer accepts it, else both 0; the lengths as the 16-bit sums of the accepted maps' bytes |
| ConfigBytes.EndsEarly | src/anybus/std_driver/APLINK/aplink.c:1304-1801 | if attribute j is the first not answered well, exactly j + 1 attribute requests are posted, no map is, and both lengths are 0 |
| ConfigBytes.MapAccepted | src/anybus/std_driver/APLINK/aplink.c:1886-1894 | a map is accepted if and only if the answer's bytes 0 to 3 are 1, 3, 1, 0, byte 4 has neither C nor E bit, byte 5 is 1 and bytes 6 and 7 are its number |
| ConfigBytes.AttributeAccepted | src/anybus/std_driver/APLINK/aplink.c:1364-1373 | the same for the four attribute answers |
| ConfigBytes.RecordedIsMarked | src/anybus/std_driver/APLINK/aplink.c:1895-1928 | a map's status is 1, with the answer's offset, if its answer accepts it; otherwise both are 0; nothing else of it changes |
| ConfigBytes.MapAskedFor | src/anybus/std_driver/APLINK/aplink.c:1826-1842 | the twelve bytes of a map request, words low byte first |
| ConfigBytes.LengthInBytes | src/anybus/std_driver/APLINK/aplink.c:1848-1910 | the length is the sum over the accepted maps of elements times bytes an element, cut to 16 bits |
| Configuration.BadAttribute | src/anybus/std_driver/APLINK/aplink.c:1392-1412 | a bad attribute answer ends the configuration before any map |
| Configuration.ReadsDone | src/anybus/std_driver/APLINK/aplink.c:1804-2015 | the read maps from any number on |
| Configuration.WritesDone | src/anybus/std_driver/APLINK/aplink.c:2018-2200 | the write maps from any number on |
| Configuration.StatusIsAcceptance | src/anybus/std_driver/APLINK/aplink.c:1888-1928 | the status is 1 exactly for the maps accepted by their own answers (`ConfigBytes.MapAccepted` says which those are) |
| Configuration.AcceptedSizeIsSum | src/anybus/std_driver/APLINK/aplink.c:1848-1910 | the lengths are the sums of the accepted sizes, cut to 16 bits |
| Configuration.SizeTablesAgree | src/anybus/std_driver/APLINK/aplink.c:2416-2465 | the data type sizes agree with the table of appd.c |

## Left out

- The parallel link machine (`APDR/apdr_par.c`) and the parallel interrupt service: not compiled in this
  configuration (`SYS/INCLUDE/sys_adpt.h:133-134`); its idle state arbitrates like the serial one.
- Driver.Driver.TryAccept: rejects a telegram of a length other than the one the line was told to expect, where the
  source tests that many bytes of the reception buffer, whatever arrived.
- Recovery.StuckStays: rests on that rejection, as does the only-if half of `Recovery.EverythingCanArrive`.
- Driver.Driver.constructor: starts where setup ends; the states reset, setup and shutdown, and with them a second
  initialisation, are not modelled.
- Startup.DataCanFlow: speaks of runs in which no acknowledgement of a remap command waits or is on its way; what such
  an acknowledgement does to the sizes is said in `RemapAck`.
- Service.CommandCanArrive: speaks of runs out of the configuration; while it lasts, the module is taken to send no
  command.
- Configuration.ConfigMachine.RunCfg: leaves out the buffers and the credit counter, which `ConfigSystem` adds.
- Remap.PdMap.Remap: promises nothing about the table once the growing shift has left it; the model stops at the first
  access outside.
- Reporting of received process data and driver errors to the application (`APLINK_PutProcessData`, the `ABCC_Cbf*`
  callbacks): no state of the protocol depends on it.
- The pools of message buffers inside the driver: counted, not individual; `MessageQueues.AllocateMsgBuffer` shows that
  counting is enough. The driver's ring queues are sequences there; `MessageQueues` shows that they are.
- The fields of the driver's two structures: each structure is one value that the methods update field by field, where
  the source writes into a global structure.
- Remap answers that announce more than 256 bytes: `Remap.PdMap.Remap` never produces one, and the driver is modelled for
  the answers it does produce.
- Timer and queue ids one past a full table, which the functions accept: such an id reaches memory outside the table.
- The table of a process data map is taken to hold at least 32 entries, the limit the command checks; the shipped tables
  hold 5.
- `kfifo_alloc`, `kfifo_free` and the heap: a ring is made from storage whose size is a power of two.
- Weak memory ordering: the interleavings of the ring's two sides are sequentially consistent.
- `clocksource_hz2mult`, the remaining attribute handlers and dispatch tables of the application objects, network,
  file system and peripheral code: no algorithm, or none that shares state with the modelled parts.

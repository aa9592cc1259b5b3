# RF over White Rabbit: a model of the gateware

The design distributes an RF clock over a White Rabbit network. A master measures its phase error, a PI
controller turns it into a tuning word, and the tuning word is packed with a timestamp and streamed in
Ethernet frames. A slave unpacks the records. On both sides a CIC interpolator smooths the tuning word, and a
direct digital synthesizer turns it into samples of a sine.

This project models that gateware, register by register, as clocked state machines, and proves what it is built
for. Every machine appears twice:

- as a function `Next` from one state to the next (`Run` over a whole input history), about which the lemmas speak;
- as a class whose fields are the registers and whose methods update them in place, one method for a process of
  the source. Its `Clock` is one rising clock edge, and its contract ties the new registers to `Next` and states
  the property that the machine has after any history.

No proof uses automatic induction: the lemmas for which Dafny would choose it carry `{:induction false}`.

Registers are integers with their widths written out (`Bits.Wrap`, `Bits.Fits`, `% 2^n`). Registers that the source
does not reset start at zero, which is what the devices do when they are configured.

| file | what it models |
|---|---|
| `Bits.dfy` | two's-complement registers of a stated width |
| `Cic.dfy`, `TuningPath.dfy` | the 1024x CIC interpolator, the slice of its output and the tune register |
| `PiControl.dfy` | the PI controller with anti-windup |
| `EscapeCode.dfy` | escape inserter and detector |
| `DroppingBuffer.dfy` | the receive buffer with commit and roll-back |
| `TxStreamer.dfy`, `RxStreamer.dfy` | the streamers with inserter, detector and buffer built in |
| `CutFrames.dfy` | which receptions the receiver survives, and how it comes to a standstill |
| `FrameFilter.dfy` | which frames the receiver listens to, and what of them is delivered |
| `FabricFrames.dfy` | a frame as the fabric sees it, from its start to its end |
| `FrameEnding.dfy` | which frames the transmitter brings to their end, and what they take |
| `FrameRoundTrip.dfy` | a frame from one FIFO to the other buffer |
| `RecordPath.dfy`, `EndToEnd.dfy` | records in words and back; records in, records out |
| `Timestamps.dfy` | timestamp adder and comparison |
| `Dds.dfy` | phase accumulator, sine pipeline, dither generator |
| `SpiMaster.dfy` | the SPI master |
| `Fir.dfy` | the FIR filter of the host software |

## What the proofs found

- `FrameEnds`, `TransmitterHangsWhenTaiIsEscape`: the transmitting streamer hangs in CRC_WORD when the last chunk of
  a block it takes is 0xCAFE. The last chunk of a record repeats bits 31 to 16 of the TAI seconds, which are left over
  in tx_data. `RecordHangsTransmitter` says that no run at all, whatever the fabric and the user do, comes back to
  IDLE after it has taken a record from such a period of 65536 seconds; `FrameOfOneRecord` reaches the hang from
  power-up with a single record. `OneRecordArrives` is the other side: from power-up at both ends, any other record is sent,
  carried, received, read and written.
- `CutMisleads`, `ReceptionIsSound`: a frame that is cut in the cycle after a control word has delivered a sub-frame
  makes accept meet drop in the receive buffer, and the pointers are then out of order (`CutCorrupts`). A next frame is
  written over words that were delivered and not yet read, so that its words, with a wrong CRC even, come out as
  delivered ones. A fabric that never cuts a frame there is exactly what the user of the receiver depends on.
- `CutDeafens`, `StandstillIsReachable`: when the cut sub-frame has one word and the user reads it, the buffer is full to
  the fabric and empty to the user for ever; a receiver that has been reset gets there in 23 cycles.
  `LongSubFrameChokes`, `DeliveryFits`: a sub-frame of as many words as the buffer has slots stops the receiver until its
  frame is ended, and never arrives.
- `SafeGains`: the anti-windup works for exactly the positive integral gains. `FlagComesDown` bounds how long a
  saturation can last once the samples are on the other side of the goal.
- `HandshakeAloneLosesData`, `HandshakeLosesExactly`: under the handshake the escape inserter loses a word exactly when
  an escape pair opens while the sink is not ready and a word comes in the cycle after the sink is ready again.
- `DocumentedRangeIsTooWide`: the timestamp adder promises normalised sums for coarse sums up to 3R-1. With a carry
  out of the fractions the limit is 3R-2, which is the range `SumIsNormalised` gives exactly. The only instance, in
  `rtl/dds_rx_path.vhd`, has its fractions tied to zero and a second operand of 16 bits, so it reaches neither the
  carry nor the limit.
- `DitherLives`: channel 0 of the synthesizer is never dithered, as its generator starts at zero.
- `CombSevenIsTooNarrow`: comb 7 does overflow, and `FirstIntegrator` shows that this does no harm. The other combs and
  the output need every bit they have (`CombsNeedTheirWidths`, `OutputNeedsItsWidth`).
- `TransferEndsIff`: an SPI transfer of 32 bits or more never ends, and a start pulse during a transfer delays its next
  tick, so that one that is held high stops it (`HeldStartNeverEnds`).

## Model

| member | source | states |
|---|---|---|
| Bits.ShiftExact | rtl/pi_control.v:63-87 | a logical right shift of a signed register, kept in fewer bits, is the quotient rounded down whenever the quotient fits |
| Cic.MachineIsExact | rtl/cic_1024x.vhd:212-636 | for every input history with any resets and any pattern of en_i, each comb register holds the exact difference of the samples, each integrator the exact smoothed difference, and the output register six moving sums of the held samples |
| Cic.WidthsSuffice | rtl/cic_1024x.vhd:442-623 | with the declared widths the filter equals the same filter with unbounded registers in every register but the one behind comb 7, which differs by a multiple of 2^24; every unbounded integrator fits 24, 33, 42, 51, 60, 69 and 78 bits |
| Cic.SmoothFits | rtl/cic_1024x.vhd:471-623 | the bound behind those widths: every integrator needs ten more bits and every missing difference one less |
| Cic.FirstIntegrator | rtl/cic_1024x.vhd:442-491 | the 24-bit integrator 8 fed with the wrapped comb 7 holds the true sixth difference, in every cycle |
| Cic.CombSevenIsTooNarrow | rtl/cic_1024x.vhd:442-469 | there is an input history after which the register behind comb 7 is not what an unbounded one would hold |
| Cic.CombsNeedTheirWidths | rtl/cic_1024x.vhd:242-438 | for each of combs 1 to 6 there is a history after which its register does not fit one bit less |
| Cic.OutputNeedsItsWidth | rtl/cic_1024x.vhd:610-636 | there is a history after which the output does not fit 77 bits |
| Cic.LaterIntegrator | rtl/cic_1024x.vhd:495-623 | integrators 9 to 14 never wrap: integrating a difference smooths once more, at the declared width |
| Cic.IntegratorStep | rtl/cic_1024x.vhd:471-623 | the identity of the filter: a moving sum of 1024 values grows by a value of the stage before, because a difference at the low rate is a difference over 1024 cycles at the high rate |
| Cic.SmoothIsConvolution | rtl/cic_1024x.vhd:212-636 | each smoothed value is the direct sum of x_k * h(n - 1024k), h being the convolution of boxes of length 1024 |
| Cic.OutputIsConvolution | rtl/cic_1024x.vhd:212-640 | the output register of the filter as declared is the convolution of all samples taken since reset with the seven-fold box, 8200 enabled cycles late |
| Cic.ResidueClassesSumAlike | rtl/cic_1024x.vhd:212-640 | every residue class of the impulse response modulo 1024 sums to 2^60, and the response vanishes outside 0..7161 |
| Cic.BoxSupport | rtl/cic_1024x.vhd:212-640 | the j-fold box vanishes outside its support |
| Cic.SmoothRange | rtl/cic_1024x.vhd:475-640 | a smoothed value stays between the extremes of exactly the samples its window covers, times the gain of its stages |
| Cic.OutputRange | rtl/cic_1024x.vhd:475-640 | the output stays between the extremes of the samples taken and zero, times 2^60 |
| Cic.OutputSettles | rtl/cic_1024x.vhd:475-640 | after sixteen equal samples c the output is c * 2^60 in every cycle |
| Cic.CicInterpolator.ClockCombs | rtl/cic_1024x.vhd:245-469 | sections 1 to 7 updated in place as the simultaneous difference of their inputs and delays |
| Cic.CicInterpolator.ClockIntegrators | rtl/cic_1024x.vhd:471-623 | sections 8 to 14 updated in place, each from its predecessor before the edge |
| Cic.CicInterpolator.Clock | rtl/cic_1024x.vhd:212-640 | one clock edge of the registers; afterwards the output is the convolution of the history |
| TuningPath.NeverOvershoots | rtl/dds_core.vhd:474 | for every history the 18-bit slice of the filter output stays between zero and the extremes of the samples |
| TuningPath.SettlesExactly | rtl/dds_core.vhd:474 | once the last sixteen samples were c, the slice is exactly c: the gain is one |
| TuningPath.MultiplyAdds | rtl/dds_core.vhd:288-296 | f_signed_multiply followed by the 43-bit addition adds the signed product modulo 2^43 |
| TuningPath.TuneFollows | rtl/dds_core.vhd:502-525 | whatever the filter does, the tune word loaded three cycles after an output y is bias + gain * floor(y / 2^60), modulo 2^43 |
| TuningPath.ResetForgets | rtl/dds_core.vhd:502-512 | nothing from before a reset is loaded after it |
| TuningPath.SettledTune | rtl/dds_core.vhd:502-525 | three cycles after a settled output, the tune word is bias + gain * c modulo 2^43 |
| TuningPath.SettledFrequency | rtl/dds_core.vhd:395-525 | filter, tune registers and synthesizer clocked together: as long as the last sixteen samples are c, the tune word in force is, from the fifth cycle on, bias + gain * c, and the phase accumulator advances by exactly that in every cycle, modulo 2^43 |
| TuningPath.TuneGenerator.Clock | rtl/dds_core.vhd:502-525 | one clock edge of p_gen_tune; with a settled filter the tune register gets bias + gain * c |
| PiControl.NeverWindsUp | rtl/pi_control.v:33-134 | for every ki >= 1, every kp and every history, the controller with its declared widths equals the one with unbounded registers, and acc stays in 40 bits, acc0 in 34, the terms and their sum in 24 |
| PiControl.FlagsStep | rtl/pi_control.v:37-54 | the invariant of the integrator: beyond the knee it can only move by the samples still in the pipeline, however late the flags are |
| PiControl.PipelineStep | rtl/pi_control.v:59-101 | what every pipeline register still says about the integrator that has moved on |
| PiControl.InRangeStep | rtl/pi_control.v:57-134 | the widths are kept by every edge |
| PiControl.StepIsExact | rtl/pi_control.v:57-134 | the logical shifts of signed values and the narrow registers lose nothing in one edge |
| PiControl.SafeGains | rtl/pi_control.v:33-134 | no register ever overflows, for all histories and all kp, if and only if ki >= 1 |
| PiControl.WindsUp | rtl/pi_control.v:44-49 | with ki <= 0 a full-scale input makes the integrator grow without limit |
| PiControl.OutputAfterFiveCycles | rtl/pi_control.v:57-134 | exactly the valid samples that meet no reset come out five cycles later, as floor(floor(acc/64)*ki/65536) + floor((d-32768)*kp/65536) saturated to +-32767, and the two flags tell whether it had to be |
| PiControl.OutputObeysControlLaw | rtl/pi_control.v:57-134 | the outputs after any history, with any resets, are those of the control law over ideal integers |
| PiControl.IntegratorMoves | rtl/pi_control.v:33-54 | a reset clears the integrator and the flags; a valid sample is added in full, less 32768, unless a flag is up that it would keep up: then it is left out |
| PiControl.IntegratorAdds | rtl/pi_control.v:33-54 | over any reset-free stretch with no flag up the integrator grows by the sum of d - 32768 over the valid samples, and while a flag stays up by the sum over those on the other side of the goal |
| PiControl.FlagComesDown | rtl/pi_control.v:37-134 | nothing latches up: for ki >= 1 and any kp, after any history, a raised flag is down again at the latest five cycles after valid samples on the other side of the goal have pulled by 64*floor(3*2^30/ki) + 163903 |
| PiControl.PiController.ClockOutput | rtl/pi_control.v:105-134 | saturation and its two flags |
| PiControl.PiController.ClockIntegrator | rtl/pi_control.v:33-54 | d - 32768 is added for a valid sample, but under a flag only when it goes the other way |
| PiControl.PiController.ClockTerms | rtl/pi_control.v:59-101 | shift, products and sum, each from the registers before the edge |
| PiControl.PiController.Clock | rtl/pi_control.v:33-134 | one clock edge; for ki >= 1 the outputs obey the control law after any history, and the integrator moves as IntegratorMoves says |
| EscapeCode.RoundTrip | rtl/streamers/gc_escape_detector.vhd:36-65 | decoding the code of a symbol sequence returns it if and only if no escaped word is zero; data equal to the escape code is no exception |
| EscapeCode.InserterEncodesAccepted | rtl/streamers/gc_escape_inserter.vhd:97-139 | with any back-pressure and idle cycles, what was emitted and what is owed is the code of what was accepted |
| EscapeCode.HandshakeSuffices | rtl/streamers/gc_escape_inserter.vhd:99-110 | nothing is ignored when the source obeys d_req_o and the sink is ready in each cycle in which a pair opens |
| EscapeCode.HandshakeLosesExactly | rtl/streamers/gc_escape_inserter.vhd:99-137 | for a source that obeys d_req_o and any sink, the inserter emits the code of everything presented if and only if no word comes in the cycle after a sink that was not ready as a pair opened has become ready again |
| EscapeCode.HandshakeAloneLosesData | rtl/streamers/gc_escape_inserter.vhd:103-137 | a run that obeys the handshake and still loses a word |
| EscapeCode.DetectorDecodes | rtl/streamers/gc_escape_detector.vhd:36-65 | over any gaps the clocked detector produces the decoding of its words |
| EscapeCode.LinkRoundTrip | rtl/streamers/gc_escape_detector.vhd:36-65 | unless a word comes early in that way, inserter, link with any gaps and detector return the presented symbols |
| EscapeCode.CodeIsNotShorter | rtl/streamers/gc_escape_inserter.vhd:103-110 | every symbol takes at least one word |
| EscapeCode.EscapeInserter.Clock | rtl/streamers/gc_escape_inserter.vhd:97-139 | outputs and clock edge of the inserter; the history of its words is the code of what it accepted |
| EscapeCode.EscapeInserter.ClockFsm | rtl/streamers/gc_escape_inserter.vhd:112-139 | p_fsm updated in place |
| EscapeCode.EscapeDetector.Clock | rtl/streamers/gc_escape_detector.vhd:36-65 | outputs and clock edge of the detector |
| DroppingBuffer.RefinesQueues | rtl/streamers/dropping_buffer.vhd:43-104 | in every cycle in which accept and drop do not collide, the ring behaves as a committed and a tentative queue; a collision leaves its pointers out of order |
| DroppingBuffer.SlotsUnchanged | rtl/streamers/dropping_buffer.vhd:97-104 | the unguarded memory write never alters a live slot |
| DroppingBuffer.FullMeansNoRoom | rtl/streamers/dropping_buffer.vhd:69 | full means exactly that both queues together fill all slots but one |
| DroppingBuffer.ReadsExactly | rtl/streamers/dropping_buffer.vhd:61-95 | a word comes out exactly when it is asked for and there has been something to read since the cycle before, and it is the oldest one |
| DroppingBuffer.StaysWritable | rtl/streamers/dropping_buffer.vhd:55-69 | only a write can make the buffer full |
| DroppingBuffer.RingBuffer.Clock | rtl/streamers/dropping_buffer.vhd:43-104 | one clock edge on pointers and memory in place, with the effect on both queues |
| RxStreamer.SimulationStep | rtl/streamers/xrx_streamer.vhd:303-511 | one clock edge keeps the receiver, with its delayed last word and delayed accept, together with an atomic parser without delays |
| RxStreamer.ReceptionRefinesParser | rtl/streamers/xrx_streamer.vhd:303-511 | the same over any reception |
| RxStreamer.AllOrNothing | rtl/streamers/xrx_streamer.vhd:410-511 | whatever arrives, wherever else it is cut, with any CRC verdicts and any reading, the user gets, in order, exactly the words of the sub-frames closed with a matching CRC; no write meets a full buffer |
| RxStreamer.ChunkStep | rtl/streamers/xrx_streamer.vhd:462-483 | assembling a chunk: a complete word waits until the chunk before the end of the next one, so that a control word can still flag it as last |
| RxStreamer.EscapeStep | rtl/streamers/xrx_streamer.vhd:422-451 | closing a sub-frame: the waiting word leaves with the last-flag |
| RxStreamer.QueuesStep | rtl/streamers/xrx_streamer.vhd:506-511 | the effect of one edge on what the reader will get, with the commit one register away |
| RxStreamer.WritesFit | rtl/streamers/xrx_streamer.vhd:410-490 | a fabric that obeys the buffer's request never causes a write to a full buffer |
| RxStreamer.CutCollides | rtl/streamers/xrx_streamer.vhd:413-511 | accept meets drop if and only if the frame is cut in the cycle after a control word delivered a sub-frame |
| RxStreamer.ShortReception | rtl/streamers/xrx_streamer.vhd:249-301 | a reception shorter than the buffer never makes the receiver ask for a pause |
| RxStreamer.DeliveredAreWhole | rtl/streamers/xrx_streamer.vhd:462-483 | every delivered word is complete |
| RxStreamer.ComparesHeader | rtl/streamers/xrx_streamer.vhd:333-361 | the comparisons in HEADER, word by word, over the configured addresses and type |
| RxStreamer.Receiver.ClockHeader | rtl/streamers/xrx_streamer.vhd:328-372 | p_fsm in HEADER: the ninth word ends it, and any other word that fails its comparison gives the frame up |
| RxStreamer.Receiver.ClockSubframeHeader | rtl/streamers/xrx_streamer.vhd:374-406 | p_fsm in SUBFRAME_HEADER |
| RxStreamer.Receiver.ClockChunk | rtl/streamers/xrx_streamer.vhd:453-483 | p_fsm in PAYLOAD with a data chunk: pack_data updated in place |
| RxStreamer.Receiver.ClockControlWord | rtl/streamers/xrx_streamer.vhd:422-451 | p_fsm in PAYLOAD with a control word |
| RxStreamer.Receiver.ClockPayload | rtl/streamers/xrx_streamer.vhd:410-493 | p_fsm in PAYLOAD with a word, fifo_sync cleared behind a write |
| RxStreamer.Receiver.ClockBuffer | rtl/streamers/xrx_streamer.vhd:272-290 | the buffer and its request, from the registers before the edge |
| RxStreamer.Receiver.ClockRegisters | rtl/streamers/xrx_streamer.vhd:249-511 | detector, buffer and FSM see the registers as they were before the edge |
| RxStreamer.Receiver.Clock | rtl/streamers/xrx_streamer.vhd:249-511 | one clock edge of the whole receiver; after any trusted history the user has, or can get, what the atomic parser delivered |
| FrameFilter.ForeignFrame | rtl/streamers/xrx_streamer.vhd:312-372 | whatever comes after the start of a frame, and wherever it ends: nothing of it is delivered when its header is not complete or fails one of its comparisons |
| FrameFilter.WrongTypeOrSource | rtl/streamers/xrx_streamer.vhd:345-361 | so of a frame whose seventh word is not the configured type, or whose words 4 to 6 are not the configured source while it is filtered |
| FrameFilter.HeaderDecides | rtl/streamers/xrx_streamer.vhd:328-372 | behind nine header words the receiver listens if and only if the first seven pass their comparisons, and is back in IDLE otherwise |
| FrameFilter.ForeignFrameIsIgnored | rtl/streamers/xrx_streamer.vhd:249-511 | over any trusted reception, the user of the receiver gets nothing of such a frame |
| FrameFilter.NothingAfterEnd | rtl/streamers/xrx_streamer.vhd:312-331 | wherever the end of a frame comes, nothing is delivered with it, nor after it until the next start |
| FrameFilter.DeliversExactly | rtl/streamers/xrx_streamer.vhd:410-451 | a cycle delivers all words of the open sub-frame, flagged, when an escaped control word that is 0x0BAD or at least 0x8000 closes it with a matching CRC, and nothing otherwise |
| CutFrames.ReceptionIsSound | rtl/streamers/xrx_streamer.vhd:303-511 | with a fabric that obeys the request, what the user reads during a reception and however it goes on after any of its cycles is always a beginning of what was delivered, with no wrong, missing, repeated or misplaced word, if and only if none of its cycles cuts a frame in the cycle after a control word delivered a sub-frame |
| CutFrames.CutMisleads | rtl/streamers/xrx_streamer.vhd:413-511 | after any trusted reception and such a cut, in every configuration, a next frame with a wrong CRC makes the user read a word that was never delivered in place of one that was |
| CutFrames.CutCorrupts | rtl/streamers/xrx_streamer.vhd:413-511 | after any trusted reception, that cut is exactly what leaves the pointers of the buffer out of order two edges later |
| CutFrames.CutDeafens | rtl/streamers/xrx_streamer.vhd:495-511 | when the cut sub-frame is the one word that was not yet read, a user who reads on gets it, and from then on, whatever fabric and user do, the receiver never asks for another word |
| CutFrames.ChokedForEver | rtl/streamers/dropping_buffer.vhd:55-95 | a buffer that is full to the fabric and empty to the user, with nothing under way, stays so for any reading, any starts of frames and any ends of frames outside a sub-frame |
| CutFrames.CutIsReachable | rtl/streamers/xrx_streamer.vhd:328-511 | from reset, an accepted header, a sub-frame of one word, a second control word and then the cut |
| CutFrames.StandstillIsReachable | rtl/streamers/xrx_streamer.vhd:303-511 | a receiver that has been reset, has delivered one word and will never ask for another one |
| CutFrames.OpenSubFrameFits | rtl/streamers/xrx_streamer.vhd:410-490 | the open sub-frame never has more complete words than the buffer has slots |
| CutFrames.DeliveryFits | rtl/streamers/xrx_streamer.vhd:410-490 | in any trusted reception no cycle delivers as many words as the buffer has slots: a sub-frame of that length never arrives |
| CutFrames.LongSubFrameChokes | rtl/streamers/xrx_streamer.vhd:410-490 | a sub-frame that has that many stops the receiver until the end of its frame, which discards it: no word is asked for, delivered or read |
| TxStreamer.FrameStep | rtl/streamers/xtx_streamer.vhd:389-546 | every edge of a frame keeps: wire and inserter hold the code of header and symbols, the symbols are sub-frames with their check words, the blocks are what left the FIFO |
| TxStreamer.ShapeStep | rtl/streamers/xtx_streamer.vhd:426-545 | the symbols so far are whole sub-frames, an open one or padding |
| TxStreamer.WireStep | rtl/streamers/xtx_streamer.vhd:256-270 | header unescaped, then the escape code, with nothing lost between FSM and inserter |
| TxStreamer.CrcStep | rtl/streamers/xtx_streamer.vhd:218-236 | the check word covers the sub-frame header and all its chunks, also the one still presented |
| TxStreamer.FifoStep | rtl/streamers/xtx_streamer.vhd:482-503 | no word is lost, doubled or reordered between FIFO and blocks, and the flags end the blocks |
| TxStreamer.FrameIsWellFormed | rtl/streamers/xtx_streamer.vhd:389-546 | a completed frame is the header, the code of its sub-frames and at least one end-of-frame word; its blocks are what was taken from the FIFO |
| TxStreamer.FrameIsAddressed | rtl/streamers/xtx_streamer.vhd:426-464 | a completed frame begins with nine header words, the first seven of which are the two configured addresses and the type |
| TxStreamer.StuckForEver | rtl/streamers/xtx_streamer.vhd:505-520 | presenting the escape code in CRC_WORD, the streamer never leaves that state, whatever the fabric and the user do |
| TxStreamer.FrameIsLongEnough | rtl/streamers/xtx_streamer.vhd:522-557 | every completed frame has more than 30 words: more than the minimum frame of section 4.4.2 of IEEE 802.3 without its check sequence |
| TxStreamer.LengthStep | rtl/streamers/xtx_streamer.vhd:548-557 | the word counter follows the words handed to the inserter |
| TxStreamer.BlocksAreFilled | rtl/streamers/xtx_streamer.vhd:482-520 | a completed frame has no empty block |
| TxStreamer.FrameCountIsExact | rtl/streamers/xtx_streamer.vhd:325-341 | p_frame_counter counts the blocks in the FIFO modulo 64, with any pushes and any reads |
| TxStreamer.DryFifoCloses | rtl/streamers/xtx_streamer.vhd:482-503 | in PAYLOAD an empty FIFO sends no chunk and closes the sub-frame, and a stall moves nothing |
| TxStreamer.RestStep | rtl/streamers/xtx_streamer.vhd:407-424 | from rest the streamer stays at rest or starts a frame with nothing left over |
| TxStreamer.FrameLeavesRest | rtl/streamers/xtx_streamer.vhd:537-543 | the end of a frame leaves the streamer at rest |
| TxStreamer.SteadyStep | rtl/streamers/xtx_streamer.vhd:389-557 | so, over any run, frame after frame is sent well-formed and long enough |
| TxStreamer.Transmitter.ClockPayload | rtl/streamers/xtx_streamer.vhd:482-503 | p_fsm in PAYLOAD: chunking of the word at the head of the FIFO |
| TxStreamer.Transmitter.ClockCrcWord | rtl/streamers/xtx_streamer.vhd:505-520 | p_fsm in CRC_WORD |
| TxStreamer.Transmitter.ClockPadding | rtl/streamers/xtx_streamer.vhd:522-535 | p_fsm in PADDING |
| TxStreamer.Transmitter.ClockEthHeader | rtl/streamers/xtx_streamer.vhd:426-464 | p_fsm in ETH_HEADER |
| TxStreamer.Transmitter.ClockSubframeHeader | rtl/streamers/xtx_streamer.vhd:466-480 | p_fsm in SUBFRAME_HEADER |
| TxStreamer.Transmitter.ClockFrameCounter | rtl/streamers/xtx_streamer.vhd:325-341 | p_frame_counter and the CRC generator |
| TxStreamer.Transmitter.ClockFifo | rtl/streamers/xtx_streamer.vhd:548-566 | p_count_words, the FIFO and its read |
| TxStreamer.Transmitter.ClockProcesses | rtl/streamers/xtx_streamer.vhd:218-566 | all processes see the registers as they were before the edge |
| TxStreamer.Transmitter.Clock | rtl/streamers/xtx_streamer.vhd:218-566 | one clock edge of the whole transmitter; frame after frame is sent as it should be, sof is high in SOF and eof in the first cycle back in IDLE, and the frame counter is exact |
| FabricFrames.FrameMarks | rtl/streamers/xtx_streamer.vhd:407-424 | of a frame, sof is high in the first state only, and eof in the last one only, which is the one back in IDLE |
| FabricFrames.FrameOnFabric | rtl/streamers/xtx_streamer.vhd:389-546 | on the fabric a completed frame is its start, its words and its end, in this order and once each |
| FabricFrames.FrameEndsAtRest | rtl/streamers/xtx_streamer.vhd:537-542 | a completed frame leaves the transmitter at rest |
| FabricFrames.RestIsSilent | rtl/streamers/xtx_streamer.vhd:407-420 | at rest no word leaves the inserter, eof goes low, and a frame starts exactly when it is asked for and the fabric is ready |
| FabricFrames.SilentAfterFrame | rtl/streamers/xtx_streamer.vhd:407-420 | between two frames the fabric sees nothing |
| FabricFrames.FrameIsTagged | rtl/streamers/xtx_streamer.vhd:450-457 | header words 8 and 9 are the two halves of the time tag, each as it is when it is handed over, the upper one first |
| FabricFrames.SubFramesCountUp | rtl/streamers/xtx_streamer.vhd:466-480 | the control words of the sub-frames are 0x8000 plus numbers that count up modulo 2^15, from frame to frame |
| FabricFrames.PaddingIsTight | rtl/streamers/xtx_streamer.vhd:522-535 | a frame has more than 30 words, and with more than one end-of-frame word it has no more than 32 |
| FrameEnding.TrapIsForEver | rtl/streamers/xtx_streamer.vhd:482-520 | in any run at all, once the last word of a block with 0xCAFE in its last chunk has been taken, the streamer stays in CRC_WORD |
| FrameEnding.PotentialStep | rtl/streamers/xtx_streamer.vhd:389-557 | every cycle of a frame that is not stuck makes progress, whatever is pushed meanwhile |
| FrameEnding.FrameProgresses | rtl/streamers/xtx_streamer.vhd:389-557 | a frame that neither ends nor hangs can spend its cycles on nothing but taking words |
| FrameEnding.FedFrameEnds | rtl/streamers/xtx_streamer.vhd:389-546 | with words pushed while the frame is open, a FIFO that does not run dry inside a block and blocks of limited length, the frame ends if and only if no block with 0xCAFE in its last chunk is taken |
| FrameEnding.FrameEnds | rtl/streamers/xtx_streamer.vhd:389-546 | an undisturbed frame of whole blocks, however many are waiting, ends if and only if none of the blocks it takes has 0xCAFE in its last chunk |
| FrameEnding.EndedFrame | rtl/streamers/xtx_streamer.vhd:482-520 | an undisturbed frame that has ended consists of exactly the whole blocks it had to take; the other words are still in the FIFO |
| FrameEnding.SpanOfOneFrame | rtl/streamers/xtx_streamer.vhd:505-520 | whole blocks of no more words than the maximum of a frame are all taken |
| FrameEnding.CleanFrameRuns | rtl/streamers/xtx_streamer.vhd:389-546 | an undisturbed frame of clean blocks is a completed run that never runs dry, and what it has sent are exactly the words it had to take |
| FrameEnding.FrameFromPowerUp | rtl/streamers/xtx_streamer.vhd:389-424 | from power-up, a frame can start with any words in the FIFO |
| FrameRoundTrip.FeedFrame | rtl/streamers/xrx_streamer.vhd:374-498 | the parser, fed the symbols of a frame, delivers the words of all its blocks with their flags |
| FrameRoundTrip.ParseFeeds | rtl/streamers/xrx_streamer.vhd:303-511 | over any gaps the clocked parser is fed the symbols its words stand for |
| FrameRoundTrip.ParseHeader | rtl/streamers/xrx_streamer.vhd:328-372 | nine accepted header words, with any gaps, take the parser to the first sub-frame header |
| FrameRoundTrip.CarriedFrame | rtl/streamers/xrx_streamer.vhd:312-331 | a link that carries the signals of a frame, one at a time, brings a start, inputs with its words in order and any gaps, and an end |
| FrameRoundTrip.FrameRoundTrip | rtl/streamers/xtx_streamer.vhd:389-546 | a frame sent by the transmitter and carried with any gaps, from its start to its end, to a receiver that is set up for it and has any history, makes it deliver exactly the words of the frame's blocks, first and last flagged, after all earlier ones, and leaves it ready for the next frame |
| FrameRoundTrip.CleanFrameArrives | rtl/streamers/xtx_streamer.vhd:389-546 | from conditions on the start alone: whole clean blocks in the FIFO, left alone, are sent and delivered, all of them when they fit one frame |
| RecordPath.PackedBlock | rtl/dds_tx_path.vhd:141-171 | the slices of tx_data unpack to the record whatever stale bits they meet; the last chunk of the padding word repeats bits 31 to 16 of the TAI |
| RecordPath.RecordsAreSentAsBlocks | rtl/dds_tx_path.vhd:116-182 | for any stalls, any number of new samples and snapshots that change at any time, the words offered to the streamer are the blocks of the records as they were sampled field by field, in order, and the beginning of one more |
| RecordPath.RecordsAreSnapshots | rtl/dds_tx_path.vhd:136-178 | when snapshot and clock id keep still during each transmission, these records are the snapshots |
| RecordPath.WordsAreOwed | rtl/dds_tx_path.vhd:116-182 | with the master on or off, a word is offered in exactly the cycles behind those in which one of the four of a new sample was owed and asked for, the last one flagged; switching the master off forgets the record |
| RecordPath.BlocksAreRead | rtl/dds_rx_path.vhd:165-211 | for any gaps, any clock ids and any filling of the FIFO, the records written are, in order and once each, those of the blocks that carry the own clock id and find room when their tune word comes |
| RecordPath.MatchingAreRead | rtl/dds_rx_path.vhd:165-211 | with one clock id and room in the FIFO, these are all records with that id |
| RecordPath.SlaveOffHolds | rtl/dds_rx_path.vhd:165-176 | while the slave is off the unpacker keeps everything as it is |
| RecordPath.FifoKeepsFields | rtl/dds_rx_path.vhd:228-236 | the slices of the 128-bit FIFO word are the fields that were written, whatever the unassigned bits are |
| RecordPath.Packer.ClockFsm | rtl/dds_tx_path.vhd:116-182 | p_tx_fsm updated in place |
| RecordPath.Packer.Clock | rtl/dds_tx_path.vhd:116-182 | one clock edge and the word it offers; the words so far are blocks of the records taken |
| RecordPath.Unpacker.ClockFsm | rtl/dds_rx_path.vhd:165-211 | p_rx_fsm updated in place |
| RecordPath.Unpacker.Clock | rtl/dds_rx_path.vhd:165-226 | one clock edge and the record it writes; of a stream of blocks, exactly the records with the own clock id that found room have been written |
| EndToEnd.FlagsDetermineBlocks | rtl/streamers/xtx_streamer.vhd:482-503 | the last-flags in the FIFO determine the blocks |
| EndToEnd.CutAtBlock | rtl/streamers/xtx_streamer.vhd:482-503 | a stream of blocks can only be cut behind a last-flag at the end of a block |
| EndToEnd.FrameOfRecords | rtl/streamers/xtx_streamer.vhd:389-546 | a frame, also one that is filled while it is open, consists of the next blocks of the packer, and the FIFO is left with the backlog behind them |
| EndToEnd.DeliveredWords | rtl/dds_rx_path.vhd:165-211 | the delivered words of a frame are its blocks, word by word |
| EndToEnd.CleanMeansTai | rtl/dds_tx_path.vhd:141-181 | no block ends in the escape code if and only if bits 31 to 16 of no TAI are 0xCAFE |
| EndToEnd.TransmitterHangsWhenTaiIsEscape | rtl/dds_tx_path.vhd:141-181 | an undisturbed frame of records, however many are waiting, leaves the transmitter if and only if none of the records it takes has 0xCAFE in bits 31 to 16 of the TAI seconds |
| EndToEnd.RecordHangsTransmitter | rtl/streamers/xtx_streamer.vhd:482-520 | in any run at all, the transmitter never comes back to IDLE once it has taken such a record |
| EndToEnd.FrameOfOneRecord | rtl/dds_tx_path.vhd:116-182 | from power-up and with a ready fabric, a frame of one record, whatever it is, ends if and only if these bits are not 0xCAFE |
| EndToEnd.OneRecordHangsAnotherDoesNot | rtl/dds_tx_path.vhd:116-182 | both cases occur |
| EndToEnd.RecordsArrive | rtl/dds_rx_path.vhd:165-226 | frame by frame: of the records packed, framed, carried, checked, buffered and unpacked, exactly those from the j-th to the k-th that carry the receiver's clock id and find room in its FIFO as their tune words come are written, in order, and the transmit FIFO is left with the words from the k-th on |
| EndToEnd.MatchingArrive | rtl/dds_rx_path.vhd:165-226 | with one clock id throughout and room in the FIFO these are all records with that id |
| EndToEnd.CleanRecordsArrive | rtl/dds_rx_path.vhd:165-226 | the same from conditions on the start alone: an undisturbed frame of records none of which has 0xCAFE in these bits is sent, received and unpacked, and k - j is the number of records the frame had to take |
| EndToEnd.OneRecordArrives | rtl/dds_rx_path.vhd:165-226 | the hypotheses hold together: from power-up on both sides, for every record without 0xCAFE in these bits and every receiver that is set up for the transmitter's frames, the record is sent, carried with honest CRC verdicts, received without a pause, read and written |
| Timestamps.SumFields | rtl/timestamp_adder.vhd:87-210 | the fields of the sum: seconds moved, carry and fraction |
| Timestamps.SumIsNormalised | rtl/timestamp_adder.vhd:13-29 | the sum is normalised if and only if the coarse sum with its carry is in -R..3R-1 |
| Timestamps.SumKeepsTotal | rtl/timestamp_adder.vhd:87-210 | the sum always stands for the time a + b, up to whole wraps of the TAI field |
| Timestamps.AdderPipeline | rtl/timestamp_adder.vhd:87-216 | four cycles after it was accepted, and only then, a pair of stamps comes out as its sum, and clipping loses nothing of a normalised one |
| Timestamps.SumIsHeld | rtl/timestamp_adder.vhd:108-210 | while enable_i is low the sum of the last pair accepted stays at the output, not marked as valid |
| Timestamps.DocumentedRangeIsTooWide | rtl/timestamp_adder.vhd:13-29 | operands within the documented range whose sum is not normalised |
| Timestamps.TimestampAdder.ClockStages | rtl/timestamp_adder.vhd:87-210 | the four stages updated in place, the last one first |
| Timestamps.TimestampAdder.Clock | rtl/timestamp_adder.vhd:87-216 | one clock edge; the outputs belong to the operands of four edges ago |
| Timestamps.CompareOrdersTime | rtl/timestamp_compare.vhd:51-101 | two cycles later exactly one of the three flags is up, the one that orders tai*R + cycles |
| Timestamps.TimestampComparator.Clock | rtl/timestamp_compare.vhd:51-101 | one clock edge; the flags order the operands of the edge before |
| Dds.PhaseIsContinuous | rtl/dds_quad_channel.v:50-74 | however the tune word changes, between resets and loads the accumulator grows by the sum of all tune words in force, modulo 2^43 |
| Dds.TuneInForce | rtl/dds_quad_channel.v:50-56 | the tune word in force is the last one loaded, or zero since the last reset |
| Dds.AfterLoad | rtl/dds_quad_channel.v:50-72 | what a reset and a load of the phase leave behind, and that they and idle cycles leave the four phases alone |
| Dds.PhasesFollow | rtl/dds_quad_channel.v:59-70 | whatever tune words are loaded meanwhile, the four phases of cycle n+2 are the accumulator of cycle n and its offsets by u/4, u/2 and u/4 + u/2, u being the tune word in force in cycle n+1 |
| Dds.HeldPhases | rtl/dds_quad_channel.v:58-70 | with a held tune word the four phases of cycle n+2 are offsets from the exact accumulator of cycle n |
| Dds.PhasesInterleave | rtl/dds_quad_channel.v:58-70 | each of the four phases lags one accumulator stepping four times per cycle by less than two counts, by nothing when four divides the tune word, and the lag never accumulates |
| Dds.QuadChannel.Clock | rtl/dds_quad_channel.v:50-74 | one clock edge; continuous phase, and the four phases two cycles behind it, for a held and for a changing tune word |
| Dds.SinePipeline | rtl/dds_stage.v:63-125 | eight cycles after a phase h*2^42 + a*2^32 + f*2^14 + r went in, the output is 8192 + floor((v + 8)/16) for h = 1 and 8192 + floor((-v + 8)/16) for h = 0, where v is sample a plus floor(slope a * f / 2^25) plus the dither bits plus one, without wrap, for any usable table |
| Dds.SineIsRegistered | rtl/dds_stage.v:87-123 | the 18-bit registers and the shifts compute this value without loss |
| Dds.GeneratorShifts | rtl/dds_stage.v:70-79 | the dither generator shifts to the right and adds the tap word D0000001 bit by bit when a one falls out |
| Dds.StageGenerates | rtl/dds_stage.v:70-79 | the generator of the pipeline runs on its own from its initial value |
| Dds.InterpolationFits | rtl/dds_stage.v:88-108 | the interpolation fits its register |
| Dds.SineStage.ClockOutput | rtl/dds_stage.v:112-122 | sum, sign and rounding, the last stage first |
| Dds.SineStage.ClockLookup | rtl/dds_stage.v:97-110 | address, table, fraction delays and interpolation |
| Dds.SineStage.Clock | rtl/dds_stage.v:63-125 | one clock edge; the output is that value for the phase of eight edges ago |
| Dds.DitherLives | rtl/dds_stage.v:70-87 | the dither generator never reaches zero unless it starts there, and then it never dithers |
| SpiMaster.SendingStep | rtl/spi_master.vhd:116-196 | the invariant of a transfer: bits sent, bits sampled, shift registers and counter |
| SpiMaster.TransferCompletes | rtl/spi_master.vhd:96-198 | a transfer of N <= 31 bits is back in IDLE with its (4N+3)-th tick, whatever start pulses come in between, with N active clock edges that showed data_i on MOSI most significant bit first, the N sampled bits in data_o and one cycle of drdy_o |
| SpiMaster.TransferEndsIff | rtl/spi_master.vhd:92-198 | for all start pulses, a transfer ends if and only if the 5-bit counter can reach the number of bits and the pulses leave 4N+3 ticks |
| SpiMaster.TicksLeftStep | rtl/spi_master.vhd:98-196 | every tick brings the end one tick closer, and nothing else does |
| SpiMaster.UndisturbedTransfer | rtl/spi_master.vhd:98-198 | without further start pulses a transfer takes (4N+3)(2^r+1) cycles |
| SpiMaster.HeldStartNeverEnds | rtl/spi_master.vhd:98-110 | a start that is held high stops the transfer it has begun |
| SpiMaster.Master.ClockTransfer | rtl/spi_master.vhd:138-196 | p_main_fsm in a cycle with a tick |
| SpiMaster.Master.Clock | rtl/spi_master.vhd:96-201 | one clock edge; with the last tick of a transfer the word is in the slave and its answer in data_o |
| Fir.FirFilter.Process | software/filters.c:48-70 | after any number of calls the circular buffer gives the sum of coefs[i] * x[t-n+1+i] over the sliding window, zeros before the first input, every index in bounds, truncated towards zero |
| Fir.ImpulseResponse | software/filters.c:52-64 | a single one comes back as the coefficient of its age, newest first, and then no more |
| Fir.ConstantInput | software/filters.c:52-64 | once the window is full of a constant, the sum is the constant times the sum of the coefficients |

## Left out

- FrameRoundTrip.FrameRoundTrip: the transmit fabric never stalls during the frame and the FIFO never runs dry inside a block, because CRC_WORD repeats a word on a stall and a dry FIFO cuts a word; CleanFrameArrives derives the latter, and that the frame ends, for a frame that is left alone. The CRC checker is taken as telling, in this frame, whether the check word is right, and a cycle of the link brings at most one of start, word and end.
- EndToEnd.RecordsArrive: under the hypotheses of FrameRoundTrip for the frame; the unpacker starts at the words of this frame.
- FrameEnding.FedFrameEnds: with a fabric that stalls, no bound on the length of a frame holds, and a FIFO that runs dry inside a block closes the block early.
- RxStreamer.AllOrNothing: no cut behind a delivery; CutFrames.ReceptionIsSound shows that this is exactly the condition, for a fabric that delivers a word only after the buffer asked for one, which is what the fabric sink does.
- RecordPath.RecordsAreSentAsBlocks: the master stays on; switching it off in the middle of a record leaves its first words in the streamer.
- RecordPath.BlocksAreRead: the slave stays on and the stream consists of whole blocks of four words, which is all that the packer sends and the receiver delivers; after a block of one or two words the next record would be put together from two blocks.
- Dds.SinePipeline: dreq_i is high in every cycle, as dds_core wires it, and there is no reset on the way.
- The CRC generator and checker (gc_crc_gen is not part of this model): an arbitrary function on the transmit side, a verdict on the receive side.
- The FIFO cores and the fabric sink and source (not part of this model): a FIFO is a sequence; when it is full, and when a frame may start (flush, threshold, timeout), are inputs.
- The destination filter in HEADER is modelled as it is written, with `nor`, which lets a frame pass when each of the three words differs from the own address or, with broadcasts accepted, is not 0xFFFF; FrameFilter.HeaderDecides states exactly this, whatever filter was intended.
- rx_lost_o and the latency and tag outputs of the receiver, tx_reset_seq_i of the transmitter: they do not influence the data.
- Resets in mid-run, except those of the CIC filter, the PI controller, the phase accumulator, the tune register and the packer: a reset is otherwise the constructor.
- fsm_out.data while it is not valid, which the source leaves undefined, keeps its value; tx_cnt, rx_cnt and the other statistics counters.
- p_take_tags and the pulse synchronizer between the clock domains: snapshots are inputs of the packer.
- p_drive_fsm and p_cic_reset_fsm (rtl/dds_rx_path.vhd:275-348): new_sample_rdy is never driven, the comparison does not wait for the adder, and acc_load_o is always 0, so the intended schedule is not what the code does.
- Overflow of the C int conversion in the FIR filter, and rounding of its doubles: coefficients and accumulator are reals.
- Buffer sizes that are not a power of two: the ring of the model wraps at its length.
- The contents of the sine table, the register bank, pin files, PLL data, clock-domain crossings, vendor primitives and the host software other than the FIR filter: not modelled.

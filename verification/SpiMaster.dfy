// The SPI master (spi_master): clock divider and transfer state machine.  Words are sequences of bits,
// most significant bit first.
module SpiMaster {
  import opened Bits

  type Word = seq<bool>

  datatype Mode = IDLE | TX_CS | TX_DAT1 | TX_SCK1 | TX_DAT2 | TX_SCK2 | TX_CS2 | TX_GAP

  /** g_num_data_bits and g_div_ratio_log2, which selects a bit of the 12-bit divider. */
  datatype Config = Config(bits: nat, ratio: nat)

  predicate Fitting(cfg: Config) {
    cfg.bits >= 1 && cfg.ratio < 12
  }

  datatype Input = Input(start: bool, data: Word, miso: bool)

  datatype State = State(
    divider: nat, mode: Mode, sclk: bool, sreg: Word, rx: Word, counter: nat, mosi: bool, drdy: bool, data: Word)

  predicate Wide(s: State, cfg: Config) {
    |s.sreg| == cfg.bits && |s.rx| == cfg.bits && |s.data| == cfg.bits
  }

  function Tick(s: State, cfg: Config): bool {
    s.divider / Pow2(cfg.ratio) % 2 == 1
  }

  /** p_main_fsm without its resets, in a cycle with a tick. */
  function Ticked(s: State, i: Input, cfg: Config): State
    requires Wide(s, cfg) && Fitting(cfg)
  {
    match s.mode
    case IDLE => s
    case TX_CS => s.(mode := TX_DAT1)
    case TX_DAT1 => s.(mode := TX_SCK1, mosi := s.sreg[0], sreg := s.sreg[1..] + [false])
    case TX_SCK1 => s.(mode := TX_DAT2, sclk := !s.sclk, counter := (s.counter + 1) % 32)
    case TX_DAT2 => s.(mode := TX_SCK2, rx := s.rx[1..] + [i.miso])
    case TX_SCK2 => s.(mode := if s.counter == cfg.bits then TX_CS2 else TX_DAT1, sclk := !s.sclk)
    case TX_CS2 => s.(mode := TX_GAP, data := s.rx, drdy := true)
    case TX_GAP => s.(mode := IDLE, drdy := false)
  }

  predicate InputOk(i: Input, cfg: Config) {
    |i.data| == cfg.bits
  }

  function Next(s: State, i: Input, cfg: Config): (t: State)
    requires Wide(s, cfg) && Fitting(cfg) && InputOk(i, cfg)
    ensures Wide(t, cfg)
  {
    var divider := if i.start || Tick(s, cfg) then 0 else (s.divider + 1) % 4096;
    if s.mode == IDLE then
      var t := s.(divider := divider, sclk := false, counter := 0);
      if i.start then t.(sreg := i.data, mode := TX_CS, mosi := i.data[0]) else t
    else if Tick(s, cfg) then Ticked(s, i, cfg).(divider := divider)
    else if s.mode == TX_GAP then s.(divider := divider, drdy := false)
    else s.(divider := divider)
  }

  ghost predicate InputsOk(ins: seq<Input>, cfg: Config) {
    forall k | 0 <= k < |ins| :: InputOk(ins[k], cfg)
  }

  /** A transfer: start in the first cycle, and no further start. */
  ghost predicate OneStart(ins: seq<Input>) {
    ins != [] && ins[0].start && forall k | 0 < k < |ins| :: !ins[k].start
  }

  ghost function Run(s: State, ins: seq<Input>, n: nat, cfg: Config): (t: State)
    requires Wide(s, cfg) && Fitting(cfg) && InputsOk(ins, cfg) && n <= |ins|
    ensures Wide(t, cfg)
  {
    if n == 0 then s else Next(Run(s, ins, n - 1, cfg), ins[n - 1], cfg)
  }

  // ----- what a slave sees -----

  /** The MOSI level at every active edge of the clock, the MISO level whenever the master samples it,
      and the number of cycles in which drdy_o is high. */
  datatype Log = Log(mosi: seq<bool>, miso: seq<bool>, ready: nat)

  function LogNext(g: Log, s: State, i: Input, cfg: Config): Log
    requires Wide(s, cfg) && Fitting(cfg) && InputOk(i, cfg)
  {
    var t := Next(s, i, cfg);
    Log(if !s.sclk && t.sclk then g.mosi + [s.mosi] else g.mosi,
        if s.mode == TX_DAT2 && Tick(s, cfg) then g.miso + [i.miso] else g.miso,
        g.ready + if t.drdy then 1 else 0)
  }

  ghost function RunLog(s: State, ins: seq<Input>, n: nat, cfg: Config): Log
    requires Wide(s, cfg) && Fitting(cfg) && InputsOk(ins, cfg) && n <= |ins|
  {
    if n == 0 then Log([], [], 0) else LogNext(RunLog(s, ins, n - 1, cfg), Run(s, ins, n - 1, cfg), ins[n - 1], cfg)
  }

  // ----- the invariant of a transfer -----

  /** The divider counts from 0 to 2^ratio, where the tick comes. */
  lemma TickAtEnd(s: State, cfg: Config)
    requires Fitting(cfg) && s.divider <= Pow2(cfg.ratio)
    ensures Tick(s, cfg) <==> s.divider == Pow2(cfg.ratio)
    ensures Pow2(cfg.ratio) < 4095
  {
    Pow2Monotone(cfg.ratio, 11);
    assert Pow2(11) == 2048 by { Pow2Constants(); }
    if s.divider < Pow2(cfg.ratio) { ModUnique(s.divider, Pow2(cfg.ratio), 0, s.divider); }
    else { ModUnique(s.divider, Pow2(cfg.ratio), 1, 0); }
  }

  /** What is left of a word after k shifts. */
  predicate ShiftedBy(sreg: Word, data: Word, k: nat) {
    |sreg| == |data| && forall j | 0 <= j < |sreg| :: sreg[j] == (j + k < |data| && data[j + k])
  }

  /** The word sent so far: the first k bits. */
  ghost predicate FirstBits(sent: seq<bool>, data: Word, k: nat) {
    |sent| == k && forall j | 0 <= j < k && j < |data| :: sent[j] == data[j]
  }

  /** The last bits of rx are those that were sampled, as long as they find room. */
  ghost predicate Collected(rx: Word, sampled: seq<bool>) {
    |sampled| <= |rx| ==> rx[|rx| - |sampled|..] == sampled
  }

  lemma FirstBitsGrows(sent: seq<bool>, data: Word, k: nat, b: bool)
    requires FirstBits(sent, data, k) && (k < |data| ==> b == data[k])
    ensures FirstBits(sent + [b], data, k + 1)
  {}

  lemma ShiftOnce(sreg: Word, data: Word, k: nat)
    requires ShiftedBy(sreg, data, k) && sreg != []
    ensures ShiftedBy(sreg[1..] + [false], data, k + 1) && sreg[0] == (k < |data| && data[k])
  {}

  lemma CollectedGrows(rx: Word, sampled: seq<bool>, b: bool)
    requires Collected(rx, sampled) && rx != []
    ensures Collected(rx[1..] + [b], sampled + [b])
  {
    var n, k := |rx|, |sampled|;
    if k + 1 <= n { assert (rx[1..] + [b])[n - k - 1..] == rx[n - k..] + [b]; }
  }

  /** In the middle of a transfer of `data`, k bits of which have been sampled. */
  ghost predicate Sending(s: State, g: Log, data: Word, cfg: Config) {
    var k := |g.miso|;
    && Wide(s, cfg) && |data| == cfg.bits && Collected(s.rx, g.miso)
    && (cfg.bits <= 31 ==> k <= cfg.bits)
    && (cfg.bits <= 31 && (s.mode == TX_DAT1 || s.mode == TX_SCK1 || s.mode == TX_DAT2) ==> k < cfg.bits)
    && match s.mode
      case IDLE => true
      case TX_CS =>
        k == 0 && FirstBits(g.mosi, data, 0) && ShiftedBy(s.sreg, data, 0) && s.counter == 0 && !s.sclk
        && (data != [] ==> s.mosi == data[0])
      case TX_DAT1 =>
        FirstBits(g.mosi, data, k) && ShiftedBy(s.sreg, data, k) && s.counter == k % 32 && !s.sclk
        && (k == 0 && data != [] ==> s.mosi == data[0])
      case TX_SCK1 =>
        FirstBits(g.mosi, data, k) && ShiftedBy(s.sreg, data, k + 1) && s.counter == k % 32 && !s.sclk
        && s.mosi == (k < cfg.bits && data[k])
      case TX_DAT2 =>
        FirstBits(g.mosi, data, k + 1) && ShiftedBy(s.sreg, data, k + 1) && s.counter == (k + 1) % 32 && s.sclk
      case TX_SCK2 =>
        k >= 1 && FirstBits(g.mosi, data, k) && ShiftedBy(s.sreg, data, k) && s.counter == k % 32 && s.sclk
      case TX_CS2 => FirstBits(g.mosi, data, k) && s.counter == k % 32 == cfg.bits && !s.sclk
      case TX_GAP => FirstBits(g.mosi, data, k) && k % 32 == cfg.bits && !s.sclk && s.data == s.rx
  }

  lemma ModuloStep(k: nat)
    ensures (k % 32 + 1) % 32 == (k + 1) % 32
  {}

  lemma SendingTicked(s: State, g: Log, data: Word, i: Input, cfg: Config)
    requires Fitting(cfg) && InputOk(i, cfg) && s.mode != IDLE && Sending(s, g, data, cfg) && Tick(s, cfg)
    requires Next(s, i, cfg).mode != IDLE
    ensures Sending(Next(s, i, cfg), LogNext(g, s, i, cfg), data, cfg)
  {
    hide Tick, FirstBits, ShiftedBy, Collected;
    ModuloStep(|g.miso|);
    CollectedGrows(s.rx, g.miso, i.miso);
    if s.mode == TX_DAT1 { ShiftOnce(s.sreg, data, |g.miso|); }
    if s.mode == TX_SCK1 { FirstBitsGrows(g.mosi, data, |g.miso|, s.mosi); }
  }

  lemma SendingStep(s: State, g: Log, data: Word, i: Input, cfg: Config)
    requires Fitting(cfg) && InputOk(i, cfg) && s.mode != IDLE && Sending(s, g, data, cfg)
    requires Next(s, i, cfg).mode != IDLE
    ensures Sending(Next(s, i, cfg), LogNext(g, s, i, cfg), data, cfg)
  {
    if Tick(s, cfg) {
      SendingTicked(s, g, data, i, cfg);
    } else {
      hide Tick, FirstBits, ShiftedBy, Collected;
    }
  }

  // ----- how long a transfer takes -----

  /** Ticks that a transfer of N bits takes. */
  function TicksOf(cfg: Config): nat {
    4 * cfg.bits + 3
  }

  /** Ticks that it still needs. */
  function TicksLeft(mode: Mode, counter: nat, bits: nat): int {
    var rest := 4 * (bits - counter);
    match mode
    case IDLE => 0
    case TX_CS => 4 * bits + 3
    case TX_DAT1 => rest + 2
    case TX_SCK1 => rest + 1
    case TX_DAT2 => rest + 4
    case TX_SCK2 => rest + 3
    case TX_CS2 => 2
    case TX_GAP => 1
  }

  /** The divider n cycles after a transfer has begun, from the start pulses alone: it counts from 0 to
      2^ratio, and every further pulse sends it back to 0. */
  function Divider(ins: seq<Input>, n: nat, cfg: Config): nat
    requires n <= |ins|
  {
    if n <= 1 then 0
    else
      var d := Divider(ins, n - 1, cfg);
      if ins[n - 1].start || d == Pow2(cfg.ratio) then 0 else d + 1
  }

  function Ticks(ins: seq<Input>, n: nat, cfg: Config): nat
    requires n <= |ins|
  {
    if n <= 1 then 0
    else Ticks(ins, n - 1, cfg) + if Divider(ins, n - 1, cfg) == Pow2(cfg.ratio) then 1 else 0
  }

  /** The clock divider and the drdy_o pulse. */
  ghost predicate Timed(s: State, g: Log, cfg: Config) {
    && s.divider <= Pow2(cfg.ratio)
    && g.ready == (if s.mode == IDLE || s.mode == TX_GAP then 1 else 0)
    && (s.drdy ==> s.mode == TX_GAP)
  }

  lemma TimedStep(s: State, g: Log, i: Input, cfg: Config)
    requires Wide(s, cfg) && Fitting(cfg) && InputOk(i, cfg) && s.mode != IDLE && Timed(s, g, cfg)
    ensures Timed(Next(s, i, cfg), LogNext(g, s, i, cfg), cfg)
    ensures Next(s, i, cfg).divider == if i.start || s.divider == Pow2(cfg.ratio) then 0 else s.divider + 1
  {
    TickAtEnd(s, cfg);
    hide Tick;
  }

  /** Every tick brings the end one tick closer, and nothing else does. */
  lemma TicksLeftStep(s: State, g: Log, data: Word, i: Input, cfg: Config)
    requires Wide(s, cfg) && Fitting(cfg) && InputOk(i, cfg) && s.mode != IDLE && cfg.bits <= 31
    requires Sending(s, g, data, cfg)
    ensures var t := Next(s, i, cfg);
      var before, after := TicksLeft(s.mode, s.counter, cfg.bits), TicksLeft(t.mode, t.counter, cfg.bits);
      after == before - (if Tick(s, cfg) then 1 else 0) && before >= 1 && (t.mode == IDLE <==> after == 0)
  {
    hide Tick, FirstBits, ShiftedBy, Collected;
  }

  // ----- whole transfers -----

  /** Idle, with the last word in data_o. */
  ghost predicate Done(s: State, g: Log, data: Word) {
    s.mode == IDLE && g.mosi == data && g.miso == s.data && g.ready == 1
  }

  lemma LastTick(s: State, g: Log, data: Word, i: Input, cfg: Config)
    requires Fitting(cfg) && InputOk(i, cfg) && cfg.bits <= 31
    requires Sending(s, g, data, cfg) && Timed(s, g, cfg) && s.mode == TX_GAP && Tick(s, cfg)
    ensures Done(Next(s, i, cfg), LogNext(g, s, i, cfg), data)
  {
    TickAtEnd(s, cfg);
    hide Tick;
    assert s.rx[0..] == s.rx;
  }

  /** Ready to transfer a word. */
  predicate Ready(s: State, cfg: Config) {
    Wide(s, cfg) && s.mode == IDLE && !s.drdy
  }

  lemma FirstCycle(s: State, i: Input, cfg: Config)
    requires Ready(s, cfg) && Fitting(cfg) && InputOk(i, cfg) && i.start
    ensures var t, g := Next(s, i, cfg), LogNext(Log([], [], 0), s, i, cfg);
      Under(t, g, i.data, 0, 0, cfg)
  {
    hide Tick;
  }

  /** Not yet back in IDLE, after the given ticks, with the divider where the start pulses have left it. */
  ghost predicate Under(s: State, g: Log, data: Word, ticks: nat, divider: nat, cfg: Config) {
    && s.mode != IDLE && Sending(s, g, data, cfg) && Timed(s, g, cfg) && s.divider == divider
    && (cfg.bits <= 31 ==> TicksLeft(s.mode, s.counter, cfg.bits) == TicksOf(cfg) - ticks)
  }

  lemma UnderStep(s: State, g: Log, data: Word, ticks: nat, divider: nat, i: Input, cfg: Config)
    requires Fitting(cfg) && InputOk(i, cfg) && Under(s, g, data, ticks, divider, cfg)
    ensures var t, g' := Next(s, i, cfg), LogNext(g, s, i, cfg);
      var ticks' := ticks + if divider == Pow2(cfg.ratio) then 1 else 0;
      if cfg.bits <= 31 && ticks' == TicksOf(cfg) then Done(t, g', data)
      else Under(t, g', data, ticks', if i.start || divider == Pow2(cfg.ratio) then 0 else divider + 1, cfg)
    ensures cfg.bits <= 31 ==> ticks < TicksOf(cfg)
  {
    assert Wide(s, cfg) && s.divider == divider && s.divider <= Pow2(cfg.ratio) && TicksOf(cfg) > 0;
    hide Sending, Timed, Tick, Done, Next, LogNext, TicksLeft, TicksOf, Pow2, Wide, InputOk;
    TickAtEnd(s, cfg);
    EndOnlyByGap(s, g, data, i, cfg);
    TimedStep(s, g, i, cfg);
    if cfg.bits <= 31 { TicksLeftStep(s, g, data, i, cfg); }
    if Next(s, i, cfg).mode == IDLE {
      LastTick(s, g, data, i, cfg);
    } else {
      SendingStep(s, g, data, i, cfg);
    }
  }

  lemma EndOnlyByGap(s: State, g: Log, data: Word, i: Input, cfg: Config)
    requires Fitting(cfg) && InputOk(i, cfg) && s.mode != IDLE && Sending(s, g, data, cfg)
    ensures Next(s, i, cfg).mode == IDLE ==> s.mode == TX_GAP && Tick(s, cfg) && cfg.bits <= 31
  {
    hide Tick, FirstBits, ShiftedBy, Collected;
  }

  /** A transfer begins with the first cycle. */
  ghost predicate Begins(s: State, ins: seq<Input>, cfg: Config) {
    Ready(s, cfg) && Fitting(cfg) && InputsOk(ins, cfg) && ins != [] && ins[0].start
  }

  /** In every cycle of a transfer, up to its last tick. */
  lemma {:induction false} TransferPrefix(s: State, ins: seq<Input>, n: nat, cfg: Config)
    requires Begins(s, ins, cfg) && 1 <= n <= |ins| && Wide(s, cfg)
    requires cfg.bits <= 31 ==> Ticks(ins, n, cfg) < TicksOf(cfg)
    ensures var t, g := Run(s, ins, n, cfg), RunLog(s, ins, n, cfg);
      Under(t, g, ins[0].data, Ticks(ins, n, cfg), Divider(ins, n, cfg), cfg)
  {
    hide Next, LogNext, Under, Ready, TicksOf;
    if n == 1 {
      FirstCycle(s, ins[0], cfg);
    } else {
      TransferPrefix(s, ins, n - 1, cfg);
      UnderStep(Run(s, ins, n - 1, cfg), RunLog(s, ins, n - 1, cfg), ins[0].data, Ticks(ins, n - 1, cfg),
        Divider(ins, n - 1, cfg), ins[n - 1], cfg);
    }
  }

  /** A transfer of up to 31 bits takes 4N+3 ticks, whatever the slave sends and whatever start pulses come
      in between, which have no effect but to delay the next tick: the slave has then seen N active clock
      edges with the bits of data_i on MOSI, data_o holds the N sampled bits in order and drdy_o was high
      for one cycle. */
  lemma TransferCompletes(s: State, ins: seq<Input>, n: nat, cfg: Config)
    requires Begins(s, ins, cfg) && Wide(s, cfg) && cfg.bits <= 31 && 1 < n <= |ins|
    requires Ticks(ins, n - 1, cfg) < TicksOf(cfg) == Ticks(ins, n, cfg)
    ensures Done(Run(s, ins, n, cfg), RunLog(s, ins, n, cfg), ins[0].data)
    ensures forall m | 1 <= m < n :: Run(s, ins, m, cfg).mode != IDLE
  {
    forall m | 1 <= m < n ensures Run(s, ins, m, cfg).mode != IDLE {
      hide *;
      TicksGrow(ins, m, n - 1, cfg);
      TransferGoesOn(s, ins, m, cfg);
    }
    hide Next, LogNext, Under, Done, Ready, TicksOf;
    TransferPrefix(s, ins, n - 1, cfg);
    UnderStep(Run(s, ins, n - 1, cfg), RunLog(s, ins, n - 1, cfg), ins[0].data, Ticks(ins, n - 1, cfg),
      Divider(ins, n - 1, cfg), ins[n - 1], cfg);
  }

  lemma {:induction false} TransferGoesOn(s: State, ins: seq<Input>, n: nat, cfg: Config)
    requires Begins(s, ins, cfg) && Wide(s, cfg) && 1 <= n <= |ins|
    requires cfg.bits <= 31 ==> Ticks(ins, n, cfg) < TicksOf(cfg)
    ensures Run(s, ins, n, cfg).mode != IDLE
  {
    hide Next, Ready, TicksOf, Sending, Timed;
    TransferPrefix(s, ins, n, cfg);
  }

  lemma {:induction false} TicksGrow(ins: seq<Input>, m: nat, n: nat, cfg: Config)
    requires m <= n <= |ins|
    ensures Ticks(ins, m, cfg) <= Ticks(ins, n, cfg)
  {
    if m < n { TicksGrow(ins, m, n - 1, cfg); }
  }

  lemma {:induction false} EnoughTicks(s: State, ins: seq<Input>, n: nat, cfg: Config) returns (m: nat)
    requires Begins(s, ins, cfg) && Wide(s, cfg) && cfg.bits <= 31 && n <= |ins|
    requires Ticks(ins, n, cfg) >= TicksOf(cfg)
    ensures 1 <= m <= n && Run(s, ins, m, cfg).mode == IDLE
  {
    hide Run, Begins, Wide, RunLog, Divider;
    if Ticks(ins, n - 1, cfg) < TicksOf(cfg) {
      m := n;
      TransferCompletes(s, ins, n, cfg);
    } else {
      m := EnoughTicks(s, ins, n - 1, cfg);
    }
  }

  /** A transfer comes to its end if and only if the 5-bit counter can reach the number of bits and the
      start pulses leave enough ticks. */
  lemma {:induction false} TransferEndsIff(s: State, ins: seq<Input>, cfg: Config)
    requires Begins(s, ins, cfg) && Wide(s, cfg)
    ensures (exists n | 1 <= n <= |ins| :: Run(s, ins, n, cfg).mode == IDLE)
      <==> cfg.bits <= 31 && Ticks(ins, |ins|, cfg) >= TicksOf(cfg)
  {
    assert Fitting(cfg) && InputsOk(ins, cfg) && TicksOf(cfg) > 0;
    hide Run, RunLog, Begins, Wide, Ticks;
    hide TicksOf;
    if cfg.bits <= 31 && Ticks(ins, |ins|, cfg) >= TicksOf(cfg) {
      var m := EnoughTicks(s, ins, |ins|, cfg);
    } else {
      forall n | 1 <= n <= |ins| ensures Run(s, ins, n, cfg).mode != IDLE {
        TicksGrow(ins, n, |ins|, cfg);
        TransferGoesOn(s, ins, n, cfg);
      }
    }
  }

  /** The last of these cycles, the first of which starts a transfer, brings its last tick. */
  ghost predicate Completing(ins: seq<Input>, cfg: Config) {
    && |ins| > 1 && ins[0].start
    && Ticks(ins, |ins| - 1, cfg) < TicksOf(cfg) == Ticks(ins, |ins|, cfg)
  }

  lemma {:induction false} TransferIsComplete(s: State, ins: seq<Input>, cfg: Config)
    requires Ready(s, cfg) && Fitting(cfg) && InputsOk(ins, cfg) && Wide(s, cfg) && cfg.bits <= 31
    requires Completing(ins, cfg)
    ensures Done(Run(s, ins, |ins|, cfg), RunLog(s, ins, |ins|, cfg), ins[0].data)
  {
    hide Next, LogNext, Done, Ready, TicksOf, Ticks;
    TransferCompletes(s, ins, |ins|, cfg);
  }

  // ----- start pulses -----

  /** Clock cycles from one tick to the next. */
  function Spacing(cfg: Config): (p: int)
    ensures p >= 2
  {
    Pow2(cfg.ratio) + 1
  }

  /** The length of a transfer of any word that is not disturbed by further pulses. */
  function Cycles(cfg: Config): (n: int)
    ensures n >= 2
  {
    MulMonotone(1, TicksOf(cfg), Spacing(cfg));
    TicksOf(cfg) * Spacing(cfg)
  }

  /** With no further pulses the ticks come at regular intervals. */
  lemma {:induction false} RegularTicks(ins: seq<Input>, n: nat, cfg: Config)
    requires OneStart(ins) && 1 <= n <= |ins|
    ensures Divider(ins, n, cfg) < Spacing(cfg) && Ticks(ins, n, cfg) * Spacing(cfg) + Divider(ins, n, cfg) == n - 1
  {
    if n > 1 {
      RegularTicks(ins, n - 1, cfg);
      var k, p := Ticks(ins, n - 1, cfg), Spacing(cfg);
      assert (k + 1) * p == k * p + p;
    }
  }

  /** So such a transfer of up to 31 bits takes (4N+3) (2^ratio+1) cycles. */
  lemma {:induction false} UndisturbedTransfer(s: State, ins: seq<Input>, cfg: Config)
    requires Begins(s, ins, cfg) && Wide(s, cfg) && OneStart(ins) && cfg.bits <= 31 && |ins| > Cycles(cfg)
    ensures Done(Run(s, ins, Cycles(cfg) + 1, cfg), RunLog(s, ins, Cycles(cfg) + 1, cfg), ins[0].data)
  {
    hide Next, Ready, Done, Pow2;
    var n, p := Cycles(cfg) + 1, Spacing(cfg);
    RegularTicks(ins, n - 1, cfg);
    RegularTicks(ins, n, cfg);
    ModUnique(n - 1, p, Ticks(ins, n, cfg), Divider(ins, n, cfg));
    ModUnique(n - 1, p, TicksOf(cfg), 0);
    hide *;
    TransferCompletes(s, ins, n, cfg);
  }

  /** A start that is held high stops the transfer it has begun, whatever its length. */
  lemma {:induction false} HeldStartNeverEnds(s: State, ins: seq<Input>, n: nat, cfg: Config)
    requires Begins(s, ins, cfg) && Wide(s, cfg) && 1 <= n <= |ins| && forall k | 0 <= k < |ins| :: ins[k].start
    ensures Run(s, ins, n, cfg).mode != IDLE
  {
    HeldStart(ins, n, cfg);
    hide *;
    TicksOfIsPositive(cfg);
    TransferGoesOn(s, ins, n, cfg);
  }

  lemma {:induction false} HeldStart(ins: seq<Input>, n: nat, cfg: Config)
    requires n <= |ins| && forall k | 0 <= k < |ins| :: ins[k].start
    ensures Divider(ins, n, cfg) == 0 && Ticks(ins, n, cfg) == 0
  {
    if n > 1 { HeldStart(ins, n - 1, cfg); }
  }

  lemma TicksOfIsPositive(cfg: Config)
    ensures TicksOf(cfg) > 0
  {}

  // ----- the registers, clocked in place -----

  /** drdy_o is low in IDLE. */
  lemma DrdyIsClear(s: State, i: Input, cfg: Config)
    requires Wide(s, cfg) && Fitting(cfg) && InputOk(i, cfg) && (s.mode == IDLE ==> !s.drdy)
    ensures Next(s, i, cfg).mode == IDLE ==> !Next(s, i, cfg).drdy
    ensures s.mode == IDLE ==> Ready(s, cfg)
  {
    hide Tick;
  }

  lemma {:induction false} RunExtends(s: State, ins: seq<Input>, i: Input, n: nat, cfg: Config)
    requires Wide(s, cfg) && Fitting(cfg) && InputsOk(ins, cfg) && InputOk(i, cfg) && n <= |ins|
    ensures InputsOk(ins + [i], cfg) && Run(s, ins + [i], n, cfg) == Run(s, ins, n, cfg)
  {
    hide Next;
    if n > 0 {
      RunExtends(s, ins, i, n - 1, cfg);
      assert (ins + [i])[n - 1] == ins[n - 1];
    }
  }

  lemma {:induction false} NoInputs(s: State, cfg: Config)
    requires Wide(s, cfg) && Fitting(cfg)
    ensures InputsOk([], cfg) && Run(s, [], 0, cfg) == s
  {}

  lemma {:induction false} RunGrows(s: State, ins: seq<Input>, i: Input, cfg: Config)
    requires Wide(s, cfg) && Fitting(cfg) && InputsOk(ins, cfg) && InputOk(i, cfg)
    ensures InputsOk(ins + [i], cfg)
    ensures Run(s, ins + [i], |ins + [i]|, cfg) == Next(Run(s, ins, |ins|, cfg), i, cfg)
  {
    RunExtends(s, ins, i, |ins|, cfg);
    hide Next;
  }

  class Master {
    const cfg: Config
    var divider: nat
    var mode: Mode
    var sclk: bool
    var sreg: Word
    var rxSreg: Word
    var counter: nat
    var mosi: bool
    var drdy: bool
    var data: Word
    ghost var from: State
    ghost var history: seq<Input>

    ghost function Registers(): State
      reads this`divider, this`mode, this`sclk, this`sreg, this`rxSreg, this`counter, this`mosi, this`drdy, this`data
    {
      State(divider, mode, sclk, sreg, rxSreg, counter, mosi, drdy, data)
    }

    /** `history` are the inputs since the last start out of IDLE. */
    ghost predicate Valid()
      reads this
    {
      && Fitting(cfg) && Wide(Registers(), cfg) && (mode == IDLE ==> !drdy)
      && Ready(from, cfg) && InputsOk(history, cfg) && Registers() == Run(from, history, |history|, cfg)
    }

    constructor (cfg: Config)
      requires Fitting(cfg)
      ensures Valid() && this.cfg == cfg && Ready(Registers(), cfg)
    {
      this.cfg := cfg;
      var zeros := seq(cfg.bits, _ => false);
      divider, mode, sclk, counter, mosi, drdy := 0, IDLE, false, 0, false, false;
      sreg, rxSreg, data := zeros, zeros, zeros;
      from, history := State(0, IDLE, false, zeros, zeros, 0, false, false, zeros), [];
    }

    /** p_divide_spi_clock */
    method ClockDivider(start: bool, tick: bool)
      modifies this`divider
      ensures divider == if start || tick then 0 else (old(divider) + 1) % 4096
    {
      if start || tick { divider := 0; } else { divider := (divider + 1) % 4096; }
    }

    /** p_main_fsm while a transfer is on its way, in a cycle with a tick. */
    method ClockTransfer(i: Input)
      requires Fitting(cfg) && Wide(Registers(), cfg) && mode != IDLE
      modifies this`mode, this`sclk, this`sreg, this`rxSreg, this`counter, this`mosi, this`drdy, this`data
      ensures Registers() == Ticked(old(Registers()), i, cfg)
    {
      match mode
      case IDLE =>
      case TX_CS => mode := TX_DAT1;
      case TX_DAT1 => mosi, sreg, mode := sreg[0], sreg[1..] + [false], TX_SCK1;
      case TX_SCK1 => sclk, counter, mode := !sclk, (counter + 1) % 32, TX_DAT2;
      case TX_DAT2 => rxSreg, mode := rxSreg[1..] + [i.miso], TX_SCK2;
      case TX_SCK2 =>
        sclk := !sclk;
        if counter == cfg.bits { mode := TX_CS2; } else { mode := TX_DAT1; }
      case TX_CS2 => data, drdy, mode := rxSreg, true, TX_GAP;
      case TX_GAP => drdy, mode := false, IDLE;
    }

    /** One rising edge. */
    method ClockRegisters(i: Input)
      requires Fitting(cfg) && Wide(Registers(), cfg) && InputOk(i, cfg)
      modifies this`divider, this`mode, this`sclk, this`sreg, this`rxSreg, this`counter, this`mosi, this`drdy, this`data
      ensures Registers() == Next(old(Registers()), i, cfg)
    {
      hide Ticked;
      var tick := divider / Pow2(cfg.ratio) % 2 == 1;
      if mode == IDLE {
        sclk, counter := false, 0;
        if i.start {
          sreg, mode, mosi := i.data, TX_CS, i.data[0];
        }
      } else if tick {
        ClockTransfer(i);
      } else if mode == TX_GAP {
        drdy := false;
      }
      ClockDivider(i.start, tick);
    }

    /** One rising edge.  With the last tick of a transfer, the word is in the slave and data_o has its answer. */
    method Clock(i: Input) returns (ready: bool)
      requires Valid() && InputOk(i, cfg)
      modifies this
      ensures Valid() && Registers() == Next(old(Registers()), i, cfg)
      ensures ready == (old(mode) == IDLE && !i.start)
      ensures history == if old(mode) == IDLE && i.start then [i] else old(history) + [i]
      ensures cfg.bits <= 31 && Completing(history, cfg) ==>
        Done(Registers(), RunLog(from, history, |history|, cfg), history[0].data)
    {
      ready := mode == IDLE && !i.start;
      DrdyIsClear(Registers(), i, cfg);
      NoInputs(Registers(), cfg);
      assert Wide(from, cfg);
      hide Next, Done, Completing, Ready, RunLog, Run, InputsOk;
      if mode == IDLE && i.start { from, history := Registers(), []; }
      ghost var before := history;
      ClockRegisters(i);
      history := history + [i];
      RunGrows(from, before, i, cfg);
      if cfg.bits <= 31 && Completing(history, cfg) { TransferIsComplete(from, history, cfg); }
    }
  }
}

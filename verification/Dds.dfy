// The synthesizer: the 43-bit phase accumulator with its four interleaved phases (dds_quad_channel) and
// the interpolated sine pipeline (dds_stage).
module Dds {
  import opened Bits

  /** 2^43, a whole turn of the phase. */
  const TURN: int := 0x800_0000_0000

  type Phase = x: int | 0 <= x < TURN

  // ----- the phase accumulator -----

  datatype Input = Input(rst: bool, tuneLoad: bool, tune: Phase, accLoad: bool, acc: Phase, dreq: bool)

  /** tune, acc, acc_d0 and acc_f[0..3]. */
  datatype Quad = Quad(tune: int, acc: int, accD0: int, phases: seq<int>)

  /** The offset of the i-th of the four phases, from shifts of the tune word. */
  function Offset(tune: int, i: nat): int {
    match i case 0 => 0 case 1 => tune / 4 case 2 => tune / 2 case _ => tune / 4 + tune / 2
  }

  function QuadNext(s: Quad, i: Input): Quad {
    if i.rst then s.(tune := 0, acc := 0)
    else
      var t := s.(tune := if i.tuneLoad then i.tune else s.tune);
      if i.accLoad then t.(acc := i.acc)
      else if i.dreq then
        t.(acc := (s.acc + s.tune) % TURN, accD0 := s.acc,
           phases := seq(4, k requires 0 <= k < 4 => (s.accD0 + Offset(s.tune, k)) % TURN))
      else t
  }

  function QuadRun(s: Quad, ins: seq<Input>, n: nat): Quad
    requires n <= |ins|
  {
    if n == 0 then s else QuadNext(QuadRun(s, ins, n - 1), ins[n - 1])
  }

  ghost predicate Running(ins: seq<Input>) {
    forall k | 0 <= k < |ins| :: !ins[k].rst && !ins[k].accLoad && ins[k].dreq
  }

  /** The sum of the tune words in force in those of the cycles from the m-th to before the n-th that have dreq. */
  function TuneSum(s: Quad, ins: seq<Input>, m: nat, n: nat): int
    requires m <= n <= |ins|
  {
    if n == m then 0
    else TuneSum(s, ins, m, n - 1) + if ins[n - 1].dreq then QuadRun(s, ins, n - 1).tune else 0
  }

  /** However the tune word changes, the phase is continuous: between resets and loads, the accumulator grows by
      the sum of all tune words that were in force. */
  lemma {:induction false} PhaseIsContinuous(s: Quad, ins: seq<Input>, m: nat, n: nat)
    requires m <= n <= |ins| && 0 <= QuadRun(s, ins, m).acc < TURN
    requires forall k | m <= k < n :: !ins[k].rst && !ins[k].accLoad
    ensures QuadRun(s, ins, n).acc == (QuadRun(s, ins, m).acc + TuneSum(s, ins, m, n)) % TURN
  {
    hide QuadNext;
    if n > m {
      PhaseIsContinuous(s, ins, m, n - 1);
      var q := QuadRun(s, ins, n - 1);
      PhaseStep(q, ins[n - 1]);
      ModAdd(QuadRun(s, ins, m).acc + TuneSum(s, ins, m, n - 1), if ins[n - 1].dreq then q.tune else 0, TURN);
    }
  }

  lemma PhaseStep(s: Quad, i: Input)
    requires !i.rst && !i.accLoad
    ensures QuadNext(s, i).acc == if i.dreq then (s.acc + s.tune) % TURN else s.acc
  {}

  lemma {:induction false} RunningPrefix(s: Quad, ins: seq<Input>, n: nat)
    requires Running(ins) && 0 <= s.acc < TURN && n <= |ins|
    ensures QuadRun(s, ins, n).acc == (s.acc + TuneSum(s, ins, 0, n)) % TURN
  {
    hide QuadNext;
    PhaseIsContinuous(s, ins, 0, n);
  }

  lemma RunsOn(s: Quad, ins: seq<Input>, n: nat)
    requires Running(ins) && n < |ins|
    ensures QuadRun(s, ins, n + 1) == QuadNext(QuadRun(s, ins, n), ins[n])
    ensures !ins[n].rst && !ins[n].accLoad && ins[n].dreq
  {
    hide QuadNext;
  }

  /** What a reset and a load leave behind, and what they leave alone. */
  lemma AfterLoad(s: Quad, ins: seq<Input>, n: nat)
    requires n < |ins|
    ensures var q, t, i := QuadRun(s, ins, n), QuadRun(s, ins, n + 1), ins[n];
      && (i.rst ==> t.acc == 0 && t.tune == 0)
      && (!i.rst && i.accLoad ==> t.acc == i.acc)
      && (i.rst || i.accLoad || !i.dreq ==> t.phases == q.phases && t.accD0 == q.accD0)
  {}

  /** The tune word in force is the last one loaded, or zero since the last reset. */
  lemma {:induction false} TuneInForce(s: Quad, ins: seq<Input>, k: nat, n: nat)
    requires k < n <= |ins| && forall j | k < j < n :: !ins[j].rst && !ins[j].tuneLoad
    ensures ins[k].rst ==> QuadRun(s, ins, n).tune == 0
    ensures !ins[k].rst && ins[k].tuneLoad ==> QuadRun(s, ins, n).tune == ins[k].tune
  {
    if n > k + 1 { TuneInForce(s, ins, k, n - 1); }
  }

  /** The four phases, whatever tune words are loaded meanwhile: those of cycle n+2 are the accumulator of cycle n
      and its offsets by shifts of the tune word in force in cycle n+1. */
  lemma {:induction false} PhasesFollow(s: Quad, ins: seq<Input>, n: nat)
    requires Running(ins) && n + 2 <= |ins| && 0 <= s.acc < TURN
    ensures var acc, u := s.acc + TuneSum(s, ins, 0, n), QuadRun(s, ins, n + 1).tune;
      QuadRun(s, ins, n + 2).phases
      == [acc % TURN, (acc + u / 4) % TURN, (acc + u / 2) % TURN, (acc + u / 4 + u / 2) % TURN]
  {
    hide *;
    var b, acc := QuadRun(s, ins, n + 1), s.acc + TuneSum(s, ins, 0, n);
    RunsOn(s, ins, n);
    RunsOn(s, ins, n + 1);
    FourPhases(QuadRun(s, ins, n), ins[n]);
    FourPhases(b, ins[n + 1]);
    RunningPrefix(s, ins, n);
    ModAdd(acc, 0, TURN);
    ModAdd(acc, b.tune / 4, TURN);
    ModAdd(acc, b.tune / 2, TURN);
    ModAdd(acc, b.tune / 4 + b.tune / 2, TURN);
  }

  lemma FourPhases(s: Quad, i: Input)
    requires !i.rst && !i.accLoad && i.dreq
    ensures QuadNext(s, i).accD0 == s.acc
    ensures var t := s.tune;
      QuadNext(s, i).phases
      == [s.accD0 % TURN, (s.accD0 + t / 4) % TURN, (s.accD0 + t / 2) % TURN, (s.accD0 + (t / 4 + t / 2)) % TURN]
  {}

  /** The tune word is held at t. */
  ghost predicate Held(s: Quad, ins: seq<Input>, t: int) {
    s.tune == t && forall k | 0 <= k < |ins| :: ins[k].tuneLoad ==> ins[k].tune == t
  }

  lemma {:induction false} HeldTune(s: Quad, ins: seq<Input>, n: nat, t: int)
    requires Running(ins) && Held(s, ins, t) && n <= |ins|
    ensures QuadRun(s, ins, n).tune == t && TuneSum(s, ins, 0, n) == n * t
  {
    if n > 0 {
      HeldTune(s, ins, n - 1, t);
      assert n * t == (n - 1) * t + t;
    }
  }

  /** The phase the i-th output of cycle n+2 should have, in quarters of a count: one accumulator that
      steps four times per clock cycle. */
  function ExactQuarters(acc: int, t: int, n: int, i: int): int {
    4 * acc + (4 * n + i) * t
  }

  /** The phases of cycle n+2 are offsets from the accumulator of cycle n. */
  lemma HeldPhases(s: Quad, ins: seq<Input>, n: nat, t: Phase)
    requires Running(ins) && Held(s, ins, t) && n + 2 <= |ins| && 0 <= s.acc < TURN
    ensures QuadRun(s, ins, n + 2).phases == seq(4, k requires 0 <= k < 4 => (s.acc + n * t + Offset(t, k)) % TURN)
  {
    HeldTune(s, ins, n, t);
    HeldTune(s, ins, n + 1, t);
    PhasesFollow(s, ins, n);
  }

  /** Each of the four phases lags the exact one by less than two counts, in every cycle of a run of any
      length; the lag depends on the tune word only, so it never accumulates, and it is zero when four
      divides the tune word. */
  lemma PhasesInterleave(s: Quad, ins: seq<Input>, n: nat, i: nat, t: Phase)
    requires Running(ins) && Held(s, ins, t) && n + 2 <= |ins| && i < 4 && 0 <= s.acc < TURN
    ensures var q, lag := QuadRun(s, ins, n + 2), i * t - 4 * Offset(t, i);
      && 0 <= lag < 8 && (t % 4 == 0 ==> lag == 0)
      && |q.phases| == 4 && exists x :: q.phases[i] == x % TURN && 4 * x == ExactQuarters(s.acc, t, n, i) - lag
  {
    HeldPhases(s, ins, n, t);
    Lag(t, i);
    hide QuadRun, Running, Held, Offset, ExactQuarters;
    var x := s.acc + n * t + Offset(t, i);
    LagInQuarters(s.acc, t, n, i);
    assert QuadRun(s, ins, n + 2).phases[i] == x % TURN;
  }

  lemma LagInQuarters(acc: int, t: int, n: int, i: nat)
    ensures 4 * (acc + n * t + Offset(t, i)) == ExactQuarters(acc, t, n, i) - (i * t - 4 * Offset(t, i))
  {
    hide Offset;
    assert (4 * n + i) * t == 4 * (n * t) + i * t;
  }

  lemma Lag(t: Phase, i: nat)
    requires i < 4
    ensures var lag := i * t - 4 * Offset(t, i); 0 <= lag < 8 && (t % 4 == 0 ==> lag == 0)
  {
    var q, r := t / 4, t % 4;
    assert i == 0 || i == 1 || i == 2 || i == 3;
    assert t / 2 == 2 * q + r / 2;
  }

  lemma {:induction false} QuadExtends(s: Quad, ins: seq<Input>, i: Input, n: nat)
    requires n <= |ins|
    ensures QuadRun(s, ins + [i], n) == QuadRun(s, ins, n)
  {
    hide QuadNext;
    if n > 0 {
      QuadExtends(s, ins, i, n - 1);
      assert (ins + [i])[n - 1] == ins[n - 1];
    }
  }

  class QuadChannel {
    var tune: int
    var acc: int
    var accD0: int
    const phases: array<int>
    ghost const start: Quad
    ghost var history: seq<Input>

    ghost function Registers(): Quad
      reads this, phases
    {
      Quad(tune, acc, accD0, phases[..])
    }

    ghost predicate Valid()
      reads this, phases
    {
      phases.Length == 4 && 0 <= start.acc < TURN && Registers() == QuadRun(start, history, |history|)
    }

    constructor ()
      ensures Valid() && history == [] && start == Quad(0, 0, 0, [0, 0, 0, 0]) && fresh(phases)
    {
      tune, acc, accD0, history := 0, 0, 0, [];
      phases := new int[] [0, 0, 0, 0];
      start := Quad(0, 0, 0, [0, 0, 0, 0]);
    }

    /** The registers, the last ones first, so that each sees the others as they were before the edge. */
    method ClockRegisters(i: Input)
      requires phases.Length == 4
      modifies this`tune, this`acc, this`accD0, phases
      ensures Registers() == QuadNext(old(Registers()), i)
    {
      if i.rst {
        tune, acc := 0, 0;
      } else {
        if i.accLoad {
          acc := i.acc;
        } else if i.dreq {
          phases[0] := accD0 % TURN;
          phases[1] := (accD0 + tune / 4) % TURN;
          phases[2] := (accD0 + tune / 2) % TURN;
          phases[3] := (accD0 + (tune / 4 + tune / 2)) % TURN;
          accD0 := acc;
          acc := (acc + tune) % TURN;
        }
        if i.tuneLoad { tune := i.tune; }
      }
    }

    /** One rising edge.  The phase is continuous, and the four phases follow it two cycles later. */
    method Clock(i: Input, ghost t: Phase)
      requires Valid()
      modifies this, phases
      ensures Valid() && history == old(history) + [i]
      ensures Running(history) ==> acc == (start.acc + TuneSum(start, history, 0, |history|)) % TURN
      ensures Running(history) && |history| >= 2 ==>
        var a := start.acc + TuneSum(start, history, 0, |history| - 2);
        var u := QuadRun(start, history, |history| - 1).tune;
        phases[..] == [a % TURN, (a + u / 4) % TURN, (a + u / 2) % TURN, (a + u / 4 + u / 2) % TURN]
      ensures Running(history) && Held(start, history, t) && |history| >= 2 ==>
        forall k | 0 <= k < 4 :: phases[k] == (start.acc + (|history| - 2) * t + Offset(t, k)) % TURN
    {
      hide QuadNext, TuneSum, Running, Held, Offset;
      ClockRegisters(i);
      QuadExtends(start, history, i, |history|);
      history := history + [i];
      if Running(history) {
        RunningPrefix(start, history, |history|);
        if |history| >= 2 { PhasesFollow(start, history, |history| - 2); }
        if Held(start, history, t) && |history| >= 2 { HeldPhases(start, history, |history| - 2, t); }
      }
    }
  }

  // ----- the sine pipeline -----

  /** An entry of the sine table: slope and sample, both 18 bits signed. */
  datatype Cell = Cell(slope: int, sample: int)

  type Table = s: seq<Cell> | |s| == 1024 witness seq(1024, _ => Cell(0, 0))

  /** The straight line through a table cell; f counts 2^18 to the next cell. */
  function Line(c: Cell, f: int): int {
    c.sample + c.slope * f / 0x200_0000
  }

  /** The interpolated value stays in 0..126976. */
  ghost predicate InRange(c: Cell) {
    Fits(c.slope, 18) && Fits(c.sample, 18) && forall f | 0 <= f < 0x4_0000 :: 0 <= Line(c, f) <= 126976
  }

  ghost predicate Usable(lut: Table) {
    forall a | 0 <= a < 1024 :: InRange(lut[a])
  }

  function Interpolation(c: Cell, frac: int): int {
    c.slope * frac / 0x200_0000
  }

  /** The 32 bits of the dither generator, least significant first, and its feedback taps D0000001. */
  type Lfsr = s: seq<bool> | |s| == 32 witness seq(32, _ => false)

  predicate Tap(k: nat) {
    k == 0 || k == 28 || k == 30 || k == 31
  }

  function LfsrNext(l: Lfsr): Lfsr {
    seq(32, k requires 0 <= k < 32 => (if k + 1 < 32 then l[k + 1] else false) != (l[0] && Tap(k)))
  }

  function Bit(b: bool): int {
    if b then 1 else 0
  }

  /** dither_in: bits 7 to 5 and a zero, read as a signed number of four bits. */
  function Dither(l: Lfsr): int {
    2 * Bit(l[5]) + 4 * Bit(l[6]) - 8 * Bit(l[7])
  }

  datatype Stage = Stage(
    addr0: int, sign: seq<bool>, lutAddr: int, lutData: Cell, lutIn: Cell,
    frac0: int, frac1: int, frac2: int, frac3: int,
    interp: int, sample: int, qv: int, yt: int, y: int, lfsr: Lfsr)

  function Address(acc: Phase): (a: int)
    ensures 0 <= a < 1024
  {
    acc / 0x1_0000_0000 % 1024
  }

  function Fraction(acc: Phase): (f: int)
    ensures 0 <= f < 0x4_0000
  {
    acc / 0x4000 % 0x4_0000
  }

  /** The upper bit of the phase. */
  predicate Half(acc: Phase) {
    acc / 0x400_0000_0000 == 1
  }

  predicate InTable(s: Stage) {
    |s.sign| == 9 && 0 <= s.addr0 < 1024 && 0 <= s.lutAddr < 1024
  }

  /** One clock cycle with dreq_i high. */
  function StageNext(s: Stage, acc: Phase, lut: Table): Stage
    requires InTable(s)
  {
    Stage(
      Address(acc), [Half(acc)] + s.sign[..8], s.addr0, lut[s.lutAddr], s.lutData,
      Fraction(acc), s.frac0, s.frac1, s.frac2,
      Wrap(Interpolation(s.lutIn, s.frac3), 18), s.lutIn.sample,
      Wrap(s.sample + s.interp + Dither(s.lfsr) + 1, 18),
      (if s.sign[5] then s.qv else Wrap(-s.qv, 18)) / 8,
      (s.yt / 2 % 0x4000 + 8192 + s.yt % 2) % 0x4000,
      LfsrNext(s.lfsr))
  }

  function StageRun(s: Stage, accs: seq<Phase>, n: nat, lut: Table): (t: Stage)
    requires InTable(s) && n <= |accs|
    ensures InTable(t)
  {
    if n == 0 then s else StageNext(StageRun(s, accs, n - 1, lut), accs[n - 1], lut)
  }

  lemma Rounding(v: int, half: bool)
    requires -7 <= v <= 126983
    ensures var yt := (if half then v else -v) / 8;
      (yt / 2 % 0x4000 + 8192 + yt % 2) % 0x4000 == 8192 + ((if half then v else -v) + 8) / 16
  {}

  lemma InterpolationFits(c: Cell, frac: int)
    requires Fits(c.slope, 18) && 0 <= frac < 0x4_0000
    ensures Fits(Interpolation(c, frac), 18)
  {
    Pow2Constants();
    AbsProduct(c.slope, frac, 131072, 262144);
  }

  /** What the registers of the pipeline hold, with their widths. */
  function RegisteredSine(acc: Phase, dither: int, lut: Table): int {
    var c := lut[Address(acc)];
    Rounded(c.sample + Wrap(Interpolation(c, Fraction(acc)), 18) + dither + 1, Half(acc))
  }

  /** Eight cycles after a phase went in, its sine comes out.  Of the phase, h is the upper bit, a the ten bits that
      address the table, f the eighteen bits that interpolate and r what is not used.  The line through the table
      cell, plus the dither and one, is negated in the half wave with h = 0, divided by sixteen, rounded and put
      around 8192, without any overflow. */
  lemma SinePipeline(s: Stage, accs: seq<Phase>, n: nat, lut: Table, h: int, a: int, f: int, r: int)
    requires InTable(s) && Usable(lut) && n + 8 <= |accs|
    requires accs[n] == h * 0x400_0000_0000 + a * 0x1_0000_0000 + f * 0x4000 + r
    requires 0 <= h < 2 && 0 <= a < 1024 && 0 <= f < 0x4_0000 && 0 <= r < 0x4000
    ensures var l, y := StageRun(s, accs, n + 5, lut).lfsr, StageRun(s, accs, n + 8, lut).y;
      var dither := (if l[5] then 2 else 0) + (if l[6] then 4 else 0) - (if l[7] then 8 else 0);
      var v := lut[a].sample + lut[a].slope * f / 0x200_0000 + dither + 1;
      y == 8192 + ((if h == 1 then v else -v) + 8) / 16 && 0 <= y < 0x4000
  {
    hide *;
    StageIsRegistered(s, accs, n, lut);
    PhaseFields(accs[n], h, a, f, r);
    SineIsRegistered(accs[n], StageRun(s, accs, n + 5, lut).lfsr, lut);
  }

  lemma PhaseFields(acc: Phase, h: int, a: int, f: int, r: int)
    requires acc == h * 0x400_0000_0000 + a * 0x1_0000_0000 + f * 0x4000 + r
    requires 0 <= h < 2 && 0 <= a < 1024 && 0 <= f < 0x4_0000 && 0 <= r < 0x4000
    ensures Half(acc) == (h == 1) && Address(acc) == a && Fraction(acc) == f
  {
    ModUnique(acc, 0x400_0000_0000, h, a * 0x1_0000_0000 + f * 0x4000 + r);
    ModUnique(acc, 0x1_0000_0000, h * 1024 + a, f * 0x4000 + r);
    ModUnique(h * 1024 + a, 1024, h, a);
    ModUnique(acc, 0x4000, (h * 1024 + a) * 0x4_0000 + f, r);
    ModUnique((h * 1024 + a) * 0x4_0000 + f, 0x4_0000, h * 1024 + a, f);
  }

  lemma StageIsRegistered(s: Stage, accs: seq<Phase>, n: nat, lut: Table)
    requires InTable(s) && n + 8 <= |accs|
    ensures StageRun(s, accs, n + 8, lut).y == RegisteredSine(accs[n], Dither(StageRun(s, accs, n + 5, lut).lfsr), lut)
  {
    hide *;
    FirstHalf(s, accs, n, lut);
    SecondHalf(s, accs, n, lut);
  }

  lemma SplitPhase(x: Phase)
    ensures var h, a, f, r := x / 0x400_0000_0000, x / 0x1_0000_0000 % 1024, x / 0x4000 % 0x4_0000, x % 0x4000;
      && x == h * 0x400_0000_0000 + a * 0x1_0000_0000 + f * 0x4000 + r
      && 0 <= h < 2 && (h == 1 <==> x >= 0x400_0000_0000)
  {
    var q := x / 0x4000;
    assert q / 0x4_0000 == x / 0x1_0000_0000 && x / 0x1_0000_0000 / 1024 == x / 0x400_0000_0000;
  }

  lemma SineIsRegistered(acc: Phase, l: Lfsr, lut: Table)
    requires Usable(lut)
    ensures var c := lut[Address(acc)];
      var dither := (if l[5] then 2 else 0) + (if l[6] then 4 else 0) - (if l[7] then 8 else 0);
      var v, y := c.sample + c.slope * Fraction(acc) / 0x200_0000 + dither + 1, RegisteredSine(acc, Dither(l), lut);
      y == 8192 + ((if Half(acc) then v else -v) + 8) / 16 && 0 <= y < 0x4000
  {
    TableRange(lut, acc);
    DitherRange(l);
    hide Interpolation, Wrap, Usable, Address, Fraction, Half, Rounded, Dither, Pow2, InRange, Line;
    var c := lut[Address(acc)];
    SineInRange(c.sample + Interpolation(c, Fraction(acc)), Dither(l), Half(acc));
  }

  lemma TableRange(lut: Table, acc: Phase)
    requires Usable(lut)
    ensures var c, f := lut[Address(acc)], Fraction(acc);
      && 0 <= c.sample + Interpolation(c, f) <= 126976 && Wrap(Interpolation(c, f), 18) == Interpolation(c, f)
      && Interpolation(c, f) == c.slope * f / 0x200_0000
  {
    var c, f := lut[Address(acc)], Fraction(acc);
    assert InRange(c);
    assert 0 <= Line(c, f) <= 126976;
    InterpolationFits(c, f);
    WrapExact(Interpolation(c, f), 18);
    hide Interpolation, Wrap, Fits, Address, Fraction;
  }

  lemma DitherRange(l: Lfsr)
    ensures -8 <= Dither(l) <= 6
    ensures Dither(l) == (if l[5] then 2 else 0) + (if l[6] then 4 else 0) - (if l[7] then 8 else 0)
  {}

  lemma StageStep(s: Stage, accs: seq<Phase>, n: nat, lut: Table)
    requires InTable(s) && n < |accs|
    ensures StageRun(s, accs, n + 1, lut) == StageNext(StageRun(s, accs, n, lut), accs[n], lut)
  {}

  /** What the last three stages make of the registers before them. */
  function Tail(t: Stage): int
    requires InTable(t)
  {
    Rounded(t.sample + t.interp + Dither(t.lfsr) + 1, t.sign[4])
  }

  lemma TailIsRegistered(t: Stage, acc: Phase, lut: Table)
    requires InTable(t) && t.sign[4] == Half(acc) && t.sample == lut[Address(acc)].sample
    requires t.interp == Wrap(Interpolation(lut[Address(acc)], Fraction(acc)), 18)
    ensures Tail(t) == RegisteredSine(acc, Dither(t.lfsr), lut)
  {
    hide Rounded, Wrap, Interpolation, Address, Fraction, Half, Dither;
  }

  /** Look-up and interpolation. */
  lemma FirstHalf(s: Stage, accs: seq<Phase>, n: nat, lut: Table)
    requires InTable(s) && n + 8 <= |accs|
    ensures var t := StageRun(s, accs, n + 5, lut); Tail(t) == RegisteredSine(accs[n], Dither(t.lfsr), lut)
  {
    hide Interpolation, Wrap, Fraction, Half, Dither, LfsrNext, StageRun, Tail, RegisteredSine;
    StageStep(s, accs, n, lut);
    StageStep(s, accs, n + 1, lut);
    StageStep(s, accs, n + 2, lut);
    StageStep(s, accs, n + 3, lut);
    StageStep(s, accs, n + 4, lut);
    var s1, s2, s3, s4 := StageRun(s, accs, n + 1, lut), StageRun(s, accs, n + 2, lut), StageRun(s, accs, n + 3, lut),
      StageRun(s, accs, n + 4, lut);
    assert s4.lutIn == s3.lutData == lut[Address(accs[n])] && s4.frac3 == Fraction(accs[n]);
    assert s1.sign[0] == s2.sign[1] == s3.sign[2] == s4.sign[3] == Half(accs[n]);
    TailIsRegistered(StageRun(s, accs, n + 5, lut), accs[n], lut);
  }

  /** Sum, sign and rounding. */
  lemma SecondHalf(s: Stage, accs: seq<Phase>, n: nat, lut: Table)
    requires InTable(s) && n + 8 <= |accs|
    ensures StageRun(s, accs, n + 8, lut).y == Tail(StageRun(s, accs, n + 5, lut))
  {
    hide Interpolation, Wrap, Address, Fraction, Half, Dither, LfsrNext, StageRun;
    StageStep(s, accs, n + 5, lut);
    StageStep(s, accs, n + 6, lut);
    StageStep(s, accs, n + 7, lut);
  }

  /** The registers qv, yt and y_o. */
  function Rounded(v: int, half: bool): int {
    var qv := Wrap(v, 18);
    var yt := (if half then qv else Wrap(-qv, 18)) / 8;
    (yt / 2 % 0x4000 + 8192 + yt % 2) % 0x4000
  }

  lemma SineInRange(v: int, dither: int, half: bool)
    requires 0 <= v <= 126976 && -8 <= dither <= 6
    ensures var w := v + dither + 1;
      Rounded(w, half) == 8192 + ((if half then w else -w) + 8) / 16 && 0 <= Rounded(w, half) < 0x4000
  {
    hide Wrap;
    var w := v + dither + 1;
    FitsRegister(w);
    FitsRegister(-w);
    Rounding(w, half);
  }

  lemma FitsRegister(w: int)
    requires -131072 <= w < 131072
    ensures Wrap(w, 18) == w
  {
    Pow2Constants();
    WrapExact(w, 18);
    hide Wrap;
  }

  lemma {:induction false} StageExtends(s: Stage, accs: seq<Phase>, acc: Phase, n: nat, lut: Table)
    requires InTable(s) && n <= |accs|
    ensures StageRun(s, accs + [acc], n, lut) == StageRun(s, accs, n, lut)
  {
    hide StageNext;
    if n > 0 {
      StageExtends(s, accs, acc, n - 1, lut);
      assert (accs + [acc])[n - 1] == accs[n - 1];
    }
  }

  class SineStage {
    const lut: Table
    var addr0: int
    var sign: seq<bool>
    var lutAddr: int
    var lutData: Cell
    var lutIn: Cell
    var frac0: int
    var frac1: int
    var frac2: int
    var frac3: int
    var interp: int
    var sample: int
    var qv: int
    var yt: int
    var y: int
    var lfsr: Lfsr
    ghost const start: Stage
    ghost var history: seq<Phase>

    ghost function Registers(): Stage
      reads this
    {
      Stage(addr0, sign, lutAddr, lutData, lutIn, frac0, frac1, frac2, frac3, interp, sample, qv, yt, y, lfsr)
    }

    ghost predicate Valid()
      reads this
    {
      InTable(start) && Registers() == StageRun(start, history, |history|, lut)
    }

    constructor (lut: Table, init: Lfsr)
      ensures Valid() && history == [] && this.lut == lut && lfsr == init
    {
      var none := Cell(0, 0);
      this.lut, lfsr, history := lut, init, [];
      addr0, lutAddr, lutData, lutIn, frac0, frac1, frac2, frac3 := 0, 0, none, none, 0, 0, 0, 0;
      interp, sample, qv, yt, y := 0, 0, 0, 0, 0;
      sign := [false, false, false, false, false, false, false, false, false];
      start := Stage(0, [false, false, false, false, false, false, false, false, false], 0, none, none, 0, 0, 0, 0,
        0, 0, 0, 0, 0, init);
    }

    /** Sum, sign and rounding, the last stage first. */
    method ClockOutput()
      requires |sign| == 9
      modifies this`y, this`yt, this`qv
      ensures y == (old(yt) / 2 % 0x4000 + 8192 + old(yt) % 2) % 0x4000
      ensures yt == (if sign[5] then old(qv) else Wrap(-old(qv), 18)) / 8
      ensures qv == Wrap(sample + interp + Dither(lfsr) + 1, 18)
    {
      hide Wrap, Dither;
      if yt % 2 == 1 { y := (yt / 2 % 0x4000 + 8192 + 1) % 0x4000; } else { y := (yt / 2 % 0x4000 + 8192) % 0x4000; }
      if sign[5] { yt := qv / 8; } else { yt := Wrap(-qv, 18) / 8; }
      qv := Wrap(sample + interp + Dither(lfsr) + 1, 18);
    }

    /** Look-up and interpolation, the last stage first. */
    method ClockLookup(acc: Phase)
      requires 0 <= lutAddr < 1024
      modifies this`addr0, this`lutAddr, this`lutData, this`lutIn, this`frac0, this`frac1, this`frac2, this`frac3,
        this`interp, this`sample
      ensures interp == Wrap(Interpolation(old(lutIn), old(frac3)), 18) && sample == old(lutIn).sample
      ensures frac3 == old(frac2) && frac2 == old(frac1) && frac1 == old(frac0) && frac0 == Fraction(acc)
      ensures lutIn == old(lutData) && lutData == lut[old(lutAddr)] && lutAddr == old(addr0) && addr0 == Address(acc)
    {
      hide Wrap, Interpolation, Address, Fraction;
      interp, sample := Wrap(Interpolation(lutIn, frac3), 18), lutIn.sample;
      frac3, frac2, frac1, frac0 := frac2, frac1, frac0, Fraction(acc);
      lutIn, lutData, lutAddr, addr0 := lutData, lut[lutAddr], addr0, Address(acc);
    }

    method ClockRegisters(acc: Phase)
      requires InTable(Registers())
      modifies this`addr0, this`lutAddr, this`lutData, this`lutIn, this`frac0, this`frac1, this`frac2, this`frac3,
        this`interp, this`sample, this`y, this`yt, this`qv, this`sign, this`lfsr
      ensures Registers() == StageNext(old(Registers()), acc, lut)
    {
      hide Wrap, Interpolation, Address, Fraction, Dither, LfsrNext, Half;
      ClockOutput();
      ClockLookup(acc);
      sign := [Half(acc)] + sign[..8];
      lfsr := LfsrNext(lfsr);
    }

    /** One rising edge.  The output is the sine of the phase of eight edges ago. */
    method Clock(acc: Phase)
      requires Valid()
      modifies this
      ensures Valid() && history == old(history) + [acc]
      ensures Usable(lut) && |history| >= 8 ==>
        var x, l := history[|history| - 8], StageRun(start, history, |history| - 3, lut).lfsr;
        var c, f := lut[x / 0x1_0000_0000 % 1024], x / 0x4000 % 0x4_0000;
        var dither := (if l[5] then 2 else 0) + (if l[6] then 4 else 0) - (if l[7] then 8 else 0);
        var v := c.sample + c.slope * f / 0x200_0000 + dither + 1;
        y == 8192 + ((if x >= 0x400_0000_0000 then v else -v) + 8) / 16 && 0 <= y < 0x4000
    {
      hide StageNext, Usable, InTable;
      ClockRegisters(acc);
      StageExtends(start, history, acc, |history|, lut);
      history := history + [acc];
      if Usable(lut) && |history| >= 8 {
        var x := history[|history| - 8];
        SplitPhase(x);
        SinePipeline(start, history, |history| - 8, lut, x / 0x400_0000_0000, x / 0x1_0000_0000 % 1024,
          x / 0x4000 % 0x4_0000, x % 0x4000);
      }
    }
  }

  // ----- the dither generator -----

  function LfsrRun(l: Lfsr, n: nat): Lfsr {
    if n == 0 then l else LfsrNext(LfsrRun(l, n - 1))
  }

  /** Bit k of a number. */
  predicate BitOf(w: nat, k: nat) {
    if k == 0 then w % 2 == 1 else BitOf(w / 2, k - 1)
  }

  lemma {:induction false} ShiftedBits(v: nat, m: nat, k: nat)
    ensures BitOf(v * Pow2(m), k) == (k >= m && BitOf(v, k - m))
  {
    if m > 0 {
      assert v * Pow2(m) == 2 * (v * Pow2(m - 1));
      if k > 0 { ShiftedBits(v, m - 1, k - 1); }
    }
  }

  /** A shift to the right, and when a one falls out of the register, the tap word D0000001 is added bit by bit. */
  lemma {:induction false} GeneratorShifts(l: Lfsr, k: nat)
    requires k < 32
    ensures LfsrNext(l)[k] == ((k < 31 && l[k + 1]) != (l[0] && BitOf(0xD000_0001, k)))
  {
    if k > 0 {
      Pow2Constants();
      Pow2Sum(10, 17);
      var j := k - 1;
      assert 0xD000_0001 / 2 == 13 * Pow2(27);
      ShiftedBits(13, 27, j);
      assert j >= 27 ==> j == 27 || j == 28 || j == 29 || j == 30;
    }
  }

  /** The generator of the pipeline runs on its own. */
  lemma {:induction false} StageGenerates(s: Stage, accs: seq<Phase>, n: nat, lut: Table)
    requires InTable(s) && n <= |accs|
    ensures StageRun(s, accs, n, lut).lfsr == LfsrRun(s.lfsr, n)
  {
    hide LfsrNext, Wrap, Interpolation, Address, Fraction, Half, Dither;
    if n > 0 { StageGenerates(s, accs, n - 1, lut); }
  }

  predicate AllZero(l: Lfsr) {
    forall k | 0 <= k < 32 :: !l[k]
  }

  lemma LfsrStep(l: Lfsr)
    ensures AllZero(LfsrNext(l)) <==> AllZero(l)
  {
    var t := LfsrNext(l);
    if AllZero(t) {
      assert !t[31];
      assert !l[0];
      forall k | 1 <= k < 32 ensures !l[k] {
        assert !t[k - 1];
      }
    }
  }

  /** The generator runs for ever exactly when it does not start at zero; channel 0 of the four starts
      at zero and is never dithered. */
  lemma {:induction false} DitherLives(l: Lfsr, n: nat)
    ensures AllZero(LfsrRun(l, n)) <==> AllZero(l)
    ensures AllZero(l) ==> Dither(LfsrRun(l, n)) == 0
  {
    if n > 0 {
      DitherLives(l, n - 1);
      LfsrStep(LfsrRun(l, n - 1));
    }
  }
}

// The PI controller: a five-stage pipeline whose saturation flags stop the integrator, several
// cycles after the sample that caused them.  One call of Next is one rising clock edge.
module PiControl {
  import opened Bits

  const GOAL: int := 32768
  const LIMIT: int := 32767

  type Adc = v: int | 0 <= v < 65536
  type Gain = v: int | -32768 <= v < 32768

  datatype Input = Input(rst: bool, valid: bool, d: Adc)

  datatype State = State(
    acc: int, d0: int, stage0: bool,
    acc0: int, d1: int, stage1: bool,
    termI: int, termP: int, stage2: bool,
    sum: int, stage3: bool,
    clipPlus: bool, clipMinus: bool, q: int, qValid: bool)

  const POWER_UP: State :=
    State(0, 0, false, 0, 0, false, 0, 0, false, 0, false, false, false, 0, false)

  /** The reset branch leaves the data registers as they are. */
  function Reset(s: State): State {
    State(0, s.d0, false, s.acc0, s.d1, false, s.termI, s.termP, false, s.sum, false, false, false, s.q, false)
  }

  /** v >> n, v being a register of `width` bits and the result one of `target` bits. */
  function StoreShifted(v: int, n: nat, width: nat, target: nat, ideal: bool): int
    requires width >= 1 && target >= 1
  {
    if ideal then v / Pow2(n) else Wrap(ShiftRight(Wrap(v, width), n, width), target)
  }

  function Deviation(i: Input): int {
    i.d - GOAL
  }

  /** While a flag is up, the integrator only moves back. */
  predicate Integrates(clipPlus: bool, clipMinus: bool, i: Input) {
    var ds := Deviation(i);
    i.valid && ((clipPlus && ds < 0) || (clipMinus && ds > 0) || (!clipPlus && !clipMinus))
  }

  function Next(s: State, i: Input, ki: Gain, kp: Gain, ideal: bool): State {
    if i.rst then Reset(s)
    else
      State(
        if Integrates(s.clipPlus, s.clipMinus, i) then Store(s.acc + Deviation(i), 40, ideal) else s.acc,
        if i.valid then Deviation(i) else s.d0,
        i.valid,
        StoreShifted(s.acc, 6, 40, 34, ideal),
        s.d0,
        s.stage0,
        StoreShifted(s.acc0 * ki, 16, 54, 24, ideal),
        StoreShifted(s.d1 * kp, 16, 54, 24, ideal),
        s.stage1,
        Store(s.termP + s.termI, 24, ideal),
        s.stage2,
        if s.stage3 then s.sum > LIMIT else s.clipPlus,
        if s.stage3 then s.sum < -LIMIT else s.clipMinus,
        if s.stage3 then Saturate(s.sum) else s.q,
        s.stage3)
  }

  function Saturate(v: int): int {
    if v < -LIMIT then -LIMIT else if v > LIMIT then LIMIT else v
  }

  function Run(ins: seq<Input>, ki: Gain, kp: Gain, ideal: bool): State {
    if ins == [] then POWER_UP
    else Next(Run(ins[..|ins| - 1], ki, kp, ideal), ins[|ins| - 1], ki, kp, ideal)
  }

  // ----- anti-windup -----

  /** The largest value of acc0 whose integral term can be below 49152, which is 32767 + 16385. */
  function Knee(ki: int): int
    requires ki >= 1
  {
    49152 * 65536 / ki
  }

  function Count(b: bool): int {
    if b then 1 else 0
  }

  /** Samples that are still on their way to the saturation flags. */
  function InFlight(s: State): int {
    Count(s.stage0) + Count(s.stage1) + Count(s.stage2) + Count(s.stage3)
  }

  /** acc has not been pushed up past the knee by more than n full-scale samples. */
  predicate NotAbove(acc: int, ki: int, n: int)
    requires ki >= 1
  {
    acc <= 64 * Knee(ki) + 63 + 32768 * n
  }

  predicate NotBelow(acc: int, ki: int, n: int)
    requires ki >= 1
  {
    acc >= -64 * Knee(ki) - 32768 * n
  }

  /** The integrator stays near the knee, and nearer while its flag is down. */
  ghost predicate Flags(s: State, ki: int)
    requires ki >= 1
  {
    && !(s.clipPlus && s.clipMinus)
    && NotAbove(s.acc, ki, 5) && NotBelow(s.acc, ki, 5)
    && (!s.clipPlus ==> NotAbove(s.acc, ki, InFlight(s)))
    && (!s.clipMinus ==> NotBelow(s.acc, ki, InFlight(s)))
  }

  /** What each pipeline register says about the integrator, which has moved on since. */
  ghost predicate Pipeline(s: State, ki: int)
    requires ki >= 1
  {
    var n1, n2 := Count(s.stage0), Count(s.stage0) + Count(s.stage1);
    var n3 := n2 + Count(s.stage2);
    && (s.stage1 ==> 64 * s.acc0 - 32768 * n1 <= s.acc <= 64 * s.acc0 + 63 + 32768 * n1)
    && (s.stage2 && s.termI < 49152 ==> NotAbove(s.acc, ki, n2))
    && (s.stage2 && s.termI > -49152 ==> NotBelow(s.acc, ki, n2))
    && (s.stage3 && s.sum <= LIMIT ==> NotAbove(s.acc, ki, n3))
    && (s.stage3 && s.sum >= -LIMIT ==> NotBelow(s.acc, ki, n3))
  }

  ghost predicate AntiWindup(s: State, ki: int)
    requires ki >= 1
  {
    Flags(s, ki) && Pipeline(s, ki)
  }

  predicate IsDeviation(v: int) {
    -32768 <= v <= 32767
  }

  /** Every register holds a value of its declared width; the products too. */
  predicate InRange(s: State, ki: int) {
    && Fits(s.acc, 40) && Fits(s.acc0, 34)
    && IsDeviation(s.d0) && IsDeviation(s.d1)
    && -51000 <= s.acc / 64 * ki / 65536 <= 51000
    && -51000 <= s.acc0 * ki / 65536 <= 51000
    && -51000 <= s.termI <= 51000 && -16384 <= s.termP <= 16384
    && -67384 <= s.sum <= 67384
  }

  lemma ProportionalTerm(d: int, kp: Gain)
    requires IsDeviation(d)
    ensures -1073741824 <= d * kp <= 1073741824 && -16384 <= d * kp / 65536 <= 16384
  {
    AbsProduct(d, kp, 32768, 32768);
  }

  lemma KneeBounds(ki: int)
    requires ki >= 1
    ensures 0 <= Knee(ki) <= 49152 * 65536 && Knee(ki) * ki <= 49152 * 65536 < (Knee(ki) + 1) * ki
  {
    var n := 49152 * 65536;
    assert n == Knee(ki) * ki + n % ki;
    assert (Knee(ki) + 1) * ki == Knee(ki) * ki + ki;
    MulMonotone(1, ki, Knee(ki));
    assert Knee(ki) * ki == ki * Knee(ki);
  }

  lemma KneeCrossed(acc0: int, ki: int)
    requires ki >= 1
    ensures acc0 * ki / 65536 < 49152 ==> acc0 <= Knee(ki)
    ensures acc0 * ki / 65536 > -49152 ==> acc0 >= -Knee(ki)
  {
    KneeBounds(ki);
    MulMonotone(Knee(ki) + 1, acc0, ki);
    MulMonotone(acc0, -Knee(ki) - 1, ki);
    assert (-Knee(ki) - 1) * ki == -((Knee(ki) + 1) * ki);
  }

  lemma KneeIsSafe(acc: int, ki: int)
    requires 1 <= ki <= 32767 && NotAbove(acc, ki, 5) && NotBelow(acc, ki, 5)
    ensures Fits(acc, 40) && Fits(acc / 64, 34) && -51000 <= acc / 64 * ki / 65536 <= 51000
    ensures -4000000000 < acc / 64 * ki < 4000000000
  {
    var m, a := Knee(ki), acc / 64;
    KneeBounds(ki);
    Pow2Constants();
    hide Pow2, Knee;
    MulMonotone(a, m + 2561, ki);
    MulMonotone(-m - 2560, a, ki);
    assert (m + 2561) * ki == m * ki + 2561 * ki;
    assert (-m - 2560) * ki == -(m * ki) - 2560 * ki;
  }

  lemma FlagsStep(s: State, i: Input, ki: Gain, kp: Gain)
    requires ki >= 1 && AntiWindup(s, ki)
    ensures Flags(Next(s, i, ki, kp, true), ki)
  {
    KneeBounds(ki);
    hide Knee, StoreShifted;
  }

  lemma PipelineMoves(s: State, t: State, ki: int, n: int)
    requires ki >= 1 && Pipeline(s, ki) && InRange(s, ki) && n == Count(t.stage0)
    requires t.stage1 == s.stage0 && t.stage2 == s.stage1 && t.stage3 == s.stage2
    requires t.acc0 == s.acc / 64 && t.termI == s.acc0 * ki / 65536 && t.sum == s.termP + s.termI
    requires s.acc - 32768 * n <= t.acc <= s.acc + 32768 * n
    ensures Pipeline(t, ki)
  {
    KneeCrossed(s.acc0, ki);
    hide Knee, Pow2;
    var g := s.acc0 * ki / 65536;
    assert s.stage1 && g < 49152 ==> NotAbove(t.acc, ki, Count(t.stage0) + Count(t.stage1));
    assert s.stage1 && g > -49152 ==> NotBelow(t.acc, ki, Count(t.stage0) + Count(t.stage1));
  }

  lemma PipelineStep(s: State, i: Input, ki: Gain, kp: Gain)
    requires ki >= 1 && AntiWindup(s, ki) && InRange(s, ki)
    ensures Pipeline(Next(s, i, ki, kp, true), ki)
  {
    Pow2Constants();
    hide Pow2, Wrap, Saturate, Flags, InRange;
    if !i.rst {
      PipelineMoves(s, Next(s, i, ki, kp, true), ki, Count(i.valid));
    }
  }

  lemma InRangeStep(s: State, i: Input, ki: Gain, kp: Gain)
    requires ki >= 1 && AntiWindup(s, ki) && InRange(s, ki)
    ensures InRange(Next(s, i, ki, kp, true), ki)
  {
    FlagsStep(s, i, ki, kp);
    KneeIsSafe(s.acc, ki);
    KneeIsSafe(Next(s, i, ki, kp, true).acc, ki);
    ProportionalTerm(s.d1, kp);
    Pow2Constants();
    hide Pow2, Knee, Wrap, AntiWindup;
  }

  lemma StoreProduct(v: int)
    requires -51000 <= v / 65536 <= 51000
    ensures StoreShifted(v, 16, 54, 24, false) == v / 65536 == StoreShifted(v, 16, 54, 24, true)
  {
    Pow2Constants();
    Pow2Monotone(33, 53);
    WrapExact(v, 54);
    ShiftExact(v, 16, 54, 24);
  }

  lemma StoresAreExact(s: State, ki: Gain, kp: Gain)
    requires ki >= 1 && Flags(s, ki) && InRange(s, ki)
    ensures StoreShifted(s.acc, 6, 40, 34, false) == StoreShifted(s.acc, 6, 40, 34, true)
    ensures StoreShifted(s.acc0 * ki, 16, 54, 24, false) == StoreShifted(s.acc0 * ki, 16, 54, 24, true)
    ensures StoreShifted(s.d1 * kp, 16, 54, 24, false) == StoreShifted(s.d1 * kp, 16, 54, 24, true)
    ensures Store(s.termP + s.termI, 24, false) == s.termP + s.termI
  {
    KneeIsSafe(s.acc, ki);
    Pow2Constants();
    WrapExact(s.acc, 40);
    ShiftExact(s.acc, 6, 40, 34);
    StoreProduct(s.acc0 * ki);
    ProportionalTerm(s.d1, kp);
    StoreProduct(s.d1 * kp);
    WrapExact(s.termP + s.termI, 24);
    hide Wrap, ShiftRight, Pow2;
  }

  /** In range, the registers as declared behave like unbounded integers. */
  lemma StepIsExact(s: State, i: Input, ki: Gain, kp: Gain)
    requires ki >= 1 && AntiWindup(s, ki) && InRange(s, ki)
    ensures Next(s, i, ki, kp, false) == Next(s, i, ki, kp, true)
  {
    hide Pow2, Knee, Wrap, Pipeline, StoreShifted, InRange, Saturate, InFlight;
    var acc := Next(s, i, ki, kp, true).acc;
    FlagsStep(s, i, ki, kp);
    KneeIsSafe(acc, ki);
    WrapExact(acc, 40);
    StoresAreExact(s, ki, kp);
  }

  lemma {:induction false} RunKeepsRange(ins: seq<Input>, ki: Gain, kp: Gain)
    requires ki >= 1
    ensures AntiWindup(Run(ins, ki, kp, true), ki) && InRange(Run(ins, ki, kp, true), ki)
  {
    if ins == [] {
      KneeBounds(ki);
      Pow2Constants();
    } else {
      var s := Run(ins[..|ins| - 1], ki, kp, true);
      var i := ins[|ins| - 1];
      RunKeepsRange(ins[..|ins| - 1], ki, kp);
      FlagsStep(s, i, ki, kp);
      PipelineStep(s, i, ki, kp);
      InRangeStep(s, i, ki, kp);
    }
  }

  /** No register of the design ever overflows, whatever the samples, their spacing, the resets and
      kp are: the machine computes over ideal integers. */
  lemma {:induction false} NeverWindsUp(ins: seq<Input>, ki: Gain, kp: Gain)
    requires ki >= 1
    ensures Run(ins, ki, kp, false) == Run(ins, ki, kp, true)
    ensures InRange(Run(ins, ki, kp, true), ki)
  {
    RunKeepsRange(ins, ki, kp);
    if ins != [] {
      var before := ins[..|ins| - 1];
      NeverWindsUp(before, ki, kp);
      RunKeepsRange(before, ki, kp);
      StepIsExact(Run(before, ki, kp, true), ins[|ins| - 1], ki, kp);
    }
  }

  predicate AllFit(s: State) {
    Fits(s.acc, 40) && Fits(s.acc0, 34) && Fits(s.termI, 24) && Fits(s.termP, 24) && Fits(s.sum, 24)
  }

  function FullScale(n: nat): seq<Input> {
    seq(n, _ => Input(false, true, 65535))
  }

  ghost predicate Ramping(s: State, n: nat) {
    && s.acc == 32767 * n && !s.clipPlus
    && s.acc0 >= 0 && s.d0 >= 0 && s.d1 >= 0 && s.termI <= 0 && s.termP == 0 && s.sum <= 0
  }

  lemma RampingStep(s: State, ki: Gain, n: nat)
    requires ki <= 0 && Ramping(s, n)
    ensures Ramping(Next(s, Input(false, true, 65535), ki, 0, true), n + 1)
  {
    MulMonotone(0, s.acc0, -(ki as int));
    assert s.acc0 * ki <= 0;
    Pow2Constants();
    hide Pow2, Wrap, ShiftRight;
  }

  /** With ki <= 0 nothing ever stops the integrator from following a full-scale input. */
  lemma {:induction false} WindsUp(ki: Gain, n: nat)
    requires ki <= 0
    ensures Ramping(Run(FullScale(n), ki, 0, true), n)
  {
    if n > 0 {
      assert FullScale(n)[..n - 1] == FullScale(n - 1);
      WindsUp(ki, n - 1);
      RampingStep(Run(FullScale(n - 1), ki, 0, true), ki, n - 1);
    }
  }

  /** The anti-windup works for exactly the positive integral gains. */
  lemma SafeGains(ki: Gain)
    ensures (forall ins, kp: Gain :: AllFit(Run(ins, ki, kp, true))) <==> ki >= 1
  {
    Pow2Constants();
    if ki >= 1 {
      forall ins, kp: Gain ensures AllFit(Run(ins, ki, kp, true)) {
        NeverWindsUp(ins, ki, kp);
      }
    } else {
      var n := 16777729;
      WindsUp(ki, n);
      assert !AllFit(Run(FullScale(n), ki, 0, true));
    }
  }

  // ----- latency and output -----

  /** What the controller computes from a sample d, acc being the integral that includes it. */
  function Wanted(acc: int, d: Adc, ki: int, kp: int): int {
    acc / 64 * ki / 65536 + (d - 32768) * kp / 65536
  }

  /** The control law over ideal integers. */
  function ControlLaw(acc: int, d: Adc, ki: int, kp: int): int {
    var u := Wanted(acc, d, ki, kp);
    if u > 32767 then 32767 else if u < -32767 then -32767 else u
  }

  lemma {:induction false} RunPrefix(ins: seq<Input>, n: nat, ki: Gain, kp: Gain, ideal: bool)
    requires n < |ins|
    ensures Run(ins[..n + 1], ki, kp, ideal) == Next(Run(ins[..n], ki, kp, ideal), ins[n], ki, kp, ideal)
  {
    assert ins[..n + 1][..n] == ins[..n];
  }

  /** One step of the pipeline from s to t. */
  ghost predicate Moved(s: State, t: State, i: Input, ki: Gain, kp: Gain) {
    && t.stage0 == (i.valid && !i.rst) && t.stage1 == (s.stage0 && !i.rst) && t.stage2 == (s.stage1 && !i.rst)
    && t.stage3 == (s.stage2 && !i.rst) && t.qValid == (s.stage3 && !i.rst)
    && (!i.rst ==>
      && (i.valid ==> t.d0 == i.d - 32768) && t.d1 == s.d0 && t.acc0 == s.acc / 64
      && t.termI == s.acc0 * ki / 65536 && t.termP == s.d1 * kp / 65536 && t.sum == s.termP + s.termI
      && (s.stage3 ==> Decided(t, s.sum)))
  }

  /** The output and the flags for a sum. */
  ghost predicate Decided(t: State, u: int) {
    && t.q == (if u > 32767 then 32767 else if u < -32767 then -32767 else u)
    && t.clipPlus == (u > 32767) && t.clipMinus == (u < -32767)
  }

  lemma NextMoves(s: State, i: Input, ki: Gain, kp: Gain)
    ensures Moved(s, Next(s, i, ki, kp, true), i, ki, kp)
  {
    Pow2Constants();
    hide Pow2, Wrap;
  }

  lemma {:induction false} RunMoves(ins: seq<Input>, n: nat, ki: Gain, kp: Gain)
    requires n < |ins|
    ensures Moved(Run(ins[..n], ki, kp, true), Run(ins[..n + 1], ki, kp, true), ins[n], ki, kp)
  {
    RunPrefix(ins, n, ki, kp, true);
    NextMoves(Run(ins[..n], ki, kp, true), ins[n], ki, kp);
  }

  /** Exactly the valid samples that meet no reset come out, five cycles later, through the control law applied
      to the integral that includes the sample; the flags tell whether it had to saturate. */
  lemma OutputAfterFiveCycles(ins: seq<Input>, n: nat, ki: Gain, kp: Gain)
    requires ki >= 1 && n + 5 <= |ins|
    ensures var s := Run(ins[..n + 5], ki, kp, false);
      && s.qValid == (ins[n].valid && forall k | n <= k < n + 5 :: !ins[k].rst)
      && (s.qValid ==> var acc := Run(ins[..n + 1], ki, kp, false).acc;
        && s.q == ControlLaw(acc, ins[n].d, ki, kp)
        && (s.clipPlus <==> Wanted(acc, ins[n].d, ki, kp) > 32767)
        && (s.clipMinus <==> Wanted(acc, ins[n].d, ki, kp) < -32767))
  {
    hide Run;
    NeverWindsUp(ins[..n + 1], ki, kp);
    NeverWindsUp(ins[..n + 5], ki, kp);
    RunMoves(ins, n, ki, kp);
    RunMoves(ins, n + 1, ki, kp);
    RunMoves(ins, n + 2, ki, kp);
    RunMoves(ins, n + 3, ki, kp);
    RunMoves(ins, n + 4, ki, kp);
  }

  /** What q_o and q_valid_o must be after a history of inputs. */
  ghost predicate ObeysControlLaw(ins: seq<Input>, ki: Gain, kp: Gain, qValid: bool, q: int) {
    var n := |ins| - 5;
    if n < 0 then !qValid
    else
      && qValid == (ins[n].valid && forall k | n <= k < n + 5 :: !ins[k].rst)
      && (qValid ==> q == ControlLaw(Run(ins[..n + 1], ki, kp, false).acc, ins[n].d, ki, kp))
  }

  lemma {:induction false} OutputObeysControlLaw(ins: seq<Input>, ki: Gain, kp: Gain)
    requires ki >= 1
    ensures ObeysControlLaw(ins, ki, kp, Run(ins, ki, kp, false).qValid, Run(ins, ki, kp, false).q)
  {
    hide ControlLaw, Wanted, Run;
    if |ins| >= 5 {
      OutputAfterFiveCycles(ins, |ins| - 5, ki, kp);
      assert ins[..|ins| - 5 + 5] == ins;
    } else {
      NothingOutYet(ins, ki, kp);
    }
  }

  /** How many more cycles at least pass before the output is valid. */
  lemma {:induction false} NothingOutYet(ins: seq<Input>, ki: Gain, kp: Gain)
    ensures var s, n := Run(ins, ki, kp, false), |ins|;
      (n < 1 ==> !s.stage0) && (n < 2 ==> !s.stage1) && (n < 3 ==> !s.stage2) && (n < 4 ==> !s.stage3)
      && (n < 5 ==> !s.qValid)
  {
    if ins != [] { NothingOutYet(ins[..|ins| - 1], ki, kp); }
  }

  // ----- where the integrator goes -----

  /** One edge of the integrator. */
  ghost predicate Integrated(s: State, t: State, i: Input) {
    var x := i.d - 32768;
    && (i.rst ==> t.acc == 0 && !t.clipPlus && !t.clipMinus)
    && (!i.rst && i.valid && !s.clipPlus && !s.clipMinus ==> t.acc == s.acc + x)
    && (!i.rst && i.valid && s.clipPlus ==> t.acc == s.acc + if x < 0 then x else 0)
    && (!i.rst && i.valid && s.clipMinus ==> t.acc == s.acc + if x > 0 then x else 0)
    && (!i.rst && !i.valid ==> t.acc == s.acc)
    && !(s.clipPlus && s.clipMinus)
  }

  /** Every valid sample is added in full, unless a flag is up that it would keep up: then it is left out. */
  lemma {:induction false} IntegratorMoves(ins: seq<Input>, n: nat, ki: Gain, kp: Gain)
    requires ki >= 1 && n < |ins|
    ensures Integrated(Run(ins[..n], ki, kp, false), Run(ins[..n + 1], ki, kp, false), ins[n])
  {
    NeverWindsUp(ins[..n], ki, kp);
    NeverWindsUp(ins[..n + 1], ki, kp);
    RunKeepsRange(ins[..n], ki, kp);
    RunPrefix(ins, n, ki, kp, true);
    hide Run, StoreShifted, Pipeline, NotAbove, NotBelow, InRange;
  }

  function Clamp(x: int, lo: int, hi: int): int {
    if x < lo then lo else if x > hi then hi else x
  }

  /** The sum of the valid samples from the m-th to before the n-th, each less 32768 and clamped. */
  function Total(ins: seq<Input>, m: nat, n: nat, lo: int, hi: int): int
    requires m <= n <= |ins|
  {
    if n == m then 0
    else Total(ins, m, n - 1, lo, hi) + if ins[n - 1].valid then Clamp(ins[n - 1].d - 32768, lo, hi) else 0
  }

  /** No reset from the m-th to before the n-th input, and the flags before each of them as given. */
  ghost predicate Steady(ins: seq<Input>, m: nat, n: nat, ki: Gain, kp: Gain, plus: bool, minus: bool)
    requires m <= n <= |ins|
  {
    forall k | m <= k < n ::
      && !ins[k].rst
      && Run(ins[..k], ki, kp, false).clipPlus == plus && Run(ins[..k], ki, kp, false).clipMinus == minus
  }

  /** While no flag is up the integrator is the sum of the deviations of the valid samples; while one is up, of
      those on the other side of the goal. */
  lemma {:induction false} IntegratorAdds(ins: seq<Input>, m: nat, n: nat, ki: Gain, kp: Gain, plus: bool, minus: bool)
    requires ki >= 1 && m <= n <= |ins| && Steady(ins, m, n, ki, kp, plus, minus)
    ensures Run(ins[..n], ki, kp, false).acc == Run(ins[..m], ki, kp, false).acc
      + Total(ins, m, n, if minus then 0 else -32768, if plus then 0 else 32767)
  {
    hide Run;
    if m < n {
      IntegratorAdds(ins, m, n - 1, ki, kp, plus, minus);
      IntegratorMoves(ins, n - 1, ki, kp);
    }
  }

  predicate Flag(s: State, plus: bool) {
    if plus then s.clipPlus else s.clipMinus
  }

  /** The valid samples from the m-th to before the n-th are all on the other side of the goal. */
  ghost predicate PullsBack(ins: seq<Input>, m: nat, n: nat, plus: bool)
    requires m <= n <= |ins|
  {
    forall k | m <= k < n && ins[k].valid :: if plus then ins[k].d < 32768 else ins[k].d > 32768
  }

  /** How far these samples pull the integrator back. */
  function Pull(ins: seq<Input>, m: nat, n: nat, plus: bool): int
    requires m <= n <= |ins|
  {
    if plus then -Total(ins, m, n, -32768, 32767) else Total(ins, m, n, -32768, 32767)
  }

  lemma {:induction false} OneSided(ins: seq<Input>, m: nat, n: nat, plus: bool)
    requires m <= n <= |ins| && PullsBack(ins, m, n, plus)
    ensures Total(ins, m, n, if plus then -32768 else 0, if plus then 0 else 32767) == Total(ins, m, n, -32768, 32767)
  {
    if m < n { OneSided(ins, m, n - 1, plus); }
  }

  lemma {:induction false} LastValid(ins: seq<Input>, m: nat, n: nat) returns (j: nat)
    requires m <= n <= |ins| && Total(ins, m, n, -32768, 32767) != 0
    ensures m <= j < n && ins[j].valid && Total(ins, m, j + 1, -32768, 32767) == Total(ins, m, n, -32768, 32767)
  {
    if ins[n - 1].valid { j := n - 1; } else { j := LastValid(ins, m, n - 1); }
  }

  /** The distance from the goal that no flagged integrator exceeds. */
  function Reach(ki: Gain): int
    requires ki >= 1
  {
    64 * (3221225472 / ki) + 163903
  }

  lemma {:induction false} WithinReach(ins: seq<Input>, ki: Gain, kp: Gain)
    requires ki >= 1
    ensures -Reach(ki) <= Run(ins, ki, kp, false).acc <= Reach(ki)
  {
    NeverWindsUp(ins, ki, kp);
    RunKeepsRange(ins, ki, kp);
    hide Run, Pipeline, InRange, InFlight;
  }

  /** On the other side of zero the integral cannot saturate the output, whatever the proportional term adds. */
  lemma BeyondZero(acc: int, d: Adc, ki: Gain, kp: Gain)
    requires ki >= 1
    ensures acc <= 0 ==> Wanted(acc, d, ki, kp) <= 16384
    ensures acc >= 0 ==> Wanted(acc, d, ki, kp) >= -16384
  {
    ProportionalTerm(d - 32768, kp);
    MulMonotone(acc / 64, 0, ki);
    MulMonotone(0, acc / 64, ki);
  }

  /** Nothing latches up.  Once valid samples on the other side of the goal have pulled by 64*floor(3*2^30/ki) and
      five full-scale samples, the flag comes down within five more cycles, whatever kp is. */
  lemma FlagComesDown(ins: seq<Input>, m: nat, n: nat, ki: Gain, kp: Gain, plus: bool) returns (k: nat)
    requires ki >= 1 && m <= n && n + 5 <= |ins| && forall j | m <= j < n + 5 :: !ins[j].rst
    requires Flag(Run(ins[..m], ki, kp, false), plus)
    requires PullsBack(ins, m, n, plus) && Pull(ins, m, n, plus) >= Reach(ki)
    ensures m < k <= n + 5 && !Flag(Run(ins[..k], ki, kp, false), plus)
  {
    hide Run, Total, PullsBack;
    k := m;
    while k < n && Flag(Run(ins[..k], ki, kp, false), plus)
      invariant m <= k <= n && forall j | m <= j < k :: Flag(Run(ins[..j], ki, kp, false), plus)
    {
      k := k + 1;
    }
    if Flag(Run(ins[..k], ki, kp, false), plus) {
      FlagsExclude(ins, m, n, ki, kp, plus);
      var j := ComesBack(ins, m, n, ki, kp, plus);
      k := j + 5;
    }
  }

  /** Never both flags. */
  lemma FlagsExclude(ins: seq<Input>, m: nat, n: nat, ki: Gain, kp: Gain, plus: bool)
    requires ki >= 1 && m <= n <= |ins| && forall j | m <= j < n :: !ins[j].rst
    requires forall j | m <= j < n :: Flag(Run(ins[..j], ki, kp, false), plus)
    ensures Steady(ins, m, n, ki, kp, plus, !plus)
  {
    hide Run;
    forall j | m <= j < n ensures var s := Run(ins[..j], ki, kp, false); s.clipPlus == plus && s.clipMinus == !plus {
      IntegratorMoves(ins, j, ki, kp);
    }
  }

  /** The sample with which the integrator has come back, and its output. */
  lemma ComesBack(ins: seq<Input>, m: nat, n: nat, ki: Gain, kp: Gain, plus: bool) returns (j: nat)
    requires ki >= 1 && m <= n && n + 5 <= |ins| && forall j | m <= j < n + 5 :: !ins[j].rst
    requires Steady(ins, m, n, ki, kp, plus, !plus)
    requires PullsBack(ins, m, n, plus) && Pull(ins, m, n, plus) >= Reach(ki)
    ensures m <= j < n && !Flag(Run(ins[..j + 5], ki, kp, false), plus)
  {
    hide Run, Total, Steady, Wanted, ControlLaw;
    j := LastValid(ins, m, n);
    PullsLess(ins, m, j + 1, n, ki, kp, plus);
    OneSided(ins, m, j + 1, plus);
    IntegratorAdds(ins, m, j + 1, ki, kp, plus, !plus);
    WithinReach(ins[..m], ki, kp);
    BeyondZero(Run(ins[..j + 1], ki, kp, false).acc, ins[j].d, ki, kp);
    OutputAfterFiveCycles(ins, j, ki, kp);
  }

  lemma PullsLess(ins: seq<Input>, m: nat, l: nat, n: nat, ki: Gain, kp: Gain, plus: bool)
    requires m <= l <= n <= |ins| && PullsBack(ins, m, n, plus) && Steady(ins, m, n, ki, kp, plus, !plus)
    ensures PullsBack(ins, m, l, plus) && Steady(ins, m, l, ki, kp, plus, !plus)
  {
    hide Run;
  }

  // ----- the registers, clocked in place -----

  class PiController {
    const ki: Gain
    const kp: Gain
    var acc: int
    var d0: int
    var d1: int
    var acc0: int
    var termI: int
    var termP: int
    var sum: int
    var stage0: bool
    var stage1: bool
    var stage2: bool
    var stage3: bool
    var clipPlus: bool
    var clipMinus: bool
    var q: int
    var qValid: bool
    ghost var history: seq<Input>

    ghost function Registers(): State
      reads this
    {
      State(acc, d0, stage0, acc0, d1, stage1, termI, termP, stage2, sum, stage3, clipPlus, clipMinus, q, qValid)
    }

    ghost predicate Valid()
      reads this
    {
      Registers() == Run(history, ki, kp, false)
    }

    constructor (ki: Gain, kp: Gain)
      ensures Valid() && history == [] && this.ki == ki && this.kp == kp
    {
      this.ki, this.kp := ki, kp;
      acc, d0, d1, acc0, termI, termP, sum, q := 0, 0, 0, 0, 0, 0, 0, 0;
      stage0, stage1, stage2, stage3 := false, false, false, false;
      clipPlus, clipMinus, qValid := false, false, false;
      history := [];
    }

    /** The last stage: saturation and its flags. */
    method ClockOutput()
      modifies this`clipPlus, this`clipMinus, this`q, this`qValid
      ensures qValid == stage3
      ensures if stage3
        then clipMinus == (sum < -32767) && clipPlus == (sum > 32767)
          && q == if sum > 32767 then 32767 else if sum < -32767 then -32767 else sum
        else clipMinus == old(clipMinus) && clipPlus == old(clipPlus) && q == old(q)
    {
      qValid := stage3;
      if stage3 {
        if sum < -LIMIT {
          clipMinus, clipPlus, q := true, false, -LIMIT;
        } else if sum > LIMIT {
          clipMinus, clipPlus, q := false, true, LIMIT;
        } else {
          clipMinus, clipPlus, q := false, false, sum;
        }
      }
    }

    /** The first stage, which still sees the flags as they were before the edge. */
    method ClockIntegrator(i: Input, wasPlus: bool, wasMinus: bool)
      modifies this`acc, this`d0
      ensures i.valid && !wasPlus && !wasMinus ==> acc == Wrap(old(acc) + (i.d - 32768), 40)
      ensures i.valid && wasPlus && i.d < 32768 ==> acc == Wrap(old(acc) + (i.d - 32768), 40)
      ensures i.valid && wasMinus && i.d > 32768 ==> acc == Wrap(old(acc) + (i.d - 32768), 40)
      ensures i.valid && wasPlus && !wasMinus && i.d >= 32768 ==> acc == old(acc)
      ensures i.valid && wasMinus && !wasPlus && i.d <= 32768 ==> acc == old(acc)
      ensures i.valid && wasMinus && wasPlus && i.d == 32768 ==> acc == old(acc)
      ensures !i.valid ==> acc == old(acc)
      ensures d0 == if i.valid then i.d - 32768 else old(d0)
    {
      var ds := i.d - GOAL;
      if i.valid {
        if wasPlus && ds < 0 {
          acc := Wrap(acc + ds, 40);
        } else if wasMinus && ds > 0 {
          acc := Wrap(acc + ds, 40);
        } else if !wasPlus && !wasMinus {
          acc := Wrap(acc + ds, 40);
        }
        d0 := ds;
      }
    }

    /** The three stages in between, the last one first. */
    method ClockTerms()
      modifies this`acc0, this`d1, this`termI, this`termP, this`sum
      ensures sum == Wrap(old(termP) + old(termI), 24)
      ensures termI == StoreShifted(old(acc0) * ki, 16, 54, 24, false)
      ensures termP == StoreShifted(old(d1) * kp, 16, 54, 24, false)
      ensures acc0 == StoreShifted(acc, 6, 40, 34, false) && d1 == d0
    {
      hide Wrap, ShiftRight, Pow2;
      sum := Wrap(termP + termI, 24);
      termI, termP := Wrap(ShiftRight(Wrap(acc0 * ki, 54), 16, 54), 24),
        Wrap(ShiftRight(Wrap(d1 * kp, 54), 16, 54), 24);
      acc0, d1 := Wrap(ShiftRight(Wrap(acc, 40), 6, 40), 34), d0;
    }

    method ClockStages(valid: bool)
      modifies this`stage0, this`stage1, this`stage2, this`stage3
      ensures stage0 == valid && stage1 == old(stage0) && stage2 == old(stage1) && stage3 == old(stage2)
    {
      stage0, stage1, stage2, stage3 := valid, stage0, stage1, stage2;
    }

    method ResetRegisters(i: Input)
      requires i.rst
      modifies this`acc, this`qValid, this`stage0, this`stage1, this`stage2, this`stage3, this`clipPlus, this`clipMinus
      ensures Registers() == Next(old(Registers()), i, ki, kp, false)
    {
      acc, clipPlus, clipMinus, qValid := 0, false, false, false;
      stage0, stage1, stage2, stage3 := false, false, false, false;
    }

    method ClockRegisters(i: Input)
      requires !i.rst
      modifies this`acc, this`d0, this`acc0, this`d1, this`termI, this`termP, this`sum, this`q, this`qValid,
        this`stage0, this`stage1, this`stage2, this`stage3, this`clipPlus, this`clipMinus
      ensures Registers() == Next(old(Registers()), i, ki, kp, false)
    {
      hide Wrap, StoreShifted;
      var wasPlus, wasMinus := clipPlus, clipMinus;
      ClockOutput();
      ClockStages(i.valid);
      ClockTerms();
      ClockIntegrator(i, wasPlus, wasMinus);
    }

    /** One rising edge of clk_i. */
    method Clock(i: Input)
      requires Valid()
      modifies this
      ensures Valid() && history == old(history) + [i]
      ensures ki >= 1 ==> ObeysControlLaw(history, ki, kp, qValid, q)
      ensures ki >= 1 ==> Integrated(old(Registers()), Registers(), i)
    {
      hide Wrap, Next, Run, ObeysControlLaw, Integrated;
      if i.rst { ResetRegisters(i); } else { ClockRegisters(i); }
      history := history + [i];
      assert history[..|history| - 1] == old(history);
      assert history[..|history|] == history;
      RunPrefix(history, |history| - 1, ki, kp, false);
      if ki >= 1 {
        OutputObeysControlLaw(history, ki, kp);
        IntegratorMoves(history, |history| - 1, ki, kp);
      }
    }
  }
}

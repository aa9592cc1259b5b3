// The 1024x cascaded integrator-comb interpolator.  One call of Next, and one call of
// CicInterpolator.Clock, is one rising clock edge.
module Cic {
  import opened Bits

  const R: int := 1024
  const SECTIONS: nat := 7

  type Sample = v: int | -131072 <= v < 131072

  datatype Input = Input(rst: bool, en: bool, x: Sample)

  /** The registers: phase counter, input register, comb delays, comb pipeline registers,
      integrators (sections 8 to 14) and output register.  Index k of a sequence is section k+1. */
  datatype State = State(
    count: int, inputRegister: int, diff: seq<int>, pipeline: seq<int>, sum: seq<int>, output: int)

  /** Combs 1 to 6 grow by one bit each; comb 7 keeps the 24 bits of comb 6. */
  function CombWidth(k: nat): (w: nat)
    requires k < SECTIONS
  {
    if k < 6 then 19 + k else 24
  }

  /** 24, 33, 42, 51, 60, 69 and 78 bits. */
  function IntegratorWidth(j: nat): (w: nat)
    requires j < SECTIONS
  {
    24 + 9 * j
  }

  ghost predicate WellFormed(s: State) {
    0 <= s.count < R && |s.diff| == |s.pipeline| == |s.sum| == SECTIONS
  }

  const ZEROS: seq<int> := [0, 0, 0, 0, 0, 0, 0]

  const RESET: State := State(0, 0, ZEROS, ZEROS, ZEROS, 0)

  function CombInput(inputRegister: int, pipeline: seq<int>, k: nat): int
    requires |pipeline| == SECTIONS && k < SECTIONS
  {
    if k == 0 then inputRegister else pipeline[k - 1]
  }

  function NextDiff(inputRegister: int, pipeline: seq<int>): seq<int>
    requires |pipeline| == SECTIONS
  {
    seq(SECTIONS, k requires 0 <= k < SECTIONS => CombInput(inputRegister, pipeline, k))
  }

  function NextPipeline(inputRegister: int, diff: seq<int>, pipeline: seq<int>, ideal: bool): seq<int>
    requires |diff| == |pipeline| == SECTIONS
  {
    seq(SECTIONS, k requires 0 <= k < SECTIONS =>
      Store(CombInput(inputRegister, pipeline, k) - diff[k], CombWidth(k), ideal))
  }

  /** The zero-stuffing upsampler feeds the first integrator. */
  function Upsampled(s: State): int
    requires |s.pipeline| == SECTIONS
  {
    if s.count == 0 then s.pipeline[6] else 0
  }

  /** Every integrator feeds the next. */
  function NextSum(upsampled: int, sum: seq<int>, ideal: bool): seq<int>
    requires |sum| == SECTIONS
  {
    seq(SECTIONS, j requires 0 <= j < SECTIONS =>
      Store(sum[j] + (if j > 0 then sum[j - 1] else upsampled), IntegratorWidth(j), ideal))
  }

  function Next(s: State, i: Input, ideal: bool): (t: State)
    requires |s.diff| == |s.pipeline| == |s.sum| == SECTIONS
    ensures WellFormed(s) ==> WellFormed(t)
  {
    if i.rst then RESET
    else if !i.en then s
    else
      State(
        if s.count == R - 1 then 0 else s.count + 1,
        if s.count == 0 then i.x else s.inputRegister,
        if s.count == 0 then NextDiff(s.inputRegister, s.pipeline) else s.diff,
        if s.count == 0 then NextPipeline(s.inputRegister, s.diff, s.pipeline, ideal) else s.pipeline,
        NextSum(Upsampled(s), s.sum, ideal),
        s.sum[6])
  }

  /** The state after a whole input history that begins at reset. */
  function Run(ins: seq<Input>, ideal: bool): (s: State)
    ensures WellFormed(s)
  {
    if ins == [] then RESET else Next(Run(ins[..|ins| - 1], ideal), ins[|ins| - 1], ideal)
  }

  // ----- what the filter is meant to compute -----

  /** Enabled clock cycles since the last reset. */
  function Ticks(ins: seq<Input>): nat {
    if ins == [] then 0
    else
      var i, before := ins[|ins| - 1], Ticks(ins[..|ins| - 1]);
      if i.rst then 0 else if i.en then before + 1 else before
  }

  /** The samples taken since the last reset: one every R enabled cycles. */
  function Samples(ins: seq<Input>): seq<Sample> {
    if ins == [] then []
    else
      var i, before := ins[|ins| - 1], Samples(ins[..|ins| - 1]);
      if i.rst then []
      else if i.en && Ticks(ins[..|ins| - 1]) % R == 0 then before + [i.x]
      else before
  }

  function X(xs: seq<Sample>, k: int): int {
    if 0 <= k < |xs| then xs[k] else 0
  }

  /** The d-th backward difference of the samples. */
  function Diff(xs: seq<Sample>, d: nat, k: int): int {
    if d == 0 then X(xs, k) else Diff(xs, d - 1, k) - Diff(xs, d - 1, k - 1)
  }

  /** How many samples have been taken after t enabled cycles. */
  function Taken(t: int): int {
    (t + R - 1) / R
  }

  /** The d-th difference of the samples, held for R cycles and then smoothed by j moving sums
      of R values each; every moving sum is registered, the combs add nine samples of delay. */
  function Smooth(xs: seq<Sample>, j: nat, d: nat, t: int): int
    decreases j, 0, 0
  {
    if j == 0 then Diff(xs, d, Taken(t) - 9) else Window(xs, j - 1, d, t, R)
  }

  /** The sum of Smooth(xs, j, d, u) over the n cycles u before t. */
  function Window(xs: seq<Sample>, j: nat, d: nat, t: int, n: nat): int
    decreases j, 1, n
  {
    if n == 0 then 0 else Window(xs, j, d, t, n - 1) + Smooth(xs, j, d, t - n)
  }

  // ----- the difference and smoothing operators -----

  lemma {:induction false} DiffFits(xs: seq<Sample>, d: nat, k: int)
    ensures Fits(Diff(xs, d, k), 18 + d)
  {
    if d == 0 {
      Pow2Constants();
    } else {
      DiffFits(xs, d - 1, k);
      DiffFits(xs, d - 1, k - 1);
    }
  }

  lemma {:induction false} DiffBeforeStart(xs: seq<Sample>, d: nat, k: int)
    requires k < 0
    ensures Diff(xs, d, k) == 0
  {
    if d > 0 {
      DiffBeforeStart(xs, d - 1, k);
      DiffBeforeStart(xs, d - 1, k - 1);
    }
  }

  lemma {:induction false} DiffCausal(xs: seq<Sample>, x: Sample, d: nat, k: int)
    requires k < |xs|
    ensures Diff(xs + [x], d, k) == Diff(xs, d, k)
  {
    if d > 0 {
      DiffCausal(xs, x, d - 1, k);
      DiffCausal(xs, x, d - 1, k - 1);
    }
  }

  lemma {:induction false} SmoothBeforeStart(xs: seq<Sample>, j: nat, d: nat, t: int)
    requires t <= 0
    ensures Smooth(xs, j, d, t) == 0
    decreases j, 0, 0
  {
    if j == 0 { DiffBeforeStart(xs, d, Taken(t) - 9); } else { WindowBeforeStart(xs, j - 1, d, t, R); }
  }

  lemma {:induction false} WindowBeforeStart(xs: seq<Sample>, j: nat, d: nat, t: int, n: nat)
    requires t <= 0
    ensures Window(xs, j, d, t, n) == 0
    decreases j, 1, n
  {
    if n > 0 {
      WindowBeforeStart(xs, j, d, t, n - 1);
      SmoothBeforeStart(xs, j, d, t - n);
    }
  }

  lemma {:induction false} SmoothCausal(xs: seq<Sample>, x: Sample, j: nat, d: nat, t: int)
    requires Taken(t) <= |xs|
    ensures Smooth(xs + [x], j, d, t) == Smooth(xs, j, d, t)
    decreases j, 0, 0
  {
    if j == 0 { DiffCausal(xs, x, d, Taken(t) - 9); } else { WindowCausal(xs, x, j - 1, d, t, R); }
  }

  lemma {:induction false} WindowCausal(xs: seq<Sample>, x: Sample, j: nat, d: nat, t: int, n: nat)
    requires Taken(t) <= |xs|
    ensures Window(xs + [x], j, d, t, n) == Window(xs, j, d, t, n)
    decreases j, 1, n
  {
    if n > 0 {
      WindowCausal(xs, x, j, d, t, n - 1);
      SmoothCausal(xs, x, j, d, t - n);
    }
  }

  /** A moving sum takes in the newest value and lets go of the one n cycles older. */
  lemma {:induction false} WindowSlides(xs: seq<Sample>, j: nat, d: nat, t: int, n: nat)
    ensures Window(xs, j, d, t + 1, n) == Window(xs, j, d, t, n) + Smooth(xs, j, d, t) - Smooth(xs, j, d, t - n)
  {
    if n > 0 {
      WindowSlides(xs, j, d, t, n - 1);
    }
  }

  /** One difference at the low rate is a difference over R cycles at the high rate. */
  lemma {:induction false} DifferenceCommutes(xs: seq<Sample>, j: nat, d: nat, t: int)
    ensures Smooth(xs, j, d + 1, t) == Smooth(xs, j, d, t) - Smooth(xs, j, d, t - R)
    decreases j, 0, 0
  {
    if j == 0 {
      assert Taken(t - R) == Taken(t) - 1;
    } else {
      WindowDifference(xs, j - 1, d, t, R);
    }
  }

  lemma {:induction false} WindowDifference(xs: seq<Sample>, j: nat, d: nat, t: int, n: nat)
    ensures Window(xs, j, d + 1, t, n) == Window(xs, j, d, t, n) - Window(xs, j, d, t - R, n)
    decreases j, 1, n
  {
    if n > 0 {
      WindowDifference(xs, j, d, t, n - 1);
      DifferenceCommutes(xs, j, d, t - n);
      assert t - n - R == t - R - n;
    }
  }

  /** The identity behind the whole filter: integrating a difference smooths once more. */
  lemma IntegratorStep(xs: seq<Sample>, j: nat, d: nat, t: int)
    ensures Smooth(xs, j + 1, d, t + 1) == Smooth(xs, j + 1, d, t) + Smooth(xs, j, d + 1, t)
  {
    WindowSlides(xs, j, d, t, R);
    DifferenceCommutes(xs, j, d, t);
  }

  /** Every moving sum needs ten more bits, every difference one more. */
  lemma {:induction false} SmoothFits(xs: seq<Sample>, j: nat, d: nat, t: int)
    ensures Fits(Smooth(xs, j, d, t), 18 + d + 10 * j)
    decreases j, 0, 0
  {
    if j == 0 {
      DiffFits(xs, d, Taken(t) - 9);
    } else {
      WindowFits(xs, j - 1, d, t, R);
      var p := Pow2(17 + d + 10 * (j - 1));
      Pow2Sum(10, 17 + d + 10 * (j - 1));
      Pow2Constants();
      assert 10 + (17 + d + 10 * (j - 1)) == 17 + d + 10 * j;
    }
  }

  lemma {:induction false} WindowFits(xs: seq<Sample>, j: nat, d: nat, t: int, n: nat)
    ensures 0 - n * Pow2(17 + d + 10 * j) <= Window(xs, j, d, t, n) <= n * (Pow2(17 + d + 10 * j) - 1)
    decreases j, 1, n
  {
    if n > 0 {
      WindowFits(xs, j, d, t, n - 1);
      SmoothFits(xs, j, d, t - n);
    }
  }

  // ----- the machine holds exactly these values -----

  /** Section k+1 after n samples.  Only the register behind comb 7 can differ from its ideal
      value, by a multiple of 2^24. */
  ghost predicate CombHolds(s: State, xs: seq<Sample>, n: int, ideal: bool, k: nat)
    requires WellFormed(s) && k < SECTIONS
  {
    && s.diff[k] == Diff(xs, k, n - 2 - k)
    && s.pipeline[k] == if k < 6 then Diff(xs, k + 1, n - 2 - k) else Store(Diff(xs, 7, n - 8), 24, ideal)
  }

  /** Section j+8 after t enabled cycles. */
  ghost predicate SumHolds(s: State, xs: seq<Sample>, t: int, j: nat)
    requires WellFormed(s) && j < SECTIONS
  {
    s.sum[j] == Smooth(xs, j, 6 - j, t)
  }

  ghost predicate CombsHold(s: State, xs: seq<Sample>, n: int, ideal: bool)
    requires WellFormed(s)
  {
    forall k | 0 <= k < SECTIONS :: CombHolds(s, xs, n, ideal, k)
  }

  ghost predicate SumsHold(s: State, xs: seq<Sample>, t: int)
    requires WellFormed(s)
  {
    forall j | 0 <= j < SECTIONS :: SumHolds(s, xs, t, j)
  }

  /** Every register of the machine after t enabled cycles. */
  ghost predicate Holds(s: State, xs: seq<Sample>, t: nat, ideal: bool) {
    && WellFormed(s)
    && |xs| == Taken(t)
    && s.count == t % R
    && s.inputRegister == X(xs, Taken(t) - 1)
    && CombsHold(s, xs, Taken(t), ideal)
    && SumsHold(s, xs, t)
    && s.output == Smooth(xs, 6, 0, t - 1)
  }

  lemma ResetHolds(xs: seq<Sample>, t: nat, ideal: bool)
    requires xs == [] && t == 0
    ensures Holds(RESET, xs, t, ideal)
  {
    hide Wrap, Pow2, Smooth, Diff;
    forall k | 0 <= k < SECTIONS ensures CombHolds(RESET, xs, 0, ideal, k) {
      DiffBeforeStart(xs, k, t - 2 - k);
      DiffBeforeStart(xs, k + 1, t - 2 - k);
      WrapZero(24);
    }
    forall j | 0 <= j < SECTIONS ensures SumHolds(RESET, xs, t, j) {
      SmoothBeforeStart(xs, j, 6 - j, t);
    }
    SmoothBeforeStart(xs, 6, 0, t - 1);
  }

  /** Combs 1 to 6 never wrap. */
  lemma CombStep(s: State, xs: seq<Sample>, n: nat, x: Sample, ideal: bool, k: nat)
    requires WellFormed(s) && |xs| == n && k < SECTIONS
    requires s.inputRegister == X(xs, n - 1) && CombHolds(s, xs, n, ideal, k)
    requires k > 0 ==> CombHolds(s, xs, n, ideal, k - 1)
    ensures CombInput(s.inputRegister, s.pipeline, k) == Diff(xs + [x], k, n - 1 - k)
    ensures Store(CombInput(s.inputRegister, s.pipeline, k) - s.diff[k], CombWidth(k), ideal)
         == if k < 6 then Diff(xs + [x], k + 1, n - 1 - k) else Store(Diff(xs + [x], 7, n - 7), 24, ideal)
  {
    DiffCausal(xs, x, k, n - 1 - k);
    DiffCausal(xs, x, k, n - 2 - k);
    assert CombInput(s.inputRegister, s.pipeline, k) == Diff(xs, k, n - 1 - k);
    if k < 6 {
      DiffFits(xs + [x], k + 1, n - 1 - k);
      WrapExact(Diff(xs + [x], k + 1, n - 1 - k), CombWidth(k));
    }
  }

  /** Integrator 1 undoes the wrap of comb 7. */
  lemma FirstIntegrator(xs: seq<Sample>, t: nat, ideal: bool)
    ensures t % R == 0 ==>
      Store(Smooth(xs, 0, 6, t) + Store(Diff(xs, 7, Taken(t) - 8), 24, ideal), 24, ideal) == Smooth(xs, 0, 6, t + 1)
    ensures t % R != 0 ==> Store(Smooth(xs, 0, 6, t), 24, ideal) == Smooth(xs, 0, 6, t + 1)
  {
    SmoothFits(xs, 0, 6, t + 1);
    WrapExact(Smooth(xs, 0, 6, t + 1), 24);
    if t % R == 0 {
      assert Taken(t + 1) == Taken(t) + 1;
      WrapOfSum(Diff(xs, 6, Taken(t) - 9), Diff(xs, 7, Taken(t) - 8), 24);
    } else {
      assert Taken(t + 1) == Taken(t);
    }
  }

  /** The other integrators never wrap. */
  lemma LaterIntegrator(xs: seq<Sample>, t: nat, ideal: bool, j: nat)
    requires 1 <= j < SECTIONS
    ensures Store(Smooth(xs, j, 6 - j, t) + Smooth(xs, j - 1, 7 - j, t), IntegratorWidth(j), ideal)
         == Smooth(xs, j, 6 - j, t + 1)
  {
    hide Wrap, Pow2;
    SmoothFits(xs, j, 6 - j, t + 1);
    WrapExact(Smooth(xs, j, 6 - j, t + 1), IntegratorWidth(j));
    IntegratorStep(xs, j - 1, 6 - j, t);
  }

  lemma SumStep(s: State, xs: seq<Sample>, t: nat, ideal: bool, j: nat)
    requires Holds(s, xs, t, ideal) && j < SECTIONS
    ensures Store(s.sum[j] + (if j > 0 then s.sum[j - 1] else Upsampled(s)), IntegratorWidth(j), ideal)
      == Smooth(xs, j, 6 - j, t + 1)
  {
    hide Wrap, Pow2, Smooth, Diff;
    assert SumHolds(s, xs, t, j);
    if j > 0 {
      assert SumHolds(s, xs, t, j - 1);
      LaterIntegrator(xs, t, ideal, j);
    } else {
      assert CombHolds(s, xs, Taken(t), ideal, 6);
      FirstIntegrator(xs, t, ideal);
    }
  }

  /** The combs delay every sample by nine periods, so the newest one cannot matter yet. */
  lemma {:induction false} WindowNextCausal(xs: seq<Sample>, x: Sample, j: nat, d: nat, t: nat, n: nat)
    requires |xs| == Taken(t)
    ensures Window(xs + [x], j, d, t + 1, n) == Window(xs, j, d, t + 1, n)
  {
    if n > 0 {
      WindowNextCausal(xs, x, j, d, t, n - 1);
      SmoothCausal(xs, x, j, d, t + 1 - n);
    }
  }

  lemma SmoothNextCausal(xs: seq<Sample>, x: Sample, j: nat, d: nat, t: nat)
    requires |xs| == Taken(t)
    ensures Smooth(xs + [x], j, d, t + 1) == Smooth(xs, j, d, t + 1)
  {
    if j == 0 { DiffCausal(xs, x, d, Taken(t + 1) - 9); } else { WindowNextCausal(xs, x, j - 1, d, t, R); }
  }

  lemma CombsStep(s: State, xs: seq<Sample>, t: nat, i: Input, ideal: bool)
    requires Holds(s, xs, t, ideal) && !i.rst && i.en
    ensures CombsHold(Next(s, i, ideal), if t % R == 0 then xs + [i.x] else xs, Taken(t + 1), ideal)
  {
    hide Wrap, Pow2, Smooth, Diff;
    var u, n, n' := Next(s, i, ideal), Taken(t), Taken(t + 1);
    var ys := if t % R == 0 then xs + [i.x] else xs;
    forall k | 0 <= k < SECTIONS ensures CombHolds(u, ys, n', ideal, k) {
      assert CombHolds(s, xs, n, ideal, k);
      if t % R == 0 {
        assert k > 0 ==> CombHolds(s, xs, n, ideal, k - 1);
        CombStep(s, xs, n, i.x, ideal, k);
      }
    }
  }

  lemma SumsStep(s: State, xs: seq<Sample>, t: nat, i: Input, ideal: bool)
    requires Holds(s, xs, t, ideal) && !i.rst && i.en
    ensures SumsHold(Next(s, i, ideal), if t % R == 0 then xs + [i.x] else xs, t + 1)
  {
    hide Wrap, Pow2, Smooth, Diff, NextDiff, NextPipeline, CombHolds;
    var u, t' := Next(s, i, ideal), t + 1;
    var ys := if t % R == 0 then xs + [i.x] else xs;
    forall j | 0 <= j < SECTIONS ensures SumHolds(u, ys, t', j) {
      SumStep(s, xs, t, ideal, j);
      SmoothNextCausal(xs, i.x, j, 6 - j, t);
    }
  }

  lemma StepHolds(s: State, xs: seq<Sample>, t: nat, i: Input, ideal: bool)
    requires Holds(s, xs, t, ideal) && !i.rst && i.en
    ensures Holds(Next(s, i, ideal), if t % R == 0 then xs + [i.x] else xs, t + 1, ideal)
  {
    hide Wrap, Pow2, Smooth, Diff, NextDiff, NextPipeline, NextSum, CombHolds;
    CombsStep(s, xs, t, i, ideal);
    SumsStep(s, xs, t, i, ideal);
    assert SumHolds(s, xs, t, 6);
    SmoothCausal(xs, i.x, 6, 0, t);
  }

  /** For every input history, resets and enable pattern, every register holds its exact value. */
  lemma {:induction false} MachineIsExact(ins: seq<Input>, ideal: bool)
    ensures Holds(Run(ins, ideal), Samples(ins), Ticks(ins), ideal)
  {
    hide Holds, Store;
    if ins == [] {
      ResetHolds(Samples(ins), Ticks(ins), ideal);
    } else {
      var before, i := ins[..|ins| - 1], ins[|ins| - 1];
      MachineIsExact(before, ideal);
      if i.rst {
        ResetHolds(Samples(ins), Ticks(ins), ideal);
      } else if i.en {
        StepHolds(Run(before, ideal), Samples(before), Ticks(before), i, ideal);
      }
    }
  }

  /** The machine with the declared widths computes what the same machine with unbounded registers
      computes: only the register behind comb 7 ever differs, and only by a multiple of 2^24. */
  lemma {:induction false} WidthsSuffice(ins: seq<Input>)
    ensures var ideal := Run(ins, true);
      Run(ins, false) == ideal.(pipeline := ideal.pipeline[6 := Wrap(ideal.pipeline[6], 24)])
    ensures forall j | 0 <= j < SECTIONS :: Fits(Run(ins, true).sum[j], IntegratorWidth(j))
  {
    hide Wrap, Pow2, Smooth, Diff, Run, Samples;
    var xs, t, actual, ideal := Samples(ins), Ticks(ins), Run(ins, false), Run(ins, true);
    MachineIsExact(ins, false);
    MachineIsExact(ins, true);
    var n := Taken(t);
    forall k | 0 <= k < SECTIONS
      ensures actual.diff[k] == ideal.diff[k]
      ensures actual.pipeline[k] == if k < 6 then ideal.pipeline[k] else Wrap(ideal.pipeline[6], 24)
    {
      assert CombHolds(actual, xs, n, false, k) && CombHolds(ideal, xs, n, true, k);
    }
    forall j | 0 <= j < SECTIONS
      ensures actual.sum[j] == ideal.sum[j] && Fits(ideal.sum[j], IntegratorWidth(j))
    {
      assert SumHolds(actual, xs, t, j) && SumHolds(ideal, xs, t, j);
      SmoothFits(xs, j, 6 - j, t);
    }
    assert actual.diff == ideal.diff && actual.sum == ideal.sum;
  }

  // ----- which widths are needed -----

  /** The first n cycles of an input that offers every sample for 1024 enabled cycles. */
  function Offered(xs: seq<Sample>, n: nat): (ins: seq<Input>)
    requires n <= R * |xs|
    ensures |ins| == n
  {
    if n == 0 then [] else Offered(xs, n - 1) + [Input(false, true, xs[(n - 1) / R])]
  }

  lemma TakenStep(n: nat)
    requires n > 0
    ensures if (n - 1) % R == 0 then Taken(n - 1) == (n - 1) / R
      && Taken(n) == Taken(n - 1) + 1 else Taken(n) == Taken(n - 1)
  {}

  lemma {:induction false} OfferedSamples(xs: seq<Sample>, n: nat)
    requires n <= R * |xs|
    ensures Ticks(Offered(xs, n)) == n && Taken(n) <= |xs| && Samples(Offered(xs, n)) == xs[..Taken(n)]
  {
    if n > 0 {
      var ins, before := Offered(xs, n), Offered(xs, n - 1);
      OfferedSamples(xs, n - 1);
      TakenStep(n);
      assert ins[..n - 1] == before && ins[n - 1] == Input(false, true, xs[(n - 1) / R]);
      hide Offered, Taken;
      if (n - 1) % R == 0 {
        assert xs[..Taken(n - 1)] + [xs[Taken(n - 1)]] == xs[..Taken(n)];
      }
    }
  }

  /** A history with given samples. */
  lemma WithSamples(xs: seq<Sample>) returns (ins: seq<Input>)
    requires xs != []
    ensures Samples(ins) == xs && Taken(Ticks(ins)) == |xs|
  {
    var n: nat := R * (|xs| - 1) + 1;
    ins := Offered(xs, n);
    OfferedSamples(xs, n);
    hide Offered, Samples, Ticks;
    assert Taken(n) == |xs| && xs[..|xs|] == xs;
  }

  ghost predicate Alternates(xs: seq<Sample>) {
    forall i | 0 <= i < |xs| :: xs[i] == if i % 2 == 0 then -131072 else 131071
  }

  lemma {:induction false} AlternatingDiff(xs: seq<Sample>, d: nat, k: nat)
    requires d <= k < |xs| && Alternates(xs)
    ensures d > 0 ==> Diff(xs, d, k) == (if k % 2 == 0 then -262143 else 262143) * Pow2(d - 1)
  {
    if d > 1 {
      AlternatingDiff(xs, d - 1, k);
      AlternatingDiff(xs, d - 1, k - 1);
    }
  }

  /** Full scale for comb k, in the sign it has after sixteen alternating samples. */
  function FullScale(k: nat): int {
    (if k % 2 == 0 then -262143 else 262143) * Pow2(k)
  }

  lemma FullScaleComb(s: State, xs: seq<Sample>, k: nat)
    requires WellFormed(s) && k < SECTIONS && |xs| == 16 && Alternates(xs) && CombHolds(s, xs, 16, true, k)
    ensures s.pipeline[k] == FullScale(k)
  {
    AlternatingDiff(xs, k + 1, if k < 6 then 14 - k else 8);
    hide Diff, Pow2, Alternates;
  }

  /** The combs of the unbounded machine after sixteen full-scale samples of alternating sign. */
  lemma FullScaleCombs() returns (ins: seq<Input>)
    ensures forall k | 0 <= k < SECTIONS :: Run(ins, true).pipeline[k] == FullScale(k)
  {
    var xs := seq(16, i requires 0 <= i < 16 => if i % 2 == 0 then -131072 else 131071);
    assert Alternates(xs);
    hide Run, Samples, Ticks, CombHolds, SumsHold, Smooth, Alternates, FullScale;
    ins := WithSamples(xs);
    MachineIsExact(ins, true);
    forall k | 0 <= k < SECTIONS ensures Run(ins, true).pipeline[k] == FullScale(k) {
      FullScaleComb(Run(ins, true), xs, k);
    }
  }

  /** The wrap of comb 7 is real: there is a history after which its register is not the unbounded one. */
  lemma CombSevenIsTooNarrow() returns (ins: seq<Input>)
    ensures Run(ins, false).pipeline[6] != Run(ins, true).pipeline[6]
  {
    ins := FullScaleCombs();
    WidthsSuffice(ins);
    hide Run, Wrap;
    Pow2Constants();
    assert !Fits(Run(ins, true).pipeline[6], 24);
  }

  /** Combs 1 to 6 need every bit they have. */
  lemma CombsNeedTheirWidths(k: nat) returns (ins: seq<Input>)
    requires k < 6
    ensures !Fits(Run(ins, false).pipeline[k], CombWidth(k) - 1)
  {
    ins := FullScaleCombs();
    WidthsSuffice(ins);
    hide Run, Wrap, Fits, FullScale;
    FullScaleIsWide(k);
    assert Run(ins, false).pipeline[k] == FullScale(k);
  }

  lemma FullScaleIsWide(k: nat)
    requires k < 6
    ensures !Fits(FullScale(k), CombWidth(k) - 1)
  {
    assert CombWidth(k) - 2 == 17 + k;
    Pow2Sum(17, k);
    Pow2Constants();
    hide Pow2;
    assert 131072 * Pow2(k) < 262143 * Pow2(k);
  }

  /** The output needs its 78 bits. */
  lemma OutputNeedsItsWidth() returns (ins: seq<Input>)
    ensures !Fits(Run(ins, false).output, 77)
  {
    hide Run, Samples, Ticks;
    var least: Sample := -131072;
    ins := WithSamples(seq(16, _ => least));
    OutputSettles(ins, least);
    LeastOutputIsWide();
  }

  lemma LeastOutputIsWide()
    ensures !Fits(Pow2(60) * -131072, 77)
  {
    Pow2Sum(60, 16);
    Pow2Constants();
    hide Pow2;
    assert Pow2(76) < Pow2(60) * 131072;
  }

  // ----- the direct form: a convolution -----

  /** The (j+1)-fold convolution of a box of length R with itself. */
  function Box(j: nat, n: int): int
    decreases j, 0
  {
    if j == 0 then (if 0 <= n < R then 1 else 0) else BoxSum(j - 1, n, R)
  }

  function BoxSum(j: nat, n: int, w: nat): int
    decreases j, 1, w
  {
    if w == 0 then 0 else BoxSum(j, n, w - 1) + Box(j, n - (w - 1))
  }

  /** The sum of x_k * h(n - R k), h being the (j+1)-fold box. */
  function Convolution(xs: seq<Sample>, j: nat, n: int): int {
    if xs == [] then 0
    else Convolution(xs[..|xs| - 1], j, n) + xs[|xs| - 1] * Box(j, n - R * (|xs| - 1))
  }

  function ConvolutionWindow(xs: seq<Sample>, j: nat, n: int, w: nat): int {
    if w == 0 then 0 else ConvolutionWindow(xs, j, n, w - 1) + Convolution(xs, j, n - (w - 1))
  }

  lemma {:induction false} HeldSample(xs: seq<Sample>, n: int)
    ensures Convolution(xs, 0, n) == X(xs, n / R)
  {
    if xs != [] {
      HeldSample(xs[..|xs| - 1], n);
    }
  }

  lemma {:induction false} WindowOfConvolution(xs: seq<Sample>, j: nat, n: int, w: nat)
    ensures xs == [] ==> ConvolutionWindow(xs, j, n, w) == 0
    ensures xs != [] ==>
      var m := |xs| - 1;
      ConvolutionWindow(xs, j, n, w) == ConvolutionWindow(xs[..m], j, n, w) + xs[m] * BoxSum(j, n - R * m, w)
  {
    if w > 0 {
      WindowOfConvolution(xs, j, n, w - 1);
      if xs != [] {
        var m := n - R * (|xs| - 1);
        assert n - (w - 1) - R * (|xs| - 1) == m - (w - 1);
        assert xs[|xs| - 1] * BoxSum(j, m, w)
          == xs[|xs| - 1] * BoxSum(j, m, w - 1) + xs[|xs| - 1] * Box(j, m - (w - 1));
      }
    }
  }

  lemma {:induction false} WindowIsConvolution(xs: seq<Sample>, j: nat, n: int)
    ensures ConvolutionWindow(xs, j, n, R) == Convolution(xs, j + 1, n)
  {
    WindowOfConvolution(xs, j, n, R);
    if xs != [] {
      WindowIsConvolution(xs[..|xs| - 1], j, n);
    }
  }

  lemma {:induction false} SmoothIsConvolution(xs: seq<Sample>, j: nat, t: int)
    ensures Smooth(xs, j, 0, t) == Convolution(xs, j, t - 8193 - j)
    decreases j, 0, 0
  {
    if j == 0 {
      HeldSample(xs, t - 8193);
    } else {
      WindowSumsConvolution(xs, j - 1, t, R);
      WindowIsConvolution(xs, j - 1, t - 8193 - j);
    }
  }

  lemma {:induction false} WindowSumsConvolution(xs: seq<Sample>, j: nat, t: int, w: nat)
    ensures Window(xs, j, 0, t, w) == ConvolutionWindow(xs, j, t - 8194 - j, w)
    decreases j, 1, w
  {
    if w > 0 {
      WindowSumsConvolution(xs, j, t, w - 1);
      SmoothIsConvolution(xs, j, t - w);
      assert t - w - 8193 - j == t - 8194 - j - (w - 1);
    }
  }

  /** The output register is the direct convolution, 8200 enabled cycles late. */
  lemma {:induction false} OutputIsConvolution(ins: seq<Input>)
    ensures Run(ins, false).output == Convolution(Samples(ins), 6, Ticks(ins) - 8200)
  {
    hide Run, Samples, Ticks, Smooth, Convolution;
    MachineIsExact(ins, false);
    SmoothIsConvolution(Samples(ins), 6, Ticks(ins) - 1);
  }

  // ----- range and gain -----

  ghost predicate Within(xs: seq<Sample>, first: int, last: int, lo: int, hi: int) {
    forall k | first <= k <= last :: lo <= X(xs, k) <= hi
  }

  /** Smoothing multiplies by R per stage and stays between the extremes of the samples it covers. */
  lemma {:induction false} SmoothRange(xs: seq<Sample>, j: nat, t: int, lo: int, hi: int)
    requires Within(xs, Taken(t - R * j) - 9, Taken(t - j) - 9, lo, hi)
    ensures Pow2(10 * j) * lo <= Smooth(xs, j, 0, t) <= Pow2(10 * j) * hi
    decreases j, 0, 0
  {
    hide X, Window;
    if j == 0 {
      assert lo <= X(xs, Taken(t) - 9) <= hi;
      assert Pow2(10 * j) == 1;
    } else {
      hide Pow2;
      WindowRange(xs, j - 1, t, R, lo, hi);
      Scale(j - 1, lo);
      Scale(j - 1, hi);
    }
  }

  lemma {:induction false} Scale(j: nat, v: int)
    ensures R * (Pow2(10 * j) * v) == Pow2(10 * (j + 1)) * v
  {
    Pow2Constants();
    Pow2Sum(10, 10 * j);
    assert Pow2(10 * (j + 1)) == 1024 * Pow2(10 * j);
  }

  lemma {:induction false} WindowRange(xs: seq<Sample>, j: nat, t: int, n: nat, lo: int, hi: int)
    requires n <= R && Within(xs, Taken(t - R * (j + 1)) - 9, Taken(t - j - 1) - 9, lo, hi)
    ensures n * (Pow2(10 * j) * lo) <= Window(xs, j, 0, t, n) <= n * (Pow2(10 * j) * hi)
    decreases j, 1, n
  {
    hide Pow2, Smooth, X;
    var p := Pow2(10 * j);
    if n > 0 {
      WindowRange(xs, j, t, n - 1, lo, hi);
      assert Within(xs, Taken(t - n - R * j) - 9, Taken(t - n - j) - 9, lo, hi) by {
        TakenMonotone(t - R * (j + 1), t - n - R * j);
        TakenMonotone(t - n - j, t - j - 1);
      }
      SmoothRange(xs, j, t - n, lo, hi);
      assert n * (p * lo) == (n - 1) * (p * lo) + p * lo && n * (p * hi) == (n - 1) * (p * hi) + p * hi;
    }
  }

  lemma TakenMonotone(t: int, u: int)
    requires t <= u
    ensures Taken(t) <= Taken(u)
  {}

  /** h(n) + h(n - R) + ... over m terms, h being the (j+1)-fold box. */
  function ResidueSum(j: nat, n: int, m: nat): int {
    if m == 0 then 0 else ResidueSum(j, n, m - 1) + Box(j, n - R * (m - 1))
  }

  lemma {:induction false} BoxSupport(j: nat, n: int)
    ensures !(0 <= n <= (R - 1) * (j + 1)) ==> Box(j, n) == 0
    decreases j, 0
  {
    if j > 0 { BoxSumSupport(j - 1, n, R); }
  }

  lemma {:induction false} BoxSumSupport(j: nat, n: int, w: nat)
    requires w <= R
    ensures n < 0 || n > (R - 1) * (j + 2) ==> BoxSum(j, n, w) == 0
    decreases j, 1, w
  {
    if w > 0 {
      BoxSumSupport(j, n, w - 1);
      BoxSupport(j, n - (w - 1));
    }
  }

  lemma {:induction false} ConvolutionOfOnes(xs: seq<Sample>, j: nat, n: int)
    requires forall i | 0 <= i < |xs| :: xs[i] == 1
    ensures Convolution(xs, j, n) == ResidueSum(j, n, |xs|)
  {
    if xs != [] { ConvolutionOfOnes(xs[..|xs| - 1], j, n); }
  }

  /** The impulse response vanishes outside 0..7161, and each of its residue classes modulo R sums
      to 1024^6: a constant input gives a constant output, without ripple. */
  lemma ResidueClassesSumAlike(r: int)
    requires 0 <= r < R
    ensures ResidueSum(6, r + 6 * R, 7) == Pow2(60)
    ensures forall n :: n < 0 || n > 7161 ==> Box(6, n) == 0
  {
    hide Box, Smooth, Convolution;
    var one: Sample := 1;
    var ones, t := seq(7, _ => one), r + 6 * R + 8199;
    SmoothIsConvolution(ones, 6, t);
    assert Taken(t - 6) - 9 == 6 && Taken(t - R * 6) >= 9;
    SmoothRange(ones, 6, t, 1, 1);
    ConvolutionOfOnes(ones, 6, r + 6 * R);
    forall n | n < 0 || n > 7161 ensures Box(6, n) == 0 { BoxSupport(6, n); }
  }

  /** y_o of a filter whose last sixteen samples were all c is c * 2^60, in every clock cycle. */
  lemma {:induction false} ConstantIsKept(xs: seq<Sample>, t: nat, c: Sample)
    requires |xs| == Taken(t) >= 16
    requires forall i | |xs| - 16 <= i < |xs| :: xs[i] == c
    ensures Smooth(xs, 6, 0, t - 1) == Pow2(60) * c
  {
    hide Smooth, Pow2;
    assert Taken(t) - 7 <= Taken(t - 1 - R * 6) && Taken(t - 1 - 6) <= Taken(t);
    SmoothRange(xs, 6, t - 1, c, c);
  }

  /** The output stays between the extremes of the samples taken, and zero. */
  lemma {:induction false} OutputRange(ins: seq<Input>, lo: int, hi: int)
    requires lo <= 0 <= hi && forall x | x in Samples(ins) :: lo <= x <= hi
    ensures Pow2(60) * lo <= Run(ins, false).output <= Pow2(60) * hi
  {
    hide Run, Samples, Ticks, Smooth, Pow2, CombHolds, SumHolds;
    var xs := Samples(ins);
    var t: int := Ticks(ins);
    MachineIsExact(ins, false);
    forall k: int ensures lo <= X(xs, k) <= hi {
      assert 0 <= k < |xs| ==> xs[k] in xs;
    }
    SmoothRange(xs, 6, t - 1, lo, hi);
  }

  lemma {:induction false} OutputSettles(ins: seq<Input>, c: Sample)
    requires var xs := Samples(ins); |xs| >= 16 && forall i | |xs| - 16 <= i < |xs| :: xs[i] == c
    ensures Run(ins, false).output == Pow2(60) * c
  {
    hide Run, Samples, Ticks, Smooth, Pow2, CombHolds, SumHolds;
    MachineIsExact(ins, false);
    ConstantIsKept(Samples(ins), Ticks(ins), c);
  }

  // ----- the registers, clocked in place -----

  lemma {:induction false} RunExtends(ins: seq<Input>, i: Input)
    ensures Run(ins + [i], false) == Next(Run(ins, false), i, false)
  {
    assert (ins + [i])[..|ins|] == ins;
  }

  class CicInterpolator {
    var count: int
    var inputRegister: int
    var diff: seq<int>
    var pipeline: seq<int>
    var sum: seq<int>
    var output: int
    ghost var history: seq<Input>

    ghost function Registers(): State
      reads this
    {
      State(count, inputRegister, diff, pipeline, sum, output)
    }

    ghost predicate Valid()
      reads this
    {
      Registers() == Run(history, false)
    }

    constructor ()
      ensures Valid() && history == []
    {
      count, inputRegister, diff, pipeline, sum, output := 0, 0, ZEROS, ZEROS, ZEROS, 0;
      history := [];
    }

    /** Sections 1 to 7, clocked once every R enabled cycles. */
    method ClockCombs()
      requires |diff| == |pipeline| == SECTIONS
      modifies this`diff, this`pipeline
      ensures diff == NextDiff(inputRegister, old(pipeline))
      ensures pipeline == NextPipeline(inputRegister, old(diff), old(pipeline), false)
    {
      hide Wrap;
      var was := pipeline;
      pipeline := [
        Wrap(inputRegister - diff[0], 19), Wrap(was[0] - diff[1], 20), Wrap(was[1] - diff[2], 21),
        Wrap(was[2] - diff[3], 22), Wrap(was[3] - diff[4], 23), Wrap(was[4] - diff[5], 24),
        Wrap(was[5] - diff[6], 24)];
      diff := [inputRegister] + was[..6];
    }

    /** Sections 8 to 14. */
    method ClockIntegrators(upsampling: int)
      requires |sum| == SECTIONS
      modifies this`sum
      ensures sum == NextSum(upsampling, old(sum), false)
    {
      hide Wrap;
      sum := [
        Wrap(sum[0] + upsampling, 24), Wrap(sum[1] + sum[0], 33), Wrap(sum[2] + sum[1], 42),
        Wrap(sum[3] + sum[2], 51), Wrap(sum[4] + sum[3], 60), Wrap(sum[5] + sum[4], 69),
        Wrap(sum[6] + sum[5], 78)];
    }

    /** One rising edge of clk_i.  The output register shows the convolution of every sample taken
        since the last reset. */
    method Clock(i: Input)
      requires Valid()
      modifies this
      ensures Valid() && history == old(history) + [i]
      ensures output == Convolution(Samples(history), 6, Ticks(history) - 8200)
    {
      hide Wrap, Convolution, Samples, Ticks, Box, Run, NextDiff, NextPipeline, NextSum;
      ghost var before := Registers();
      if i.rst {
        count, inputRegister, diff, pipeline, sum, output := 0, 0, ZEROS, ZEROS, ZEROS, 0;
      } else if i.en {
        var phase0 := count == 0;
        output := sum[6];
        ClockIntegrators(if phase0 then pipeline[6] else 0);
        if phase0 {
          ClockCombs();
          inputRegister := i.x;
        }
        if count == 1023 { count := 0; } else { count := count + 1; }
      }
      assert Registers() == Next(before, i, false);
      history := history + [i];
      RunExtends(old(history), i);
      OutputIsConvolution(history);
    }
  }
}

// From the interpolated tuning word to the tune register of the synthesizer (dds_core).
module TuningPath {
  import opened Bits
  import opened Cic
  import Dds

  /** cic_out_clamp, the upper 18 of the 78 bits of the filter output. */
  function Slice(y: int): int {
    y / Pow2(60)
  }

  /** f_signed_multiply(a, gain, 0, 43): a signed, gain unsigned, the result in 43 bits. */
  function SignedMultiply(a: int, gain: int): int {
    (a * gain) % Pow2(43)
  }

  datatype Tuner = Tuner(bias: int, tune: int, d0: int, d1: int, load: bool)

  /** p_gen_tune */
  function TunerNext(s: Tuner, rst: bool, freq: int, y: int, gain: int): Tuner {
    if rst then Tuner(0, 0, 0, 0, false)
    else Tuner(freq, (s.bias + SignedMultiply(Slice(y), gain)) % Pow2(43), s.tune, s.d0, true)
  }

  lemma SliceBounds(y: int, lo: int, hi: int)
    requires Pow2(60) * lo <= y <= Pow2(60) * hi
    ensures lo <= Slice(y) <= hi
  {
    hide Pow2;
    QuotientBounds(y, Pow2(60), lo, hi);
  }

  lemma QuotientBounds(y: int, p: int, lo: int, hi: int)
    requires p > 0 && p * lo <= y <= p * hi
    ensures lo <= y / p <= hi
  {
    assert y == p * (y / p) + y % p;
    MulBounds(p, hi - y / p);
    MulBounds(p, y / p - lo);
  }

  /** For every history of the filter, the sliced output never leaves the range spanned by zero and the
      samples taken since the last reset; it fits the 18 bits it is given. */
  lemma {:induction false} NeverOvershoots(ins: seq<Input>, lo: int, hi: int)
    requires lo <= 0 <= hi && forall x | x in Samples(ins) :: lo <= x <= hi
    ensures lo <= Slice(Run(ins, false).output) <= hi
  {
    hide Run, Samples, Slice, Pow2;
    OutputRange(ins, lo, hi);
    SliceBounds(Run(ins, false).output, lo, hi);
  }

  /** The last sixteen samples were c. */
  ghost predicate Settled(ins: seq<Input>, c: Sample) {
    var xs := Samples(ins);
    |xs| >= 16 && forall i | |xs| - 16 <= i < |xs| :: xs[i] == c
  }

  /** The gain is exactly one: once the last sixteen samples were c, the sliced output is c, in every
      clock cycle. */
  lemma {:induction false} SettlesExactly(ins: seq<Input>, c: Sample)
    requires Settled(ins, c)
    ensures Slice(Run(ins, false).output) == c
  {
    hide Run, Samples, Slice, Pow2;
    OutputSettles(ins, c);
    SliceBounds(Run(ins, false).output, c, c);
  }

  /** Whatever the filter does: the tune word that is loaded three cycles after an output y is the bias plus the gain
      times the upper 18 bits of y, modulo 2^43. */
  lemma TuneFollows(s: Tuner, freq: int, gain: int, y0: int, y: int, y1: int, y2: int)
    ensures var s2 := TunerNext(TunerNext(s, false, freq, y0, gain), false, freq, y, gain);
      var s4 := TunerNext(TunerNext(s2, false, freq, y1, gain), false, freq, y2, gain);
      s4.load && s4.d1 == (freq + gain * (y / 0x1000_0000_0000_0000)) % 0x800_0000_0000
  {
    Pow2Constants();
    Pow2Sum(33, 10);
    Pow2Sum(33, 17);
    Pow2Sum(50, 10);
    MultiplyAdds(freq, y / 0x1000_0000_0000_0000, gain);
    hide Pow2, SignedMultiply;
  }

  /** Nothing from before a reset is loaded after it. */
  lemma ResetForgets(s: Tuner, freq: int, gain: int, y0: int, y1: int, y2: int)
    ensures var s1 := TunerNext(s, true, freq, y0, gain);
      var s2 := TunerNext(s1, false, freq, y1, gain);
      !s1.load && s1.d1 == 0 && s2.d1 == 0 && TunerNext(s2, false, freq, y2, gain).d1 == 0
  {
    hide Pow2, SignedMultiply, Slice;
  }

  /** A settled filter makes the tune register, three cycles later, exactly bias + gain * c. */
  lemma {:induction false} SettledTune(s: Tuner, ins: seq<Input>, c: Sample, freq: int, gain: int, y0: int, y1: int,
      y2: int)
    requires Settled(ins, c)
    ensures var s1 := TunerNext(s, false, freq, y0, gain);
      var s2 := TunerNext(s1, false, freq, Run(ins, false).output, gain);
      TunerNext(TunerNext(s2, false, freq, y1, gain), false, freq, y2, gain).d1 == (freq + gain * c) % Pow2(43)
  {
    hide Run, Samples, Slice, Pow2;
    SettlesExactly(ins, c);
    MultiplyAdds(freq, c, gain);
  }

  lemma MultiplyAdds(freq: int, a: int, gain: int)
    ensures (freq + SignedMultiply(a, gain)) % Pow2(43) == (freq + gain * a) % Pow2(43)
  {
    var p, v := Pow2(43), a * gain;
    hide Pow2;
    assert freq + v == freq + v % p + (v / p) * p;
    ModPeriodic(freq + v % p, v / p, p);
  }

  // ----- up to the phase accumulator -----

  /** The tune registers and the synthesizer that loads the last of them in every cycle. */
  datatype Synth = Synth(tuner: Tuner, quad: Dds.Quad)

  predicate InTurn(s: Tuner) {
    0 <= s.tune < Dds.TURN && 0 <= s.d0 < Dds.TURN && 0 <= s.d1 < Dds.TURN
  }

  lemma TunerInTurn(s: Tuner, rst: bool, freq: int, y: int, gain: int)
    requires InTurn(s)
    ensures InTurn(TunerNext(s, rst, freq, y, gain))
  {
    TurnIsPow2();
    hide Pow2, SignedMultiply;
  }

  lemma TurnIsPow2()
    ensures Pow2(43) == Dds.TURN
  {
    Pow2Constants();
    Pow2Sum(33, 10);
  }

  function SynthNext(s: Synth, freq: int, y: int, gain: int): (t: Synth)
    requires InTurn(s.tuner)
    ensures InTurn(t.tuner)
  {
    TunerInTurn(s.tuner, false, freq, y, gain);
    Synth(TunerNext(s.tuner, false, freq, y, gain),
      Dds.QuadNext(s.quad, Dds.Input(false, s.tuner.load, s.tuner.d1, false, 0, true)))
  }

  /** The synthesizer after n of the cycles `ins` of the filter, which has `before` behind it. */
  function SynthRun(s: Synth, before: seq<Input>, ins: seq<Input>, freq: int, gain: int, n: nat): (t: Synth)
    requires InTurn(s.tuner) && n <= |ins|
    ensures InTurn(t.tuner)
  {
    if n == 0 then s
    else SynthNext(SynthRun(s, before, ins, freq, gain, n - 1), freq, Run(before + ins[..n - 1], false).output, gain)
  }

  /** What has got how far through the registers, n cycles after the filter has settled. */
  ghost predicate Arriving(s: Synth, freq: int, t: int, n: nat) {
    && (n >= 1 ==> s.tuner.load && s.tuner.bias == freq) && (n >= 2 ==> s.tuner.tune == t)
    && (n >= 3 ==> s.tuner.d0 == t) && (n >= 4 ==> s.tuner.d1 == t) && (n >= 5 ==> s.quad.tune == t)
  }

  lemma ArrivingStep(s: Synth, freq: int, y: int, gain: int, c: Sample, n: nat)
    requires InTurn(s.tuner) && Slice(y) == c && Arriving(s, freq, (freq + gain * c) % Pow2(43), n)
    ensures Arriving(SynthNext(s, freq, y, gain), freq, (freq + gain * c) % Pow2(43), n + 1)
    ensures SynthNext(s, freq, y, gain).quad.acc == (s.quad.acc + s.quad.tune) % Dds.TURN
  {
    MultiplyAdds(freq, c, gain);
    hide Pow2, SignedMultiply, Slice;
  }

  lemma NothingArrived(s: Synth, freq: int, t: int)
    ensures Arriving(s, freq, t, 0)
  {}

  lemma HasArrived(s: Synth, freq: int, t: int, n: nat)
    requires Arriving(s, freq, t, n) && n >= 5
    ensures s.quad.tune == t
  {}

  lemma OneTurnFurther(start: int, k: nat, x: int, acc: int)
    requires acc == (start + k * x) % Dds.TURN
    ensures (acc + x % Dds.TURN) % Dds.TURN == (start + (k + 1) * x) % Dds.TURN
  {
    ModAdd(start + k * x, x % Dds.TURN, Dds.TURN);
    ModAdd(x, start + k * x, Dds.TURN);
    assert start + (k + 1) * x == start + k * x + x;
  }

  /** However far the samples have wandered before: as long as the last sixteen of them are c, the phase of
      the synthesizer advances, from the fifth cycle on, by exactly bias + gain * c in every cycle. */
  lemma {:induction false} SettledFrequency(s: Synth, before: seq<Input>, ins: seq<Input>, freq: int, gain: int,
      c: Sample, n: nat)
    requires InTurn(s.tuner) && n <= |ins| && forall k | 0 <= k < n :: Settled(before + ins[..k], c)
    ensures Arriving(SynthRun(s, before, ins, freq, gain, n), freq, (freq + gain * c) % Pow2(43), n)
    ensures n >= 5 ==>
      SynthRun(s, before, ins, freq, gain, n).quad.acc
      == (SynthRun(s, before, ins, freq, gain, 5).quad.acc + (n - 5) * (freq + gain * c)) % Dds.TURN
  {
    hide Run, Settled, Slice, SynthNext, Pow2, Arriving;
    if n == 0 {
      NothingArrived(s, freq, (freq + gain * c) % Pow2(43));
    } else {
      var u, y := SynthRun(s, before, ins, freq, gain, n - 1), Run(before + ins[..n - 1], false).output;
      SettledFrequency(s, before, ins, freq, gain, c, n - 1);
      SettlesExactly(before + ins[..n - 1], c);
      ArrivingStep(u, freq, y, gain, c, n - 1);
      if n > 5 {
        HasArrived(u, freq, (freq + gain * c) % Pow2(43), n - 1);
        TurnIsPow2();
        hide SynthRun;
        OneTurnFurther(SynthRun(s, before, ins, freq, gain, 5).quad.acc, n - 6, freq + gain * c, u.quad.acc);
      }
    }
  }

  class TuneGenerator {
    var synthTune: int
    var synthTuneD0: int
    var synthTuneD1: int
    var synthTuneBias: int
    var synthTuneLoad: bool

    ghost function Registers(): Tuner
      reads this
    {
      Tuner(synthTuneBias, synthTune, synthTuneD0, synthTuneD1, synthTuneLoad)
    }

    constructor ()
      ensures Registers() == Tuner(0, 0, 0, 0, false)
    {
      synthTune, synthTuneD0, synthTuneD1, synthTuneBias, synthTuneLoad := 0, 0, 0, 0, false;
    }

    /** p_gen_tune.  When the filter has settled at c, the tune register gets exactly bias + gain * c. */
    method Clock(rst: bool, freq: int, y: int, gain: int, ghost ins: seq<Input>, ghost c: Sample)
      modifies this
      ensures Registers() == TunerNext(old(Registers()), rst, freq, y, gain)
      ensures !rst && y == Run(ins, false).output && Settled(ins, c) ==>
        synthTune == (old(synthTuneBias) + gain * c) % Pow2(43)
    {
      hide Run, Slice, SignedMultiply, Settled, Pow2;
      if rst {
        synthTune, synthTuneD0, synthTuneD1, synthTuneBias, synthTuneLoad := 0, 0, 0, 0, false;
      } else {
        if y == Run(ins, false).output && Settled(ins, c) {
          SettlesExactly(ins, c);
          MultiplyAdds(synthTuneBias, c, gain);
        }
        synthTuneD1 := synthTuneD0;
        synthTuneD0 := synthTune;
        synthTune := (synthTuneBias + SignedMultiply(Slice(y), gain)) % Pow2(43);
        synthTuneBias, synthTuneLoad := freq, true;
      }
    }
  }
}

// Timestamp arithmetic: the four-stage adder with renormalisation (timestamp_adder) and the two-stage
// comparison (timestamp_compare).
module Timestamps {
  import opened Bits

  /** Widths of the fraction, cycle and TAI fields, and reference clock cycles per second.  The last
      two conditions are what the declared widths need for the sums to fit. */
  datatype Format = Format(fracBits: nat, cyclesBits: nat, taiBits: nat, rate: int)

  predicate Sound(m: Format) {
    1 <= m.cyclesBits && 1 <= m.rate <= Pow2(m.cyclesBits) && 3 * m.rate <= Pow2(m.cyclesBits + 1)
  }

  datatype Stamp = Stamp(tai: int, cycles: int, frac: int)

  /** Port values: TAI and fraction are unsigned, the cycles of an operand are read as signed. */
  predicate Operand(s: Stamp, m: Format) {
    && 0 <= s.tai < Pow2(m.taiBits) && 0 <= s.frac < Pow2(m.fracBits)
    && 1 <= m.cyclesBits && Fits(s.cycles, m.cyclesBits)
  }

  predicate Normalised(s: Stamp, m: Format) {
    0 <= s.tai < Pow2(m.taiBits) && 0 <= s.cycles < m.rate && 0 <= s.frac < Pow2(m.fracBits)
  }

  datatype AdderInput = AdderInput(valid: bool, enable: bool, a: Stamp, b: Stamp)

  datatype Overflow = NONE | ONCE | TWICE | UNDER

  datatype Adder = Adder(pipe: seq<bool>, sum0: Stamp, sum1: Stamp, sum2: Stamp, sum3: Stamp, coarse: Overflow)

  function Stage0(i: AdderInput, m: Format): Stamp {
    Stamp((i.a.tai + i.b.tai) % Pow2(m.taiBits),
          Wrap(i.a.cycles + i.b.cycles, m.cyclesBits + 2),
          i.a.frac + i.b.frac)
  }

  function Stage1(s: Stamp, m: Format): Stamp {
    if s.frac / Pow2(m.fracBits) % 2 == 1
    then Stamp(s.tai, Wrap(s.cycles + 1, m.cyclesBits + 2), s.frac - Pow2(m.fracBits))
    else s
  }

  function Detect(s: Stamp, m: Format): Overflow {
    if s.cycles < 0 then UNDER
    else if s.cycles >= 2 * m.rate then TWICE
    else if s.cycles >= m.rate then ONCE
    else NONE
  }

  function Stage3(s: Stamp, o: Overflow, m: Format): Stamp {
    var w := m.cyclesBits + 2;
    match o
    case UNDER => Stamp((s.tai - 1) % Pow2(m.taiBits), Wrap(s.cycles + m.rate, w), s.frac)
    case TWICE => Stamp((s.tai + 2) % Pow2(m.taiBits), Wrap(s.cycles - 2 * m.rate, w), s.frac)
    case ONCE => Stamp((s.tai + 1) % Pow2(m.taiBits), Wrap(s.cycles - m.rate, w), s.frac)
    case NONE => s
  }

  function AdderNext(s: Adder, i: AdderInput, m: Format): Adder
    requires |s.pipe| == 4
  {
    Adder([i.enable && i.valid] + s.pipe[..3],
          if i.enable then Stage0(i, m) else s.sum0,
          Stage1(s.sum0, m),
          s.sum1,
          Stage3(s.sum2, s.coarse, m),
          Detect(s.sum1, m))
  }

  /** q_tai_o, q_cycles_o and q_frac_o: the extra bits are clipped. */
  function AdderOut(s: Adder, m: Format): Stamp {
    Stamp(s.sum3.tai, s.sum3.cycles % Pow2(m.cyclesBits), s.sum3.frac % Pow2(m.fracBits))
  }

  function AdderRun(s: Adder, ins: seq<AdderInput>, n: nat, m: Format): (t: Adder)
    requires |s.pipe| == 4 && n <= |ins|
    ensures |t.pipe| == 4
  {
    if n == 0 then s else AdderNext(AdderRun(s, ins, n - 1, m), ins[n - 1], m)
  }

  // ----- what the sum means -----

  function Carry(a: Stamp, b: Stamp, m: Format): int {
    if a.frac + b.frac >= Pow2(m.fracBits) then 1 else 0
  }

  /** The sum of the cycle fields, with the carry out of the fractions. */
  function CoarseSum(a: Stamp, b: Stamp, m: Format): int {
    a.cycles + b.cycles + Carry(a, b, m)
  }

  /** The time a stamp stands for, in units of 2^-fracBits cycles. */
  function Total(s: Stamp, m: Format): int {
    (s.tai * m.rate + s.cycles) * Pow2(m.fracBits) + s.frac
  }

  /** The period after which the TAI field wraps. */
  function Period(m: Format): int {
    Pow2(m.taiBits) * m.rate * Pow2(m.fracBits)
  }

  /** The combinational effect of the four stages. */
  function Sum(i: AdderInput, m: Format): Stamp {
    var s1 := Stage1(Stage0(i, m), m);
    Stage3(s1, Detect(s1, m), m)
  }

  lemma FirstStages(i: AdderInput, m: Format)
    requires Sound(m) && Operand(i.a, m) && Operand(i.b, m)
    ensures var s1 := Stage1(Stage0(i, m), m);
      && s1.cycles == CoarseSum(i.a, i.b, m) && Fits(s1.cycles, m.cyclesBits + 1 + 1)
      && s1.frac == i.a.frac + i.b.frac - Carry(i.a, i.b, m) * Pow2(m.fracBits) && 0 <= s1.frac < Pow2(m.fracBits)
      && s1.tai == (i.a.tai + i.b.tai) % Pow2(m.taiBits)
  {
    var f, h := Pow2(m.fracBits), Pow2(m.cyclesBits - 1);
    var c := i.a.cycles + i.b.cycles;
    assert Pow2(m.cyclesBits + 1) == 4 * h;
    WrapExact(c, m.cyclesBits + 2);
    WrapExact(c + 1, m.cyclesBits + 2);
    ModUnique(i.a.frac + i.b.frac, f, Carry(i.a, i.b, m), i.a.frac + i.b.frac - Carry(i.a, i.b, m) * f);
  }

  /** Seconds moved from the cycle field into the TAI field. */
  function Moved(o: Overflow): int {
    match o case NONE => 0 case ONCE => 1 case TWICE => 2 case UNDER => -1
  }

  lemma LastStage(s: Stamp, m: Format)
    requires Sound(m) && Fits(s.cycles, m.cyclesBits + 2) && 0 <= s.tai < Pow2(m.taiBits)
    ensures var q, k := Stage3(s, Detect(s, m), m), Moved(Detect(s, m));
      q.cycles == s.cycles - k * m.rate && q.tai == (s.tai + k) % Pow2(m.taiBits) && q.frac == s.frac
  {
    var o := Detect(s, m);
    assert Fits(s.cycles - Moved(o) * m.rate, m.cyclesBits + 2);
    WrapExact(s.cycles - Moved(o) * m.rate, m.cyclesBits + 2);
    if o == NONE { ModUnique(s.tai, Pow2(m.taiBits), 0, s.tai); }
  }

  lemma SumFields(i: AdderInput, m: Format)
    requires Sound(m) && Operand(i.a, m) && Operand(i.b, m)
    ensures var q, k := Sum(i, m), Moved(Detect(Stage1(Stage0(i, m), m), m));
      && q.cycles == CoarseSum(i.a, i.b, m) - k * m.rate
      && q.tai == (i.a.tai + i.b.tai + k) % Pow2(m.taiBits)
      && q.frac == i.a.frac + i.b.frac - Carry(i.a, i.b, m) * Pow2(m.fracBits) && 0 <= q.frac < Pow2(m.fracBits)
  {
    var s1 := Stage1(Stage0(i, m), m);
    FirstStages(i, m);
    LastStage(s1, m);
    ModAdd(i.a.tai + i.b.tai, Moved(Detect(s1, m)), Pow2(m.taiBits));
  }

  /** The sum is normalised exactly when the coarse sum, carry included, is between -R and 3R-1. */
  lemma SumIsNormalised(i: AdderInput, m: Format)
    requires Sound(m) && Operand(i.a, m) && Operand(i.b, m)
    ensures Normalised(Sum(i, m), m) <==> -m.rate <= CoarseSum(i.a, i.b, m) < 3 * m.rate
  {
    SumFields(i, m);
    FirstStages(i, m);
  }

  /** The sum always stands for the time a + b, up to n whole wraps of the TAI field. */
  lemma SumKeepsTotal(i: AdderInput, m: Format) returns (n: int)
    requires Sound(m) && Operand(i.a, m) && Operand(i.b, m)
    ensures Total(Sum(i, m), m) == Total(i.a, m) + Total(i.b, m) - n * Period(m)
  {
    var k := Moved(Detect(Stage1(Stage0(i, m), m), m));
    SumFields(i, m);
    n := (i.a.tai + i.b.tai + k) / Pow2(m.taiBits);
    hide *;
    TotalsAgree(i.a, i.b, Sum(i, m), k, n, CoarseSum(i.a, i.b, m) - i.a.cycles - i.b.cycles, m);
  }

  lemma TotalsAgree(a: Stamp, b: Stamp, q: Stamp, k: int, n: int, c: int, m: Format)
    requires q.tai == (a.tai + b.tai + k) % Pow2(m.taiBits) && n == (a.tai + b.tai + k) / Pow2(m.taiBits)
    requires q.cycles == a.cycles + b.cycles + c - k * m.rate && q.frac == a.frac + b.frac - c * Pow2(m.fracBits)
    ensures Total(q, m) == Total(a, m) + Total(b, m) - n * Period(m)
  {
    var p, f, t := Pow2(m.taiBits), Pow2(m.fracBits), a.tai + b.tai + k;
    hide Pow2;
    assert t == n * p + q.tai by { assert t == p * (t / p) + t % p; }
    Regroup(a, b, q, k, n, p, f, m.rate, c);
  }

  lemma Regroup(a: Stamp, b: Stamp, q: Stamp, k: int, n: int, p: int, f: int, r: int, c: int)
    requires q.tai == a.tai + b.tai + k - n * p && q.cycles == a.cycles + b.cycles + c - k * r
    requires q.frac == a.frac + b.frac - c * f
    ensures (q.tai * r + q.cycles) * f + q.frac
      == (a.tai * r + a.cycles) * f + a.frac + ((b.tai * r + b.cycles) * f + b.frac) - n * (p * r * f)
  {
    assert q.tai * r == a.tai * r + b.tai * r + k * r - n * p * r;
    assert q.tai * r + q.cycles == (a.tai * r + a.cycles) + (b.tai * r + b.cycles) + c - n * p * r;
    assert (q.tai * r + q.cycles) * f
      == (a.tai * r + a.cycles) * f + (b.tai * r + b.cycles) * f + c * f - n * p * r * f;
    assert n * (p * r * f) == n * p * r * f;
  }

  // ----- the pipeline -----

  lemma {:induction false} OperandsHeld(s: Adder, ins: seq<AdderInput>, k: nat, n: nat, m: Format)
    requires |s.pipe| == 4 && k <= n < |ins| && ins[k].enable && forall j | k < j <= n :: !ins[j].enable
    ensures AdderRun(s, ins, n + 1, m).sum0 == Stage0(ins[k], m)
  {
    hide Stage0, Stage1, Stage3, Detect;
    if k < n { OperandsHeld(s, ins, k, n - 1, m); }
  }

  /** While enable_i is low the last pair accepted stays in the pipeline, and its sum at the output, although it is
      not marked as valid. */
  lemma SumIsHeld(s: Adder, ins: seq<AdderInput>, k: nat, n: nat, m: Format)
    requires |s.pipe| == 4 && k <= n && n + 4 <= |ins|
    requires ins[k].enable && forall j | k < j <= n :: !ins[j].enable
    ensures AdderRun(s, ins, n + 4, m).sum3 == Sum(ins[k], m)
    ensures k < n ==> !AdderRun(s, ins, n + 4, m).pipe[3]
  {
    hide AdderRun, AdderNext, Stage0, Stage1, Stage3, Detect;
    OperandsHeld(s, ins, k, n, m);
    AdderStep(s, ins, n, m);
    AdderStep(s, ins, n + 1, m);
    AdderStep(s, ins, n + 2, m);
    AdderStep(s, ins, n + 3, m);
  }

  lemma AdderStep(s: Adder, ins: seq<AdderInput>, n: nat, m: Format)
    requires |s.pipe| == 4 && n < |ins|
    ensures var q, t, i := AdderRun(s, ins, n, m), AdderRun(s, ins, n + 1, m), ins[n];
      && t.pipe[0] == (i.enable && i.valid) && t.pipe[1] == q.pipe[0] && t.pipe[2] == q.pipe[1]
      && t.pipe[3] == q.pipe[2]
      && t.sum1 == Stage1(q.sum0, m) && t.sum2 == q.sum1 && t.coarse == Detect(q.sum1, m)
      && t.sum3 == Stage3(q.sum2, q.coarse, m)
  {
    hide Stage0, Stage1, Stage3, Detect;
  }

  /** Four cycles after it was accepted, and only then, a pair of stamps comes out as its sum. */
  lemma AdderPipeline(s: Adder, ins: seq<AdderInput>, n: nat, m: Format)
    requires |s.pipe| == 4 && n + 4 <= |ins|
    requires Sound(m) && Operand(ins[n].a, m) && Operand(ins[n].b, m)
    ensures var t := AdderRun(s, ins, n + 4, m);
      && t.pipe[3] == (ins[n].enable && ins[n].valid)
      && (t.pipe[3] ==> t.sum3 == Sum(ins[n], m))
      && (t.pipe[3] && Normalised(t.sum3, m) ==> AdderOut(t, m) == t.sum3)
  {
    hide AdderRun, AdderNext, Stage0, Stage1, Stage3, Detect;
    AdderStep(s, ins, n, m);
    AdderStep(s, ins, n + 1, m);
    AdderStep(s, ins, n + 2, m);
    AdderStep(s, ins, n + 3, m);
    if ins[n].enable { OperandsHeld(s, ins, n, n, m); }
    if Normalised(Sum(ins[n], m), m) {
      var q := Sum(ins[n], m);
      ModUnique(q.cycles, Pow2(m.cyclesBits), 0, q.cycles);
      ModUnique(q.frac, Pow2(m.fracBits), 0, q.frac);
    }
  }

  /** The range documented for the operands is one too wide: with a carry out of the fractions, a
      coarse sum of 3R-1 is not normalised. */
  lemma DocumentedRangeIsTooWide()
    ensures var m := Format(2, 28, 32, 62500000);
      var i := AdderInput(true, true, Stamp(0, 93750000, 2), Stamp(0, 93749999, 2));
      && Sound(m) && Operand(i.a, m) && Operand(i.b, m)
      && i.a.cycles + i.b.cycles == 3 * m.rate - 1 && !Normalised(Sum(i, m), m)
  {
    var m := Format(2, 28, 32, 62500000);
    var i := AdderInput(true, true, Stamp(0, 93750000, 2), Stamp(0, 93749999, 2));
    Pow2Constants();
    Pow2Sum(17, 10);
    Pow2Sum(27, 1);
    Pow2Sum(27, 2);
    SumIsNormalised(i, m);
    hide Sum;
  }

  lemma {:induction false} AdderExtends(s: Adder, ins: seq<AdderInput>, i: AdderInput, n: nat, m: Format)
    requires |s.pipe| == 4 && n <= |ins|
    ensures AdderRun(s, ins + [i], n, m) == AdderRun(s, ins, n, m)
  {
    hide AdderNext;
    if n > 0 {
      AdderExtends(s, ins, i, n - 1, m);
      assert (ins + [i])[n - 1] == ins[n - 1];
    }
  }

  class TimestampAdder {
    const m: Format
    const pipe: array<bool>
    const sums: array<Stamp>
    var coarse: Overflow
    ghost const start: Adder
    ghost var history: seq<AdderInput>

    ghost function Registers(): Adder
      requires sums.Length == 4
      reads this, pipe, sums
    {
      Adder(pipe[..], sums[0], sums[1], sums[2], sums[3], coarse)
    }

    ghost predicate Valid()
      reads this, pipe, sums
    {
      && pipe.Length == 4 && sums.Length == 4 && |start.pipe| == 4
      && Registers() == AdderRun(start, history, |history|, m)
    }

    constructor (m: Format)
      ensures Valid() && history == [] && this.m == m && fresh(pipe) && fresh(sums)
    {
      this.m := m;
      var zero := Stamp(0, 0, 0);
      pipe := new bool[] [false, false, false, false];
      sums := new Stamp[] [zero, zero, zero, zero];
      coarse, history := NONE, [];
      start := Adder([false, false, false, false], zero, zero, zero, zero, NONE);
      new;
      assert pipe[..] == start.pipe;
    }

    /** The stages, the last one first, so that each sees its predecessor as it was before the edge. */
    method ClockStages(i: AdderInput)
      requires pipe.Length == 4 && sums.Length == 4
      modifies this`coarse, pipe, sums
      ensures Registers() == AdderNext(old(Registers()), i, m)
    {
      hide Stage0, Stage1, Stage3, Detect;
      sums[3], pipe[3] := Stage3(sums[2], coarse, m), pipe[2];
      coarse, sums[2], pipe[2] := Detect(sums[1], m), sums[1], pipe[1];
      sums[1], pipe[1] := Stage1(sums[0], m), pipe[0];
      if i.enable {
        sums[0], pipe[0] := Stage0(i, m), i.valid;
      } else {
        pipe[0] := false;
      }
      assert pipe[..] == [i.enable && i.valid] + old(pipe[..])[..3];
    }

    /** One rising edge.  The outputs belong to the operands of four edges ago. */
    method Clock(i: AdderInput) returns (valid: bool, q: Stamp)
      requires Valid()
      modifies this, pipe, sums
      ensures Valid() && history == old(history) + [i]
      ensures |history| >= 4 ==>
        var j := history[|history| - 4];
        Sound(m) && Operand(j.a, m) && Operand(j.b, m) ==>
          valid == (j.enable && j.valid) && (valid && Normalised(Sum(j, m), m) ==> q == Sum(j, m))
    {
      hide AdderNext, Sum, Normalised, Sound, Operand, Pow2;
      ClockStages(i);
      AdderExtends(start, history, i, |history|, m);
      history := history + [i];
      valid := pipe[3];
      q := Stamp(sums[3].tai, sums[3].cycles % Pow2(m.cyclesBits), sums[3].frac % Pow2(m.fracBits));
      if |history| >= 4 {
        var j := history[|history| - 4];
        if Sound(m) && Operand(j.a, m) && Operand(j.b, m) {
          AdderPipeline(start, history, |history| - 4, m);
        }
      }
    }
  }

  // ----- comparison -----

  datatype CompareInput = CompareInput(valid: bool, a: Stamp, b: Stamp)

  datatype Comparator = Comparator(
    taiLess: bool, taiEqual: bool, cyclesLess: bool, cyclesEqual: bool, stage1: bool,
    equal: bool, less: bool, greater: bool, valid: bool)

  function CompareNext(s: Comparator, i: CompareInput): Comparator {
    Comparator(
      i.a.tai < i.b.tai, i.a.tai == i.b.tai, i.a.cycles < i.b.cycles, i.a.cycles == i.b.cycles, i.valid,
      s.taiEqual && s.cyclesEqual,
      s.taiLess || (s.taiEqual && s.cyclesLess),
      !(s.taiEqual || s.taiLess) || (s.taiEqual && !(s.cyclesLess || s.cyclesEqual)),
      s.stage1)
  }

  predicate InSecond(i: CompareInput, m: Format) {
    m.rate >= 1 && 0 <= i.a.cycles < m.rate && 0 <= i.b.cycles < m.rate
  }

  /** Exactly one flag is up, and it is the one that orders the two times. */
  predicate Orders(t: Comparator, i: CompareInput, m: Format) {
    var a, b := i.a.tai * m.rate + i.a.cycles, i.b.tai * m.rate + i.b.cycles;
    && t.valid == i.valid
    && (t.equal <==> a == b) && (t.less <==> a < b) && (t.greater <==> a > b)
  }

  /** The first stage has compared the operands. */
  predicate Compared(s: Comparator, i: CompareInput) {
    && (s.taiLess <==> i.a.tai < i.b.tai) && (s.taiEqual <==> i.a.tai == i.b.tai)
    && (s.cyclesLess <==> i.a.cycles < i.b.cycles) && (s.cyclesEqual <==> i.a.cycles == i.b.cycles)
    && s.stage1 == i.valid
  }

  lemma ComparedOrders(s: Comparator, i: CompareInput, j: CompareInput, m: Format)
    requires Compared(s, i) && InSecond(i, m)
    ensures Orders(CompareNext(s, j), i, m)
  {
    var d, r := i.a.tai - i.b.tai, m.rate;
    assert i.a.tai * r == i.b.tai * r + d * r;
    MulMonotone(1, d, r);
    MulMonotone(d, -1, r);
  }

  /** Two cycles later exactly one flag is up, and it is the one that orders the two times. */
  lemma CompareOrdersTime(s: Comparator, i: CompareInput, j: CompareInput, m: Format)
    requires InSecond(i, m)
    ensures Orders(CompareNext(CompareNext(s, i), j), i, m)
  {
    ComparedOrders(CompareNext(s, i), i, j, m);
  }

  class TimestampComparator {
    var taiLess: bool
    var taiEqual: bool
    var cyclesLess: bool
    var cyclesEqual: bool
    var stage1: bool
    var equal: bool
    var less: bool
    var greater: bool
    var valid: bool
    ghost var history: seq<CompareInput>

    ghost function Registers(): Comparator
      reads this
    {
      Comparator(taiLess, taiEqual, cyclesLess, cyclesEqual, stage1, equal, less, greater, valid)
    }

    /** The first stage holds the comparison of the last operands. */
    ghost predicate Valid()
      reads this
    {
      history != [] ==> Compared(Registers(), history[|history| - 1])
    }

    constructor ()
      ensures Valid() && history == []
    {
      taiLess, taiEqual, cyclesLess, cyclesEqual, stage1 := false, false, false, false, false;
      equal, less, greater, valid, history := false, false, false, false, [];
    }

    /** p_stage2 */
    method ClockOutputs()
      modifies this`equal, this`less, this`greater, this`valid
      ensures equal == (taiEqual && cyclesEqual) && less == (taiLess || (taiEqual && cyclesLess)) && valid == stage1
      ensures greater == (!(taiEqual || taiLess) || (taiEqual && !(cyclesLess || cyclesEqual)))
    {
      equal := taiEqual && cyclesEqual;
      less := taiLess || (taiEqual && cyclesLess);
      greater := !(taiEqual || taiLess) || (taiEqual && !(cyclesLess || cyclesEqual));
      valid := stage1;
    }

    method ClockStages(i: CompareInput)
      modifies this`taiLess, this`taiEqual, this`cyclesLess, this`cyclesEqual, this`stage1,
        this`equal, this`less, this`greater, this`valid
      ensures Registers() == CompareNext(old(Registers()), i)
    {
      ClockOutputs();
      taiLess, taiEqual := i.a.tai < i.b.tai, i.a.tai == i.b.tai;
      cyclesLess, cyclesEqual := i.a.cycles < i.b.cycles, i.a.cycles == i.b.cycles;
      stage1 := i.valid;
    }

    /** One rising edge.  The flags order the operands of the edge before. */
    method Clock(i: CompareInput, ghost m: Format)
      requires Valid()
      modifies this
      ensures Valid() && history == old(history) + [i]
      ensures |history| >= 2 && InSecond(history[|history| - 2], m) ==> Orders(Registers(), history[|history| - 2], m)
    {
      hide Orders, InSecond;
      ghost var before := Registers();
      ClockStages(i);
      assert Compared(CompareNext(before, i), i);
      hide CompareNext, Compared;
      history := history + [i];
      if |history| >= 2 && InSecond(history[|history| - 2], m) {
        ComparedOrders(before, history[|history| - 2], i, m);
      }
    }
  }
}

// The FIR filter of the host software (filters.c): a circular delay line, coefficients and accumulator
// taken as reals.
module Fir {

  /** The sample of time t; before the first one there were zeros. */
  function Past(xs: seq<int>, t: int): int {
    if 0 <= t < |xs| then xs[t] else 0
  }

  /** The first m products of the sliding window that ends with the last sample. */
  function WindowSum(coefs: seq<real>, xs: seq<int>, m: nat): real
    requires m <= |coefs|
  {
    if m == 0 then 0.0
    else WindowSum(coefs, xs, m - 1) + coefs[m - 1] * Past(xs, |xs| - |coefs| + m - 1) as real
  }

  /** The conversion of a double to an int: towards zero. */
  function Truncate(r: real): (n: int)
    ensures if r >= 0.0 then n as real <= r < n as real + 1.0 else n as real - 1.0 < r <= n as real
  {
    if r >= 0.0 then r.Floor else -(-r).Floor
  }

  class FirFilter {
    const coefs: array<real>
    const delay: array<int>
    var pos: nat
    ghost var samples: seq<int>

    /** Slot k holds the last sample that was written there, or the zero of fir_load. */
    ghost predicate Valid()
      reads this, delay
    {
      && coefs.Length == delay.Length > 0 && pos < delay.Length
      && forall k | 0 <= k < delay.Length ::
        delay[k] == Past(samples, |samples| - pos + k - if k < pos then 0 else delay.Length)
    }

    constructor (coefs: array<real>)
      requires coefs.Length > 0
      ensures Valid() && samples == [] && this.coefs == coefs && fresh(delay)
    {
      this.coefs := coefs;
      delay := new int[coefs.Length](_ => 0);
      pos, samples := 0, [];
    }

    /** fir_process */
    method Process(x: int) returns (y: int)
      requires Valid()
      modifies this, delay
      ensures Valid() && samples == old(samples) + [x]
      ensures y == Truncate(WindowSum(coefs[..], samples, coefs.Length))
    {
      var n := delay.Length;
      var acc := 0.0;
      delay[pos] := x;
      samples := samples + [x];
      var i := 0;
      while i < n
        invariant 0 <= i <= n
        invariant acc == WindowSum(coefs[..], samples, i)
      {
        var idx := pos - n + 1 + i;
        if idx < 0 {
          idx := idx + n;
        } else if idx >= n {
          idx := idx - n;
        }
        acc := acc + coefs[i] * delay[idx] as real;
        i := i + 1;
      }
      pos := pos + 1;
      if pos == n {
        pos := 0;
      }
      y := Truncate(acc);
    }
  }

  // ----- what the window means -----

  /** A single 1 comes back as the coefficient of its age, newest first, and then no more. */
  lemma {:induction false} ImpulseResponse(coefs: seq<real>, xs: seq<int>, at: nat, m: nat)
    requires at < |xs| && m <= |coefs| && forall t | 0 <= t < |xs| :: xs[t] == if t == at then 1 else 0
    ensures var k := |coefs| - 1 - (|xs| - 1 - at);
      WindowSum(coefs, xs, m) == if 0 <= k < m then coefs[k] else 0.0
  {
    if m > 0 {
      ImpulseResponse(coefs, xs, at, m - 1);
    }
  }

  /** The sum of coefficients. */
  function Gain(coefs: seq<real>, m: nat): real
    requires m <= |coefs|
  {
    if m == 0 then 0.0 else Gain(coefs, m - 1) + coefs[m - 1]
  }

  /** Once the window is full of a constant, the sum is the constant times the gain. */
  lemma {:induction false} ConstantInput(coefs: seq<real>, xs: seq<int>, c: int, m: nat)
    requires m <= |coefs| <= |xs| && forall t | |xs| - |coefs| <= t < |xs| :: xs[t] == c
    ensures WindowSum(coefs, xs, m) == Gain(coefs, m) * c as real
  {
    if m > 0 {
      ConstantInput(coefs, xs, c, m - 1);
    }
  }
}

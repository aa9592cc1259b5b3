// Two's-complement registers of a stated width, as used by every datapath of the design.
module Bits {

  function Pow2(n: nat): (p: int)
    ensures p >= 1
  {
    if n == 0 then 1 else 2 * Pow2(n - 1)
  }

  /** A value that a signed register of `width` bits can hold. */
  predicate Fits(v: int, width: nat)
    requires width >= 1
  {
    -Pow2(width - 1) <= v < Pow2(width - 1)
  }

  /** What is left of v once it is stored in a signed register of `width` bits. */
  function Wrap(v: int, width: nat): (w: int)
    requires width >= 1
    ensures Fits(w, width)
  {
    (v + Pow2(width - 1)) % Pow2(width) - Pow2(width - 1)
  }

  lemma {:induction false} Pow2Sum(a: nat, b: nat)
    ensures Pow2(a + b) == Pow2(a) * Pow2(b)
  {
    if a > 0 {
      Pow2Sum(a - 1, b);
      assert Pow2(a + b) == 2 * (Pow2(a - 1) * Pow2(b)) == Pow2(a) * Pow2(b);
    }
  }

  lemma Pow2Constants()
    ensures Pow2(6) == 64 && Pow2(10) == 1024 && Pow2(16) == 65536 && Pow2(17) == 131072
    ensures Pow2(23) == 8388608 && Pow2(33) == 8589934592 && Pow2(39) == 549755813888
  {
    assert Pow2(5) == 32;
    Pow2Sum(5, 5);
    assert Pow2(6) == 64 && Pow2(7) == 128;
    Pow2Sum(10, 6);
    Pow2Sum(10, 7);
    Pow2Sum(16, 7);
    Pow2Sum(23, 10);
    Pow2Sum(33, 6);
  }

  lemma {:induction false} Pow2Monotone(a: nat, b: nat)
    requires a <= b
    ensures Pow2(a) <= Pow2(b)
  {
    if a < b { Pow2Monotone(a, b - 1); }
  }

  lemma MulMonotone(a: int, b: int, c: int)
    requires c >= 0
    ensures a <= b ==> a * c <= b * c
  {
    if a <= b { assert b * c == a * c + (b - a) * c; }
  }

  lemma AbsProduct(a: int, b: int, m: int, n: int)
    requires -m <= a <= m && -n <= b <= n
    ensures -(m * n) <= a * b <= m * n
  {
    var c := if b >= 0 then b else -b;
    MulMonotone(-m, a, c);
    MulMonotone(a, m, c);
    MulMonotone(c, n, m);
    assert c * m == m * c && n * m == m * n && -m * c == -(m * c);
    assert a * b == if b >= 0 then a * c else -(a * c);
  }

  lemma MulBounds(m: int, d: int)
    requires m > 0
    ensures d >= 1 ==> m * d >= m
    ensures d <= -1 ==> m * d <= -m
  {
    if d >= 1 { assert m * d == m + m * (d - 1); } else if d <= -1 { assert m * d == -m + m * (d + 1); }
  }

  /** The remainder is the only value in 0..m-1 that differs from x by a multiple of m. */
  lemma ModUnique(x: int, m: int, q: int, r: int)
    requires 0 <= r < m && x == q * m + r
    ensures x % m == r && x / m == q
  {
    var d := x / m - q;
    assert x == m * (x / m) + x % m;
    assert m * d == r - x % m by { assert m * d == m * (x / m) - m * q; }
    MulBounds(m, d);
  }

  /** Storing a value that fits loses nothing. */
  lemma WrapExact(v: int, width: nat)
    requires width >= 1 && Fits(v, width)
    ensures Wrap(v, width) == v
  {
    ModUnique(v + Pow2(width - 1), Pow2(width), 0, v + Pow2(width - 1));
  }

  /** A register of the declared width, or of unbounded width when `ideal`. */
  function Store(v: int, width: nat, ideal: bool): int
    requires width >= 1
  {
    if ideal then v else Wrap(v, width)
  }

  lemma WrapZero(width: nat)
    requires width >= 1
    ensures Wrap(0, width) == 0
  {
    WrapExact(0, width);
  }

  /** Losing the high bits of one operand early does not change the truncated sum. */
  lemma WrapOfSum(a: int, b: int, width: nat)
    requires width >= 1
    ensures Wrap(a + Wrap(b, width), width) == Wrap(a + b, width)
  {
    var h, m := Pow2(width - 1), Pow2(width);
    var q := (b + h) / m;
    assert b + h == q * m + (b + h) % m;
    var u := a + Wrap(b, width) + h;
    assert u == (u / m) * m + u % m;
    ModUnique(a + b + h, m, u / m + q, u % m) by {
      assert (u / m + q) * m == (u / m) * m + q * m;
    }
  }

  /** A logical right shift of a register of `width` bits, whose result is read as unsigned. */
  function ShiftRight(v: int, n: nat, width: nat): int {
    (v % Pow2(width)) / Pow2(n)
  }

  lemma ModPeriodic(x: int, k: int, m: int)
    requires m > 0
    ensures (x + k * m) % m == x % m && (x + k * m) / m == x / m + k
  {
    assert (x / m + k) * m == x / m * m + k * m;
    ModUnique(x + k * m, m, x / m + k, x % m);
  }

  lemma ModAdd(x: int, k: int, m: int)
    requires m > 0
    ensures (x % m + k) % m == (x + k) % m
  {
    assert x + k == x % m + k + (x / m) * m;
    ModPeriodic(x % m + k, x / m, m);
  }

  lemma {:induction false} WrapPeriodic(v: int, k: int, width: nat)
    requires width >= 1
    ensures Wrap(v + k * Pow2(width), width) == Wrap(v, width)
  {
    hide Pow2;
    var h, m := Pow2(width - 1), Pow2(width);
    ModPeriodic(v + h, k, m);
    assert v + k * m + h == v + h + k * m;
  }

  /** Kept in `target` bits, a logical shift of a signed value is the rounded-down quotient. */
  lemma {:induction false} ShiftExact(v: int, n: nat, width: nat, target: nat)
    requires 1 <= target <= width - n && Fits(v, width) && Fits(v / Pow2(n), target)
    ensures Wrap(ShiftRight(v, n, width), target) == v / Pow2(n)
  {
    WrapExact(v / Pow2(n), target);
    if v >= 0 {
      ModUnique(v, Pow2(width), 0, v);
    } else {
      ModUnique(v, Pow2(width), -1, v + Pow2(width));
      ShiftNegative(v, n, width, target);
      WrapPeriodic(v / Pow2(n), Pow2(width - n - target), target);
    }
  }

  lemma ShiftNegative(v: int, n: nat, width: nat, target: nat)
    requires target <= width - n
    ensures (v + Pow2(width)) / Pow2(n) == v / Pow2(n) + Pow2(width - n - target) * Pow2(target)
  {
    Pow2Sum(n, width - n);
    Pow2Sum(width - n - target, target);
    var p, q := Pow2(n), Pow2(width - n);
    hide Pow2;
    assert p * q == q * p;
    ModPeriodic(v, q, p);
  }
}

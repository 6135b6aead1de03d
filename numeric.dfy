/** Python's numeric built-ins over exact reals and unbounded integers. */
module Numeric {

  function Min(a: int, b: int): int { if a <= b then a else b }

  function Max(a: int, b: int): int { if a >= b then a else b }

  function MinReal(a: real, b: real): real { if a <= b then a else b }

  function MaxReal(a: real, b: real): real { if a >= b then a else b }

  function Abs(a: int): nat { if a < 0 then -a else a }

  /** `max(lo, min(hi, x))`. */
  function Clamp(x: int, lo: int, hi: int): (r: int)
    requires lo <= hi
    ensures lo <= r <= hi
    ensures lo <= x <= hi ==> r == x
  {
    Max(lo, Min(hi, x))
  }

  /** Python's `int(x)` on a float: the integer part, truncated toward zero. */
  function Trunc(x: real): (n: int)
    ensures 0.0 <= x ==> 0 <= n && n as real <= x < n as real + 1.0
    ensures x < 0.0 ==> n <= 0 && n as real - 1.0 < x <= n as real
  {
    if x >= 0.0 then x.Floor else -((-x).Floor)
  }

  /** `int()` never moves a value past an integer below it. */
  lemma TruncAtLeast(x: real, k: int)
    requires k as real <= x
    ensures k <= Trunc(x)
  {
  }

  /** `int()` is non-decreasing. */
  lemma TruncMonotone(x: real, y: real)
    requires x <= y
    ensures Trunc(x) <= Trunc(y)
  {
  }

  /** For non-negative counts, `int(c / m * 100)` is the integer quotient `100 * c / m`. */
  lemma TruncPercent(c: nat, m: nat)
    requires m > 0
    ensures Trunc(c as real / m as real * 100.0) == (100 * c) / m
  {
    var q, r := (100 * c) / m, (100 * c) % m;
    assert 100 * c == q * m + r;
    var x := c as real / m as real * 100.0;
    assert x * m as real == (100 * c) as real;
    assert x == q as real + r as real / m as real;
    assert 0.0 <= r as real / m as real < 1.0;
  }

  /** A share of at most the whole is at most 100 percent. */
  lemma PercentAtMost100(c: nat, m: nat)
    requires 0 < m && c <= m
    ensures 0 <= (100 * c) / m <= 100
  {
    var q, r := (100 * c) / m, (100 * c) % m;
    assert 100 * c == q * m + r && 0 <= r;
    assert q * m <= 100 * m;
    assert (q - 100) * m <= 0;
  }

  /** The whole is 100 percent of itself. */
  lemma PercentOfWhole(m: nat)
    requires 0 < m
    ensures (100 * m) / m == 100
  {
    TruncPercent(m, m);
    assert m as real / m as real == 1.0;
  }

  /** Sum of a sequence of integers, as Python's `sum`. */
  function Sum(s: seq<int>): int
  {
    if s == [] then 0 else Sum(s[..|s| - 1]) + s[|s| - 1]
  }
}

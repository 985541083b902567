/** Rust's `/` and `%` on signed integers, which truncate toward zero
    (Dafny's own `/` and `%` are Euclidean). */
module Ints {
  function Abs(x: int): nat { if x < 0 then -x else x }

  /** `x / m`: the quotient of the magnitudes, negated when the signs differ. */
  function TruncDiv(x: int, m: int): (q: int)
    requires m != 0
    ensures Abs(q) == Abs(x) / Abs(m)
  {
    var q := Abs(x) / Abs(m);
    QuotientOfMagnitudes(Abs(x), Abs(m));
    if (x < 0) == (m < 0) then q else -q
  }

  lemma QuotientOfMagnitudes(a: nat, b: nat)
    requires b > 0
    ensures a / b >= 0
  {
  }

  /** `x % m`: what the truncated quotient leaves (`TruncDivision`), with
      the sign of `x`. */
  function TruncRem(x: int, m: int): (r: int)
    requires m != 0
    ensures Abs(r) < Abs(m)
    ensures x >= 0 ==> r >= 0
    ensures x <= 0 ==> r <= 0
  {
    if x >= 0 then Abs(x) % Abs(m) else -(Abs(x) % Abs(m))
  }

  /** Rust's division identity: `x == m * (x / m) + x % m`. */
  lemma TruncDivision(x: int, m: int)
    requires m != 0
    ensures x == m * TruncDiv(x, m) + TruncRem(x, m)
  {
    var b: int, q: int, r: int := Abs(m), Abs(x) / Abs(m), Abs(x) % Abs(m);
    assert Abs(x) == b * q + r;
    MultiplySigns(b, q);
    if x >= 0 && m > 0 {
      assert m * TruncDiv(x, m) == b * q;
    } else if x >= 0 {
      assert m * TruncDiv(x, m) == (-b) * (-q);
    } else if m > 0 {
      assert m * TruncDiv(x, m) == b * (-q);
    } else {
      assert m * TruncDiv(x, m) == (-b) * q;
    }
  }

  lemma MultiplySigns(b: int, q: int)
    ensures (-b) * (-q) == b * q && (-b) * q == -(b * q) && b * (-q) == -(b * q)
  {
  }

  /** For a non-negative dividend and a positive divisor both agree with
      Dafny's operators. */
  lemma TruncOfNonNegative(x: int, m: int)
    requires x >= 0 && m > 0
    ensures TruncDiv(x, m) == x / m && TruncRem(x, m) == x % m
  {
  }

  // ---------------------------------------------------------------- Euclidean facts

  /** The Euclidean quotient and remainder are the only ones. */
  lemma ModUnique(a: int, f: int, q: int, r: int)
    requires f >= 1 && a == f * q + r && 0 <= r < f
    ensures a % f == r && a / f == q
  {
    var d := q - a / f;
    assert f * d == a % f - r by {
      assert f * d == f * q - f * (a / f);
    }
    SmallMultiple(f, d);
  }

  /** A multiple of `f` strictly between `-f` and `f` is zero. */
  lemma SmallMultiple(f: int, d: int)
    requires f >= 1 && -f < f * d < f
    ensures d == 0
  {
  }

  /** Adding a multiple of `f` to `x`, giving `y`, does not change the remainder. */
  lemma ModOfMultiplePlus(f: int, t: int, x: int, y: int)
    requires f >= 1 && y == f * t + x
    ensures y % f == x % f
  {
    assert x == f * (x / f) + x % f;
    assert y == f * (t + x / f) + x % f;
    ModUnique(y, f, t + x / f, x % f);
  }

  /** Reducing a summand first does not change the remainder: `r` is the
      reduced summand `a % n` and `c` the sum `a + b`. */
  lemma ModAddMod(a: nat, b: nat, n: int, r: int, c: int)
    requires n >= 1 && r == a % n && c == a + b
    ensures (r + b) % n == c % n
  {
    ModOfMultiplePlus(n, a / n, r + b, c);
  }
}

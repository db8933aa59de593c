/**
 * The numeric vocabulary of the game: JavaScript's `x || d` on numbers,
 * `Math.min`/`Math.max`, exact integer powers, and the transcendental
 * functions (`Math.log10`, `Math.log2`, `**`) as an external collaborator.
 */
module RealMath {

  /**
   * The floating-point library the engine calls. Its functions are not
   * modelled; `Lawful` states the only facts about them that the game fixes.
   */
  datatype Math = Math(pow: (real, real) -> real, log10: real -> real, log2: real -> real)

  ghost predicate Lawful(m: Math) {
    && (forall x :: m.pow(x, 1.0) == x)
    && (forall x, e :: x >= 0.0 ==> m.pow(x, e) >= 0.0)
    && m.log10(1.0) == 0.0
    && m.log2(1.0) == 0.0
    && (forall x :: x >= 1.0 ==> m.log10(x) >= 0.0)
    && (forall x :: x >= 1.0 ==> m.log2(x) >= 0.0)
  }

  /** `x || d` on a number: zero is falsy and is replaced by the default. */
  function Or(x: real, d: real): (r: real)
    ensures r == x || (x == 0.0 && r == d)
  {
    if x == 0.0 then d else x
  }

  function Min(a: real, b: real): real {
    if a <= b then a else b
  }

  function Max(a: real, b: real): real {
    if a >= b then a else b
  }

  /** `b ** n` for a natural exponent, computed exactly. */
  function Pow(b: real, n: nat): real {
    if n == 0 then 1.0 else b * Pow(b, n - 1)
  }

  lemma {:induction false} PowAtLeastOne(b: real, n: nat)
    requires b >= 1.0
    ensures Pow(b, n) >= 1.0
  {
    if n > 0 {
      PowAtLeastOne(b, n - 1);
    }
  }

  lemma {:induction false} PowMonotone(b: real, n: nat, k: nat)
    requires b >= 1.0 && n <= k
    ensures Pow(b, n) <= Pow(b, k)
  {
    if n < k {
      PowMonotone(b, n, k - 1);
      PowAtLeastOne(b, k - 1);
    }
  }

  /** Scaling by a positive factor keeps a non-strict order. */
  lemma NonNegativeProduct(a: real, b: real)
    requires a >= 0.0 && b >= 0.0
    ensures a * b >= 0.0
  {
  }

  lemma ScaleLe(a: real, b: real, d: real)
    requires a <= b && d > 0.0
    ensures a * d <= b * d
  {
    assert b * d - a * d == (b - a) * d;
  }

  /** Scaling by a positive factor keeps a strict order. */
  lemma ScaleLt(a: real, b: real, d: real)
    requires a < b && d > 0.0
    ensures a * d < b * d
  {
    assert b * d - a * d == (b - a) * d;
  }

  /** Scaling by a negative factor reverses a non-strict order. */
  lemma ScaleLeNeg(a: real, b: real, d: real)
    requires a <= b && d < 0.0
    ensures a * d >= b * d
  {
    assert a * d - b * d == (b - a) * -d;
  }

  /** Scaling by a negative factor reverses a strict order. */
  lemma ScaleLtNeg(a: real, b: real, d: real)
    requires a < b && d < 0.0
    ensures a * d > b * d
  {
    assert a * d - b * d == (b - a) * -d;
  }

  /**
   * `n == Math.floor(x / d)`, stated without the division: `n <= x / d < n + 1`
   * multiplied through by `d`, which reverses both comparisons when `d < 0`.
   */
  predicate IsFloorDiv(n: int, x: real, d: real) {
    if d > 0.0 then n as real * d <= x < n as real * d + d
    else n as real * d >= x > n as real * d + d
  }

  /**
   * `Math.floor(x / d)` for a non-zero `d`, a whole number; for a positive
   * `d`, the count of whole multiples of `d` in `x`.
   */
  function FloorDiv(x: real, d: real): (q: real)
    requires d != 0.0
    ensures q == q.Floor as real
    ensures d > 0.0 ==> q * d <= x < q * d + d
  {
    FloorOfQuotient(x, d);
    FloorDivUnique(x, d);
    var n :| IsFloorDiv(n, x, d);
    n as real
  }

  /** A whole number that meets the floor's bounds is the floor. */
  lemma FloorDivExact(x: real, d: real, n: int)
    requires d != 0.0 && IsFloorDiv(n, x, d)
    ensures FloorDiv(x, d) == n as real
  {
    FloorDivUnique(x, d);
  }

  /** The floor of the quotient is a witness. */
  lemma FloorOfQuotient(x: real, d: real)
    requires d != 0.0
    ensures IsFloorDiv((x / d).Floor, x, d)
  {
    var y := x / d;
    var q := y.Floor as real;
    assert y * d == x;
    assert q <= y < q + 1.0;
    var hi := (q + 1.0) * d;
    assert hi == q * d + d;
    if d > 0.0 {
      ScaleLe(q, y, d);
      ScaleLt(y, q + 1.0, d);
      assert y * d < hi;
    } else {
      ScaleLeNeg(q, y, d);
      ScaleLtNeg(y, q + 1.0, d);
      assert y * d > hi;
    }
  }

  /** At most one integer is the floor of a quotient. */
  lemma FloorDivUnique(x: real, d: real)
    requires d != 0.0
    ensures forall n1, n2 :: IsFloorDiv(n1, x, d) && IsFloorDiv(n2, x, d) ==> n1 == n2
  {
    forall n1, n2 | IsFloorDiv(n1, x, d) && IsFloorDiv(n2, x, d)
      ensures n1 <= n2
    {
      FloorDivBelow(n1, n2, x, d);
    }
  }

  lemma FloorDivBelow(n1: int, n2: int, x: real, d: real)
    requires d != 0.0 && IsFloorDiv(n1, x, d) && IsFloorDiv(n2, x, d)
    ensures n1 <= n2
  {
    var gap := n2 as real + 1.0 - n1 as real;
    var lo, hi := n1 as real * d, n2 as real * d + d;
    assert gap * d == hi - lo;
    if d > 0.0 {
      assert lo <= x < hi;
    } else {
      assert lo >= x > hi;
    }
    SignOfFactor(gap, d);
  }

  /** A product has the sign of one factor times the sign of the other. */
  lemma SignOfFactor(p: real, d: real)
    requires (d > 0.0 && p * d > 0.0) || (d < 0.0 && p * d < 0.0)
    ensures p > 0.0
  {
  }
}

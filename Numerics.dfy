/**
 * JavaScript numbers are modelled as mathematical reals. The transcendental
 * `Math` functions the planner calls are kept abstract: a `MathLib` value
 * carries one function per `Math` member, and only the small laws the
 * proofs need are assumed about them, as preconditions of the lemmas that
 * use them.
 */
module Numerics {

  /** `Math.sqrt`, `Math.sin`, `Math.cos` and `Math.atan2`, left uninterpreted. */
  datatype MathLib = MathLib(
    sqrt: real -> real,
    sin: real -> real,
    cos: real -> real,
    atan2: (real, real) -> real)

  /** The value of the JavaScript literal `Math.PI`. */
  const MathPI: real := 3.141592653589793

  /** The square root of a non-negative number is non-negative and squares back to it. */
  ghost predicate SqrtLaws(m: MathLib) {
    forall v :: 0.0 <= v ==> 0.0 <= m.sqrt(v) && m.sqrt(v) * m.sqrt(v) == v
  }

  /** sin(a)^2 + cos(a)^2 == 1 for every angle a. */
  ghost predicate PythagoreanLaw(m: MathLib) {
    forall a :: m.sin(a) * m.sin(a) + m.cos(a) * m.cos(a) == 1.0
  }

  /** `Math.min` on two numbers. */
  function Min(a: real, b: real): (r: real)
    ensures r <= a && r <= b
    ensures r == a || r == b
  {
    if a <= b then a else b
  }

  /** `Math.max` on two numbers. */
  function Max(a: real, b: real): (r: real)
    ensures a <= r && b <= r
    ensures r == a || r == b
  {
    if a >= b then a else b
  }

  /** `Math.abs`. */
  function Abs(a: real): (r: real)
    ensures 0.0 <= r
    ensures r == a || r == -a
  {
    if a < 0.0 then -a else a
  }

  /**
   * The Euclidean norm of (x, y). It stands both for `Math.hypot(x, y)` and
   * for `Math.sqrt(x*x + y*y)`, which agree on reals.
   */
  function Hypot(m: MathLib, x: real, y: real): (r: real)
    ensures SqrtLaws(m) ==> 0.0 <= r && r * r == x * x + y * y
  {
    m.sqrt(x * x + y * y)
  }

  /** `Math.floor`: the largest integer not above q. */
  lemma FloorLaw(q: real)
    ensures (q.Floor as real) <= q < (q.Floor as real) + 1.0
  {
  }

  /** A product of non-negative numbers is non-negative. */
  lemma MulNonneg(a: real, b: real)
    requires 0.0 <= a && 0.0 <= b
    ensures 0.0 <= a * b
  {
  }

  /** A quotient by a non-zero number multiplied back by it. */
  lemma DivMul(a: real, b: real)
    requires b != 0.0
    ensures a / b * b == a
  {
  }

  /** A zero product with a non-zero factor has a zero cofactor. */
  lemma ZeroFactor(x: real, y: real)
    requires x * y == 0.0 && y != 0.0
    ensures x == 0.0
  {
  }

  /** Multiplying by a positive number keeps the order. */
  lemma ScaleBelow(a: real, b: real, c: real)
    requires 0.0 < c
    ensures a <= b ==> a * c <= b * c
    ensures a < b ==> a * c < b * c
  {
    assert b * c - a * c == (b - a) * c;
  }

  /** For non-negative numbers, comparing squares compares the numbers. */
  lemma SquareMonotone(a: real, b: real)
    requires 0.0 <= a && 0.0 <= b
    ensures a <= b <==> a * a <= b * b
  {
    var diff, sum := b - a, b + a;
    assert diff * sum == b * b - a * a;
    if a <= b {
      assert 0.0 <= diff * sum;
    } else {
      assert 0.0 < sum;
      assert diff * sum < 0.0;
    }
  }
}

/**
 * Workspace reachability, forward kinematics and the closed-form inverse
 * kinematics of the planar two-link arm (script.js, lines 4-64).
 */
module Kinematics {
  import opened Numerics

  /** Link lengths of the arm in metres (the global constants `l1` and `l2`). */
  const L1: real := 0.12
  const L2: real := 0.12

  /** Slack that both reachability tests add at the edges of the annulus. */
  const Tolerance: real := 0.000000001

  /** The elbow mode the source uses when none is given. */
  const DefaultElbow: string := "up"

  /** A Cartesian point. */
  datatype Point = Point(x: real, y: real)

  /** What `cinematicaInversa` returns: both angles (also in degrees) and the reachability flag. */
  datatype IkSolution = IkSolution(
    theta1: real,
    theta2: real,
    theta1Deg: real,
    theta2Deg: real,
    reachable: bool)

  /** `Math.min(Math.max(v, min), max)`. */
  function Clamp(v: real, min: real, max: real): (r: real)
    ensures r <= max
    ensures min <= max ==> min <= r
    ensures min <= v <= max ==> r == v
    ensures v <= min <= max ==> r == min
    ensures max <= v || max <= min ==> r == max
  {
    Min(Max(v, min), max)
  }

  /** Radians to degrees. */
  function Rad2Deg(r: real): (d: real)
    ensures Deg2Rad(d) == r
  {
    r * 180.0 / MathPI
  }

  /** Degrees to radians. */
  function Deg2Rad(d: real): (r: real)
  {
    d * MathPI / 180.0
  }

  /**
   * `validarAlcance`: the norm of the target lies within the annulus
   * [|l1 - l2|, l1 + l2], widened by the tolerance on both sides.
   */
  function ValidarAlcance(m: MathLib, xd: real, yd: real, l1: real, l2: real): bool
  {
    var r := Hypot(m, xd, yd);
    var minReach := Abs(l1 - l2);
    var maxReach := l1 + l2;
    r >= minReach - Tolerance && r <= maxReach + Tolerance
  }

  /**
   * The same test stated on the squared radius x^2 + y^2, with no square
   * root: inside the outer circle, and either the inner radius (less the
   * tolerance) is not positive or the point is outside the inner circle.
   */
  predicate InAnnulusSquared(r2: real, l1: real, l2: real)
  {
    var lo := Abs(l1 - l2) - Tolerance;
    var hi := l1 + l2 + Tolerance;
    r2 <= hi * hi && (lo <= 0.0 || lo * lo <= r2)
  }

  /** Reachability agrees with its square-root-free form. */
  lemma ReachableIffSquared(m: MathLib, xd: real, yd: real, l1: real, l2: real)
    requires SqrtLaws(m)
    requires 0.0 <= l1 + l2
    ensures ValidarAlcance(m, xd, yd, l1, l2) <==> InAnnulusSquared(xd * xd + yd * yd, l1, l2)
  {
    SquareMonotone(Hypot(m, xd, yd), l1 + l2 + Tolerance);
    if 0.0 < Abs(l1 - l2) - Tolerance {
      SquareMonotone(Abs(l1 - l2) - Tolerance, Hypot(m, xd, yd));
    }
  }

  /** `cinematicaDirecta`: the end-effector position for joint angles q1, q2. */
  function CinematicaDirecta(m: MathLib, q1: real, q2: real, l1: real, l2: real): Point
  {
    var x := l1 * m.cos(q1) + l2 * m.cos(q1 + q2);
    var y := l1 * m.sin(q1) + l2 * m.sin(q1 + q2);
    Point(x, y)
  }


  /** The squared length of l1*(c1, s1) + l2*(c12, s12), expanded. */
  lemma TwoLinkRadiusExpanded(l1: real, l2: real, c1: real, s1: real, c12: real, s12: real, x: real, y: real)
    requires x == l1 * c1 + l2 * c12 && y == l1 * s1 + l2 * s12
    ensures x * x + y * y ==
      l1 * l1 * (c1 * c1 + s1 * s1) + l2 * l2 * (c12 * c12 + s12 * s12) + 2.0 * (l1 * l2) * (c1 * c12 + s1 * s12)
  {
  }

  /** The dot product of two unit vectors lies in [-1, 1]. */
  lemma UnitDotBounded(c: real, s: real, c': real, s': real)
    requires s * s + c * c == 1.0 && s' * s' + c' * c' == 1.0
    ensures -1.0 <= c * c' + s * s' <= 1.0
  {
    var dot := c * c' + s * s';
    var cross := c * s' - s * c';
    // Lagrange's identity.
    assert dot * dot + cross * cross == (c * c + s * s) * (c' * c' + s' * s');
    assert dot * dot <= 1.0;
    SquareMonotone(Abs(dot), 1.0);
  }

  /**
   * With unit link directions whose dot product is d, the squared reach lies
   * between (l1 - l2)^2 and (l1 + l2)^2. The squared lengths of the two unit
   * directions come in as u1 and u2 (both 1) so that the caller's products
   * match r2 term by term.
   */
  lemma AnnulusFromDot(l1: real, l2: real, u1: real, u2: real, d: real, r2: real)
    requires 0.0 <= l1 && 0.0 <= l2
    requires u1 == 1.0 && u2 == 1.0 && -1.0 <= d <= 1.0
    requires r2 == l1 * l1 * u1 + l2 * l2 * u2 + 2.0 * (l1 * l2) * d
    ensures (l1 - l2) * (l1 - l2) <= r2 <= (l1 + l2) * (l1 + l2)
  {
    var w := l1 * l2;
    assert r2 == l1 * l1 + l2 * l2 + 2.0 * w * d;
    assert 0.0 <= w;
    assert w * d <= w by {
      assert 0.0 <= w * (1.0 - d);
    }
    assert -w <= w * d by {
      assert 0.0 <= w * (1.0 + d);
    }
    assert (l1 + l2) * (l1 + l2) == l1 * l1 + l2 * l2 + 2.0 * w;
    assert (l1 - l2) * (l1 - l2) == l1 * l1 + l2 * l2 - 2.0 * w;
  }

  /** The squared reach of a two-link chain with unit link directions lies between (l1 - l2)^2 and (l1 + l2)^2. */
  lemma TwoLinkRadiusBounds(l1: real, l2: real, c1: real, s1: real, c12: real, s12: real, x: real, y: real)
    requires 0.0 <= l1 && 0.0 <= l2
    requires s1 * s1 + c1 * c1 == 1.0 && s12 * s12 + c12 * c12 == 1.0
    requires x == l1 * c1 + l2 * c12 && y == l1 * s1 + l2 * s12
    ensures (l1 - l2) * (l1 - l2) <= x * x + y * y <= (l1 + l2) * (l1 + l2)
  {
    TwoLinkRadiusExpanded(l1, l2, c1, s1, c12, s12, x, y);
    UnitDotBounded(c1, s1, c12, s12);
    AnnulusFromDot(l1, l2, c1 * c1 + s1 * s1, c12 * c12 + s12 * s12, c1 * c12 + s1 * s12, x * x + y * y);
  }

  /** A point of the closed annulus between radii |l1 - l2| and l1 + l2 passes the reachability test. */
  lemma AnnulusIsReachable(m: MathLib, xd: real, yd: real, l1: real, l2: real)
    requires SqrtLaws(m)
    requires 0.0 <= l1 && 0.0 <= l2
    requires (l1 - l2) * (l1 - l2) <= xd * xd + yd * yd <= (l1 + l2) * (l1 + l2)
    ensures ValidarAlcance(m, xd, yd, l1, l2)
  {
    SquareMonotone(Hypot(m, xd, yd), l1 + l2);
    SquareMonotone(Abs(l1 - l2), Hypot(m, xd, yd));
    assert Abs(l1 - l2) * Abs(l1 - l2) == (l1 - l2) * (l1 - l2);
  }

  /**
   * Every pose of the arm lies in the closed annulus between radii
   * |l1 - l2| and l1 + l2. Only sin^2 + cos^2 == 1 is needed: the cross term
   * is the dot product of two unit vectors.
   */
  lemma ForwardInAnnulus(m: MathLib, q1: real, q2: real, l1: real, l2: real)
    requires PythagoreanLaw(m)
    requires 0.0 <= l1 && 0.0 <= l2
    ensures var p := CinematicaDirecta(m, q1, q2, l1, l2);
      (l1 - l2) * (l1 - l2) <= p.x * p.x + p.y * p.y <= (l1 + l2) * (l1 + l2)
  {
    TwoLinkRadiusBounds(l1, l2, m.cos(q1), m.sin(q1), m.cos(q1 + q2), m.sin(q1 + q2),
      CinematicaDirecta(m, q1, q2, l1, l2).x, CinematicaDirecta(m, q1, q2, l1, l2).y);
  }

  /** Every pose of the arm passes the reachability test. */
  lemma ForwardIsReachable(m: MathLib, q1: real, q2: real, l1: real, l2: real)
    requires PythagoreanLaw(m) && SqrtLaws(m)
    requires 0.0 <= l1 && 0.0 <= l2
    ensures var p := CinematicaDirecta(m, q1, q2, l1, l2);
      ValidarAlcance(m, p.x, p.y, l1, l2)
  {
    ForwardInAnnulus(m, q1, q2, l1, l2);
    AnnulusIsReachable(m, CinematicaDirecta(m, q1, q2, l1, l2).x, CinematicaDirecta(m, q1, q2, l1, l2).y, l1, l2);
  }


  /** The unclamped cosine of the elbow angle by the law of cosines. */
  function CosTheta2Raw(xd: real, yd: real, l1: real, l2: real): real
    requires l1 != 0.0 && l2 != 0.0
  {
    (xd * xd + yd * yd - l1 * l1 - l2 * l2) / (2.0 * l1 * l2)
  }

  /** The cosine of the elbow angle, clamped into [-1, 1] against rounding near the workspace edge. */
  function CosTheta2(xd: real, yd: real, l1: real, l2: real): (c2: real)
    requires l1 != 0.0 && l2 != 0.0
    ensures -1.0 <= c2 <= 1.0
    ensures -1.0 <= CosTheta2Raw(xd, yd, l1, l2) <= 1.0 ==> c2 == CosTheta2Raw(xd, yd, l1, l2)
    ensures CosTheta2Raw(xd, yd, l1, l2) > 1.0 ==> c2 == 1.0
    ensures CosTheta2Raw(xd, yd, l1, l2) < -1.0 ==> c2 == -1.0
  {
    Clamp(CosTheta2Raw(xd, yd, l1, l2), -1.0, 1.0)
  }

  /**
   * The clamp leaves the law-of-cosines value alone exactly when the target
   * lies in the closed annulus (l1 - l2)^2 <= x^2 + y^2 <= (l1 + l2)^2.
   */
  lemma ClampInactiveIffInAnnulus(xd: real, yd: real, l1: real, l2: real)
    requires 0.0 < l1 && 0.0 < l2
    ensures -1.0 <= CosTheta2Raw(xd, yd, l1, l2) <= 1.0 <==>
      (l1 - l2) * (l1 - l2) <= xd * xd + yd * yd <= (l1 + l2) * (l1 + l2)
  {
    var r2 := xd * xd + yd * yd;
    var den := 2.0 * l1 * l2;
    assert 0.0 < l1 * l2;
    assert 0.0 < den;
    var raw := CosTheta2Raw(xd, yd, l1, l2);
    assert raw * den == r2 - l1 * l1 - l2 * l2;
    assert raw <= 1.0 <==> raw * den <= den;
    assert -1.0 <= raw <==> -den <= raw * den;
  }

  /**
   * The sine of the elbow angle: sqrt(max(0, 1 - c2^2)), negated for the
   * "down" elbow. Every other elbow value behaves as "up".
   */
  function SinTheta2(m: MathLib, c2: real, elbow: string): real
  {
    var s2Abs := m.sqrt(Max(0.0, 1.0 - c2 * c2));
    if elbow == "down" then -s2Abs else s2Abs
  }

  /**
   * For a clamped cosine, (s2, c2) is a point of the unit circle, in the
   * lower half-plane for the "down" elbow and the upper one otherwise.
   */
  lemma ElbowBranch(m: MathLib, c2: real, elbow: string)
    requires SqrtLaws(m)
    requires -1.0 <= c2 <= 1.0
    ensures var s2 := SinTheta2(m, c2, elbow);
      s2 * s2 + c2 * c2 == 1.0 &&
      (elbow == "down" ==> s2 <= 0.0) &&
      (elbow != "down" ==> 0.0 <= s2)
  {
    var v := Max(0.0, 1.0 - c2 * c2);
    assert c2 * c2 <= 1.0 by {
      SquareMonotone(Abs(c2), 1.0);
    }
    assert v == 1.0 - c2 * c2;
    assert 0.0 <= m.sqrt(v) && m.sqrt(v) * m.sqrt(v) == v;
  }

  /**
   * The shoulder angle: the bearing of the target less the bearing of the
   * elbow-to-tip offset (l1 + l2*c2, l2*s2) seen from the shoulder.
   */
  function Theta1(m: MathLib, xd: real, yd: real, l1: real, l2: real, c2: real, s2: real): real
  {
    var k1 := l1 + l2 * c2;
    var k2 := l2 * s2;
    m.atan2(yd, xd) - m.atan2(k2, k1)
  }

  /** `cinematicaInversa`: the closed-form two-link solution for the chosen elbow. */
  function CinematicaInversa(m: MathLib, xd: real, yd: real, l1: real, l2: real, elbow: string): (sol: IkSolution)
    requires l1 != 0.0 && l2 != 0.0
    ensures sol.reachable == ValidarAlcance(m, xd, yd, l1, l2)
    ensures var c2 := CosTheta2(xd, yd, l1, l2);
      var s2 := SinTheta2(m, c2, elbow);
      sol.theta2 == m.atan2(s2, c2) && sol.theta1 == Theta1(m, xd, yd, l1, l2, c2, s2)
    ensures sol.theta1Deg == Rad2Deg(sol.theta1) && sol.theta2Deg == Rad2Deg(sol.theta2)
  {
    var r := Hypot(m, xd, yd);
    var maxR := l1 + l2;
    var minR := Abs(l1 - l2);
    var reachable := r <= maxR + Tolerance && r >= minR - Tolerance;
    var c2 := CosTheta2(xd, yd, l1, l2);
    var s2 := SinTheta2(m, c2, elbow);
    var theta2 := m.atan2(s2, c2);
    var theta1 := Theta1(m, xd, yd, l1, l2, c2, s2);
    IkSolution(theta1, theta2, Rad2Deg(theta1), Rad2Deg(theta2), reachable)
  }

  /**
   * The angles are produced whether or not the target is reachable: theta2
   * is the angle of a unit-circle point (s2, c2) on the elbow's side, with
   * c2 the clamped law-of-cosines value, and theta1 is the target's bearing
   * less the bearing of the elbow-to-tip offset.
   */
  lemma InverseAngles(m: MathLib, xd: real, yd: real, l1: real, l2: real, elbow: string)
    requires SqrtLaws(m)
    requires l1 != 0.0 && l2 != 0.0
    ensures var sol := CinematicaInversa(m, xd, yd, l1, l2, elbow);
      var c2 := CosTheta2(xd, yd, l1, l2);
      var s2 := SinTheta2(m, c2, elbow);
      -1.0 <= c2 <= 1.0 && s2 * s2 + c2 * c2 == 1.0
    ensures var c2 := CosTheta2(xd, yd, l1, l2);
      var s2 := SinTheta2(m, c2, elbow);
      (elbow == "down" ==> s2 <= 0.0) && (elbow != "down" ==> 0.0 <= s2)
    ensures var sol := CinematicaInversa(m, xd, yd, l1, l2, elbow);
      var c2 := CosTheta2(xd, yd, l1, l2);
      var s2 := SinTheta2(m, c2, elbow);
      sol.theta2 == m.atan2(s2, c2) && sol.theta1 == Theta1(m, xd, yd, l1, l2, c2, s2)
  {
    ElbowBranch(m, CosTheta2(xd, yd, l1, l2), elbow);
  }
}

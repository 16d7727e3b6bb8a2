/**
 * The quintic point-to-point profile (script.js, lines 69-86): a fifth-order
 * polynomial from q0 to qf over a duration tf with zero velocity and zero
 * acceleration at both ends.
 *
 * Besides the boundary conditions, the lemmas show that the profile is
 * q0 + (qf - q0) * Blend(t / tf) for the normalised blend
 * Blend(s) = 10 s^3 - 15 s^4 + 6 s^5, that it never leaves the segment
 * between q0 and qf during the move, and that its velocity never points
 * away from qf.
 */
module Quintic {
  import opened Numerics

  /** The six polynomial coefficients a0..a5 that `quinticCoeffs` returns. */
  datatype Coeffs = Coeffs(a0: real, a1: real, a2: real, a3: real, a4: real, a5: real)

  /** What `evalQuintic` returns: position, velocity and acceleration at one instant. */
  datatype Eval = Eval(q: real, dq: real, ddq: real)

  /**
   * `quinticCoeffs`. The source divides by tf^3, tf^4 and tf^5, so tf must not
   * be zero; the powers are written out as the products the source builds.
   */
  function QuinticCoeffs(q0: real, qf: real, tf: real): Coeffs
    requires tf != 0.0
  {
    Coeffs(q0, 0.0, 0.0,
      10.0 * (qf - q0) / (tf * tf * tf),
      -15.0 * (qf - q0) / (tf * tf * tf * tf),
      6.0 * (qf - q0) / (tf * tf * tf * tf * tf))
  }

  /** `evalQuintic`: the polynomial and its first two derivatives at time t (t is not clamped). */
  function EvalQuintic(c: Coeffs, t: real): Eval
  {
    var t2 := t * t;
    var t3 := t2 * t;
    var t4 := t3 * t;
    var t5 := t4 * t;
    var q := c.a0 + c.a1 * t + c.a2 * t2 + c.a3 * t3 + c.a4 * t4 + c.a5 * t5;
    var dq := c.a1 + 2.0 * c.a2 * t + 3.0 * c.a3 * t2 + 4.0 * c.a4 * t3 + 5.0 * c.a5 * t4;
    var ddq := 2.0 * c.a2 + 6.0 * c.a3 * t + 12.0 * c.a4 * t2 + 20.0 * c.a5 * t3;
    Eval(q, dq, ddq)
  }

  /** The normalised quintic blend on s in [0, 1]. */
  function Blend(s: real): real
  {
    10.0 * (s * s * s) - 15.0 * (s * s * s * s) + 6.0 * (s * s * s * s * s)
  }

  /** Each non-trivial coefficient times its power of tf gives back 10, -15 and 6 times the displacement. */
  lemma CoeffScales(q0: real, qf: real, tf: real)
    requires tf != 0.0
    ensures QuinticCoeffs(q0, qf, tf).a3 * (tf * tf * tf) == 10.0 * (qf - q0)
    ensures QuinticCoeffs(q0, qf, tf).a4 * (tf * tf * tf * tf) == -15.0 * (qf - q0)
    ensures QuinticCoeffs(q0, qf, tf).a5 * (tf * tf * tf * tf * tf) == 6.0 * (qf - q0)
  {
  }

  /** With a1 == a2 == 0, the position is a0 plus the three high-order terms. */
  lemma EvalPosition(c: Coeffs, t: real)
    requires c.a1 == 0.0 && c.a2 == 0.0
    ensures EvalQuintic(c, t).q == c.a0 + c.a3 * (t * t * t) + c.a4 * (t * t * t * t) + c.a5 * (t * t * t * t * t)
  {
  }

  /** With a1 == a2 == 0, the velocity is the derivative of the three high-order terms. */
  lemma EvalVelocity(c: Coeffs, t: real)
    requires c.a1 == 0.0 && c.a2 == 0.0
    ensures EvalQuintic(c, t).dq == 3.0 * c.a3 * (t * t) + 4.0 * c.a4 * (t * t * t) + 5.0 * c.a5 * (t * t * t * t)
  {
  }

  /**
   * The end-point identities on atoms: with a3*T^3 == 10d, a4*T^4 == -15d and
   * a5*T^5 == 6d, the position terms add up to d, and the velocity and
   * acceleration sums are zero, because 10 - 15 + 6 == 1,
   * 30 - 60 + 30 == 0 and 60 - 180 + 120 == 0.
   */
  lemma EndSums(d: real, tf: real, a3: real, a4: real, a5: real)
    requires tf != 0.0
    requires a3 * (tf * tf * tf) == 10.0 * d
    requires a4 * (tf * tf * tf * tf) == -15.0 * d
    requires a5 * (tf * tf * tf * tf * tf) == 6.0 * d
    ensures a3 * (tf * tf * tf) + a4 * (tf * tf * tf * tf) + a5 * (tf * tf * tf * tf * tf) == d
    ensures 3.0 * a3 * (tf * tf) + 4.0 * a4 * (tf * tf * tf) + 5.0 * a5 * (tf * tf * tf * tf) == 0.0
    ensures 6.0 * a3 * tf + 12.0 * a4 * (tf * tf) + 20.0 * a5 * (tf * tf * tf) == 0.0
  {
    var v := 3.0 * a3 * (tf * tf) + 4.0 * a4 * (tf * tf * tf) + 5.0 * a5 * (tf * tf * tf * tf);
    assert v * tf == 0.0;
    var w := 6.0 * a3 * tf + 12.0 * a4 * (tf * tf) + 20.0 * a5 * (tf * tf * tf);
    assert w * tf * tf == 0.0;
    ZeroFactor(w * tf, tf);
    ZeroFactor(w, tf);
  }

  /** The profile starts at q0 at rest with zero acceleration, and its a1 and a2 are zero. */
  lemma QuinticStart(q0: real, qf: real, tf: real)
    requires tf != 0.0
    ensures QuinticCoeffs(q0, qf, tf).a1 == 0.0 && QuinticCoeffs(q0, qf, tf).a2 == 0.0
    ensures EvalQuintic(QuinticCoeffs(q0, qf, tf), 0.0) == Eval(q0, 0.0, 0.0)
  {
  }

  /** The profile ends at qf, at rest, with zero acceleration, at t == tf. */
  lemma QuinticEnd(q0: real, qf: real, tf: real)
    requires tf != 0.0
    ensures EvalQuintic(QuinticCoeffs(q0, qf, tf), tf) == Eval(qf, 0.0, 0.0)
  {
    CoeffScales(q0, qf, tf);
    EndSums(qf - q0, tf, QuinticCoeffs(q0, qf, tf).a3, QuinticCoeffs(q0, qf, tf).a4, QuinticCoeffs(q0, qf, tf).a5);
  }

  /** a*t^3 == x*s^3 when t == s*T and a*T^3 == x. */
  lemma Scale3(a: real, T: real, t: real, s: real, x: real)
    requires t == s * T && a * (T * T * T) == x
    ensures a * (t * t * t) == x * (s * s * s)
  {
    assert a * (t * t * t) == (a * (T * T * T)) * (s * s * s);
  }

  /** a*t^4 == x*s^4 when t == s*T and a*T^4 == x. */
  lemma Scale4(a: real, T: real, t: real, s: real, x: real)
    requires t == s * T && a * (T * T * T * T) == x
    ensures a * (t * t * t * t) == x * (s * s * s * s)
  {
    assert a * (t * t * t * t) == (a * (T * T * T * T)) * (s * s * s * s);
  }

  /** a*t^5 == x*s^5 when t == s*T and a*T^5 == x. */
  lemma Scale5(a: real, T: real, t: real, s: real, x: real)
    requires t == s * T && a * (T * T * T * T * T) == x
    ensures a * (t * t * t * t * t) == x * (s * s * s * s * s)
  {
    assert a * (t * t * t * t * t) == (a * (T * T * T * T * T)) * (s * s * s * s * s);
  }

  /** Collecting the scaled position terms into the blend. */
  lemma BlendSum(q0: real, d: real, s: real, x3: real, x4: real, x5: real)
    requires x3 == 10.0 * d * (s * s * s) && x4 == -15.0 * d * (s * s * s * s) && x5 == 6.0 * d * (s * s * s * s * s)
    ensures q0 + x3 + x4 + x5 == q0 + d * Blend(s)
  {
  }

  /** The position polynomial on atoms, rewritten in the normalised time s == t / T. */
  lemma PositionAtoms(q0: real, d: real, T: real, t: real, s: real, a3: real, a4: real, a5: real)
    requires t == s * T
    requires a3 * (T * T * T) == 10.0 * d
    requires a4 * (T * T * T * T) == -15.0 * d
    requires a5 * (T * T * T * T * T) == 6.0 * d
    ensures q0 + a3 * (t * t * t) + a4 * (t * t * t * t) + a5 * (t * t * t * t * t) == q0 + d * Blend(s)
  {
    Scale3(a3, T, t, s, 10.0 * d);
    Scale4(a4, T, t, s, -15.0 * d);
    Scale5(a5, T, t, s, 6.0 * d);
    BlendSum(q0, d, s, a3 * (t * t * t), a4 * (t * t * t * t), a5 * (t * t * t * t * t));
  }

  /** The profile is the blend scaled to the move: q(t) == q0 + (qf - q0) * Blend(t / tf). */
  lemma QuinticBlend(q0: real, qf: real, tf: real, t: real)
    requires tf != 0.0
    ensures EvalQuintic(QuinticCoeffs(q0, qf, tf), t).q == q0 + (qf - q0) * Blend(t / tf)
  {
    EvalPosition(QuinticCoeffs(q0, qf, tf), t);
    ScaledPosition(q0, qf, tf, t);
  }

  /** The position terms of `QuinticCoeffs`, written out, in the normalised time t / T. */
  lemma ScaledPosition(q0: real, qf: real, T: real, t: real)
    requires T != 0.0
    ensures q0 + 10.0 * (qf - q0) / (T * T * T) * (t * t * t) + -15.0 * (qf - q0) / (T * T * T * T) * (t * t * t * t)
      + 6.0 * (qf - q0) / (T * T * T * T * T) * (t * t * t * t * t) == q0 + (qf - q0) * Blend(t / T)
  {
    CoeffScales(q0, qf, T);
    DivMul(t, T);
    PositionAtoms(q0, qf - q0, T, t, t / T,
      QuinticCoeffs(q0, qf, T).a3, QuinticCoeffs(q0, qf, T).a4, QuinticCoeffs(q0, qf, T).a5);
  }

  /** On [0, 1] the blend stays in [0, 1]: it is s^3 times a positive quadratic, and 1 minus it is (1 - s)^3 times another. */
  lemma BlendRange(s: real)
    requires 0.0 <= s <= 1.0
    ensures 0.0 <= Blend(s) <= 1.0
  {
    var c := s * s * s;
    var k := 6.0 * (s - 1.25) * (s - 1.25) + 0.625;
    assert Blend(s) == c * k;
    MulNonneg(s * s, s);
    MulNonneg(c, k);
    var e := (1.0 - s) * (1.0 - s) * (1.0 - s);
    var h := 6.0 * s * s + 3.0 * s + 1.0;
    assert 1.0 - Blend(s) == e * h;
    MulNonneg((1.0 - s) * (1.0 - s), 1.0 - s);
    MulNonneg(e, h);
  }

  /** A point q == q0 + (qf - q0) * b with b in [0, 1] lies between q0 and qf. */
  lemma BetweenEnds(q0: real, qf: real, b: real, q: real)
    requires 0.0 <= b <= 1.0 && q == q0 + (qf - q0) * b
    ensures Min(q0, qf) <= q <= Max(q0, qf)
  {
    if q0 <= qf {
      MulNonneg(qf - q0, b);
      MulNonneg(qf - q0, 1.0 - b);
    } else {
      MulNonneg(q0 - qf, b);
      MulNonneg(q0 - qf, 1.0 - b);
    }
  }

  /** A time inside [0, T] is a fraction of T in [0, 1]. */
  lemma UnitRatio(t: real, T: real)
    requires 0.0 < T && 0.0 <= t <= T
    ensures 0.0 <= t / T <= 1.0
  {
    DivMul(t, T);
  }

  /** During the move (0 <= t <= tf) the position never leaves the segment between q0 and qf. */
  lemma QuinticNoOvershoot(q0: real, qf: real, tf: real, t: real)
    requires 0.0 < tf && 0.0 <= t <= tf
    ensures Min(q0, qf) <= EvalQuintic(QuinticCoeffs(q0, qf, tf), t).q <= Max(q0, qf)
  {
    QuinticBlend(q0, qf, tf, t);
    UnitRatio(t, tf);
    BlendRange(t / tf);
    BetweenEnds(q0, qf, Blend(t / tf), EvalQuintic(QuinticCoeffs(q0, qf, tf), t).q);
  }

  /** a*t^2*T == x*s^2 when t == s*T and a*T^3 == x. */
  lemma Rate3(a: real, T: real, t: real, s: real, x: real)
    requires t == s * T && a * (T * T * T) == x
    ensures a * (t * t) * T == x * (s * s)
  {
    assert a * (t * t) * T == (a * (T * T * T)) * (s * s);
  }

  /** a*t^3*T == x*s^3 when t == s*T and a*T^4 == x. */
  lemma Rate4(a: real, T: real, t: real, s: real, x: real)
    requires t == s * T && a * (T * T * T * T) == x
    ensures a * (t * t * t) * T == x * (s * s * s)
  {
    assert a * (t * t * t) * T == (a * (T * T * T * T)) * (s * s * s);
  }

  /** a*t^4*T == x*s^4 when t == s*T and a*T^5 == x. */
  lemma Rate5(a: real, T: real, t: real, s: real, x: real)
    requires t == s * T && a * (T * T * T * T * T) == x
    ensures a * (t * t * t * t) * T == x * (s * s * s * s)
  {
    assert a * (t * t * t * t) * T == (a * (T * T * T * T * T)) * (s * s * s * s);
  }

  /** Collecting the scaled velocity terms: 30 s^2 - 60 s^3 + 30 s^4 == 30 s^2 (1 - s)^2. */
  lemma RateSum(d: real, s: real, T: real, y3: real, y4: real, y5: real, v: real)
    requires y3 == 10.0 * d * (s * s) && y4 == -15.0 * d * (s * s * s) && y5 == 6.0 * d * (s * s * s * s)
    requires v * T == 3.0 * y3 + 4.0 * y4 + 5.0 * y5
    ensures v * T == 30.0 * d * (s * s) * ((1.0 - s) * (1.0 - s))
  {
  }

  /** The velocity polynomial on atoms, times T, in the normalised time s == t / T. */
  lemma RateAtoms(d: real, T: real, t: real, s: real, a3: real, a4: real, a5: real)
    requires t == s * T
    requires a3 * (T * T * T) == 10.0 * d
    requires a4 * (T * T * T * T) == -15.0 * d
    requires a5 * (T * T * T * T * T) == 6.0 * d
    ensures (3.0 * a3 * (t * t) + 4.0 * a4 * (t * t * t) + 5.0 * a5 * (t * t * t * t)) * T
      == 30.0 * d * (s * s) * ((1.0 - s) * (1.0 - s))
  {
    Rate3(a3, T, t, s, 10.0 * d);
    Rate4(a4, T, t, s, -15.0 * d);
    Rate5(a5, T, t, s, 6.0 * d);
    RateSum(d, s, T, a3 * (t * t) * T, a4 * (t * t * t) * T, a5 * (t * t * t * t) * T,
      3.0 * a3 * (t * t) + 4.0 * a4 * (t * t * t) + 5.0 * a5 * (t * t * t * t));
  }

  /** The velocity times tf is 30 (qf - q0) s^2 (1 - s)^2 with s == t / tf. */
  lemma QuinticVelocity(q0: real, qf: real, tf: real, t: real)
    requires tf != 0.0
    ensures EvalQuintic(QuinticCoeffs(q0, qf, tf), t).dq * tf
      == 30.0 * (qf - q0) * ((t / tf) * (t / tf)) * ((1.0 - t / tf) * (1.0 - t / tf))
  {
    EvalVelocity(QuinticCoeffs(q0, qf, tf), t);
    ScaledRate(q0, qf, tf, t);
  }

  /** The velocity terms of `QuinticCoeffs`, written out and times T, in the normalised time t / T. */
  lemma ScaledRate(q0: real, qf: real, T: real, t: real)
    requires T != 0.0
    ensures (3.0 * (10.0 * (qf - q0) / (T * T * T)) * (t * t) + 4.0 * (-15.0 * (qf - q0) / (T * T * T * T)) * (t * t * t)
      + 5.0 * (6.0 * (qf - q0) / (T * T * T * T * T)) * (t * t * t * t)) * T
      == 30.0 * (qf - q0) * ((t / T) * (t / T)) * ((1.0 - t / T) * (1.0 - t / T))
  {
    CoeffScales(q0, qf, T);
    DivMul(t, T);
    RateAtoms(qf - q0, T, t, t / T,
      QuinticCoeffs(q0, qf, T).a3, QuinticCoeffs(q0, qf, T).a4, QuinticCoeffs(q0, qf, T).a5);
  }

  /** v*T == 30*d*u with T > 0 and u >= 0 makes v point the same way as d. */
  lemma SameSign(d: real, v: real, T: real, u: real)
    requires 0.0 < T && 0.0 <= u && v * T == 30.0 * d * u
    ensures 0.0 <= d * v
  {
    assert d * v * T == 30.0 * (d * d) * u;
    MulNonneg(d * d, u);
  }

  /** For a positive duration the velocity never points away from qf, at any time t. */
  lemma QuinticDirection(q0: real, qf: real, tf: real, t: real)
    requires 0.0 < tf
    ensures 0.0 <= (qf - q0) * EvalQuintic(QuinticCoeffs(q0, qf, tf), t).dq
  {
    QuinticVelocity(q0, qf, tf, t);
    MulNonneg((t / tf) * (t / tf), (1.0 - t / tf) * (1.0 - t / tf));
    SameSign(qf - q0, EvalQuintic(QuinticCoeffs(q0, qf, tf), t).dq, tf,
      (t / tf) * (t / tf) * ((1.0 - t / tf) * (1.0 - t / tf)));
  }
}

/**
 * `planMove` (script.js, lines 252-259): solve the inverse kinematics of the
 * target with the arm's own link lengths and, when the target is reachable,
 * build one quintic profile per joint from the current joint angles to the
 * solution over the requested duration.
 */
module Planner {
  import opened Wrappers
  import opened Numerics
  import opened Kinematics
  import opened Quintic

  /** The error text `planMove` returns for an unreachable target. */
  const UnreachableMessage: string := "Objetivo fuera del espacio de trabajo"

  /** The default move duration in seconds (the global `tf`, and `planMove`'s default). */
  const DefaultDuration: real := 20.0

  /** The home target (the globals `xi` and `yi`). */
  const HomeX: real := 0.14
  const HomeY: real := 0.14

  /** A pair of joint angles. */
  datatype JointConfig = JointConfig(q1: real, q2: real)

  /** A successful plan: one profile per joint, the final joint angles and the duration. */
  datatype Plan = Plan(c1: Coeffs, c2: Coeffs, qf: JointConfig, tf: real)

  /**
   * `planMove`. The source's `!sol` test can never fire (the solver always
   * returns an object), so only the reachability flag decides the outcome.
   * A zero duration would divide by zero in `quinticCoeffs`.
   */
  function PlanMove(m: MathLib, xd: real, yd: real, q10: real, q20: real, tf: real, elbow: string): (r: Result<Plan, string>)
    requires tf != 0.0
    ensures r.Failure? <==> !ValidarAlcance(m, xd, yd, L1, L2)
    ensures r.Failure? ==> r.error == UnreachableMessage
    ensures r.Success? ==>
      var sol := CinematicaInversa(m, xd, yd, L1, L2, elbow);
      r.value.qf == JointConfig(sol.theta1, sol.theta2) && r.value.tf == tf
      && r.value.c1.a0 == q10 && r.value.c2.a0 == q20
  {
    var sol := CinematicaInversa(m, xd, yd, L1, L2, elbow);
    if !sol.reachable then
      Failure(UnreachableMessage)
    else
      var q1f := sol.theta1;
      var q2f := sol.theta2;
      var c1 := QuinticCoeffs(q10, q1f, tf);
      var c2 := QuinticCoeffs(q20, q2f, tf);
      Success(Plan(c1, c2, JointConfig(q1f, q2f), tf))
  }

  /**
   * A successful plan starts at the current joint angles and ends at the
   * inverse-kinematics solution, at rest and with zero acceleration at
   * both ends.
   */
  lemma PlanEndpoints(m: MathLib, xd: real, yd: real, q10: real, q20: real, tf: real, elbow: string)
    requires tf != 0.0
    requires PlanMove(m, xd, yd, q10, q20, tf, elbow).Success?
    ensures var p := PlanMove(m, xd, yd, q10, q20, tf, elbow).value;
      EvalQuintic(p.c1, 0.0) == Eval(q10, 0.0, 0.0) && EvalQuintic(p.c2, 0.0) == Eval(q20, 0.0, 0.0)
    ensures var p := PlanMove(m, xd, yd, q10, q20, tf, elbow).value;
      EvalQuintic(p.c1, tf) == Eval(p.qf.q1, 0.0, 0.0) && EvalQuintic(p.c2, tf) == Eval(p.qf.q2, 0.0, 0.0)
  {
    var sol := CinematicaInversa(m, xd, yd, L1, L2, elbow);
    QuinticStart(q10, sol.theta1, tf);
    QuinticStart(q20, sol.theta2, tf);
    QuinticEnd(q10, sol.theta1, tf);
    QuinticEnd(q20, sol.theta2, tf);
  }

  /** The profiles of a successful plan are the quintics from the start angles to the solution. */
  lemma PlanProfiles(m: MathLib, xd: real, yd: real, q10: real, q20: real, tf: real, elbow: string)
    requires tf != 0.0
    requires PlanMove(m, xd, yd, q10, q20, tf, elbow).Success?
    ensures var p := PlanMove(m, xd, yd, q10, q20, tf, elbow).value;
      p.c1 == QuinticCoeffs(q10, p.qf.q1, tf) && p.c2 == QuinticCoeffs(q20, p.qf.q2, tf)
  {
  }

  /** For a positive duration, both joints of a successful plan stay between their start and final angles during the move. */
  lemma PlanStaysBetween(m: MathLib, xd: real, yd: real, q10: real, q20: real, tf: real, elbow: string, t: real)
    requires 0.0 < tf && 0.0 <= t <= tf
    requires PlanMove(m, xd, yd, q10, q20, tf, elbow).Success?
    ensures var p := PlanMove(m, xd, yd, q10, q20, tf, elbow).value;
      Min(q10, p.qf.q1) <= EvalQuintic(p.c1, t).q <= Max(q10, p.qf.q1)
      && Min(q20, p.qf.q2) <= EvalQuintic(p.c2, t).q <= Max(q20, p.qf.q2)
  {
    var p := PlanMove(m, xd, yd, q10, q20, tf, elbow).value;
    PlanProfiles(m, xd, yd, q10, q20, tf, elbow);
    QuinticNoOvershoot(q10, p.qf.q1, tf, t);
    QuinticNoOvershoot(q20, p.qf.q2, tf, t);
  }

  /** For a positive duration, no joint velocity of a successful plan ever points away from its final angle. */
  lemma PlanHeadsToTarget(m: MathLib, xd: real, yd: real, q10: real, q20: real, tf: real, elbow: string, t: real)
    requires 0.0 < tf
    requires PlanMove(m, xd, yd, q10, q20, tf, elbow).Success?
    ensures var p := PlanMove(m, xd, yd, q10, q20, tf, elbow).value;
      0.0 <= (p.qf.q1 - q10) * EvalQuintic(p.c1, t).dq && 0.0 <= (p.qf.q2 - q20) * EvalQuintic(p.c2, t).dq
  {
    var p := PlanMove(m, xd, yd, q10, q20, tf, elbow).value;
    PlanProfiles(m, xd, yd, q10, q20, tf, elbow);
    QuinticDirection(q10, p.qf.q1, tf, t);
    QuinticDirection(q20, p.qf.q2, tf, t);
  }

  /**
   * The home target lies inside the workspace, so the home button's plan
   * (elbow up, default duration) always succeeds, from any joint angles.
   */
  lemma HomeIsPlannable(m: MathLib, q10: real, q20: real)
    requires SqrtLaws(m)
    ensures CinematicaInversa(m, HomeX, HomeY, L1, L2, DefaultElbow).reachable
    ensures PlanMove(m, HomeX, HomeY, q10, q20, DefaultDuration, DefaultElbow).Success?
  {
    AnnulusIsReachable(m, HomeX, HomeY, L1, L2);
  }
}

/**
 * `sampleTrajectory` (script.js, lines 261-286) and `hydrateTipCoords`
 * (lines 348-360): the plan is sampled every dt seconds into an array of
 * records holding both joints' position, velocity and acceleration, the
 * forward-kinematics end point and, when the gripper limit is on, the
 * gripper tip; the tip fields are later rewritten in place when the limit
 * is toggled.
 */
module Sampler {
  import opened Wrappers
  import opened Numerics
  import opened Kinematics
  import opened Quintic
  import opened Planner

  /** Length of the gripper in metres (the global `pinza`). */
  const Pinza: real := 0.02

  /** Distance from the arm's end point to the gripper tip (`tip` in both operations). */
  const TipOffset: real := Pinza * 0.5

  /** `sampleTrajectory`'s default step, also the step `run` passes. */
  const DefaultStep: real := 0.05

  /**
   * One trajectory point. The tip coordinates are `undefined` in the source
   * when the gripper limit is off, which is `None` here.
   */
  datatype Sample = Sample(
    t: real,
    q1: real, dq1: real, ddq1: real,
    q2: real, dq2: real, ddq2: real,
    x: real, y: real,
    xt: Option<real>, yt: Option<real>)

  /**
   * `Math.max(2, Math.floor(tf/dt) + 1)`: one sample per step that fits in
   * [0, tf], and never fewer than two.
   */
  function SampleCount(tf: real, dt: real): (n: nat)
    requires 0.0 < dt
    ensures 2 <= n
    ensures n == 2 || Steps(n - 1, dt) <= tf < Steps(n - 1, dt) + dt
    ensures n == 2 ==> tf < dt + dt
  {
    FloorBounds(tf, dt);
    var k := (tf / dt).Floor + 1;
    if k >= 2 then k else ScaleBelow((tf / dt).Floor as real, 1.0, dt); 2
  }

  /** The floor of tf / dt counts the whole steps of length dt that fit in tf. */
  lemma FloorBounds(tf: real, dt: real)
    requires 0.0 < dt
    ensures Steps((tf / dt).Floor, dt) <= tf < Steps((tf / dt).Floor, dt) + dt
  {
    FloorLaw(tf / dt);
    DivMul(tf, dt);
    StepBounds((tf / dt).Floor as real, tf / dt, tf, dt);
  }

  /** f <= q < f + 1 scaled by dt > 0, where q * dt == tf. */
  lemma StepBounds(f: real, q: real, tf: real, dt: real)
    requires 0.0 < dt && f <= q < f + 1.0 && q * dt == tf
    ensures f * dt <= tf < f * dt + dt
  {
    StepBelow(f, q, tf, dt);
    StepAbove(f, q, tf, dt);
  }

  /** The lower half of StepBounds: f <= q scaled by dt. */
  lemma StepBelow(f: real, q: real, tf: real, dt: real)
    requires 0.0 < dt && f <= q && q * dt == tf
    ensures f * dt <= tf
  {
    ScaleBelow(f, q, dt);
  }

  /** The upper half of StepBounds: q < f + 1 scaled by dt. */
  lemma StepAbove(f: real, q: real, tf: real, dt: real)
    requires 0.0 < dt && q < f + 1.0 && q * dt == tf
    ensures tf < f * dt + dt
  {
    ScaleBelow(q - f, 1.0, dt);
    assert (q - f) * dt == q * dt - f * dt;
  }

  /** The time k whole steps of length dt after the start, `k*dt`. */
  function Steps(k: int, dt: real): real
  {
    (k as real) * dt
  }

  /** More steps take longer. */
  lemma StepsMonotone(i: int, j: int, dt: real)
    requires 0.0 < dt && i <= j
    ensures Steps(i, dt) <= Steps(j, dt)
  {
    ScaleBelow(i as real, j as real, dt);
  }

  /** The time of sample i: `Math.min(tf, i*dt)`. */
  function SampleTime(tf: real, dt: real, i: nat): real
  {
    Min(tf, Steps(i, dt))
  }

  /** The gripper tip coordinates at end point (x, y) with summed joint angle qsum, present only when the limit is on. */
  function TipX(m: MathLib, x: real, qsum: real, limit: bool): Option<real>
  {
    if limit then Some(x + TipOffset * m.cos(qsum)) else None
  }

  function TipY(m: MathLib, y: real, qsum: real, limit: bool): Option<real>
  {
    if limit then Some(y + TipOffset * m.sin(qsum)) else None
  }

  /** The record the loop body of `sampleTrajectory` pushes, from the time and both joints' evaluations. */
  function SampleFrom(m: MathLib, t: real, e1: Eval, e2: Eval, limit: bool): (s: Sample)
    ensures s.xt.Some? <==> limit
    ensures s.yt.Some? <==> limit
  {
    var cd := CinematicaDirecta(m, e1.q, e2.q, L1, L2);
    var qsum := e1.q + e2.q;
    Sample(t, e1.q, e1.dq, e1.ddq, e2.q, e2.dq, e2.ddq, cd.x, cd.y,
      TipX(m, cd.x, qsum, limit), TipY(m, cd.y, qsum, limit))
  }

  /** Sample i of the plan: both profiles evaluated at `SampleTime`. */
  function SampleAt(m: MathLib, plan: Plan, dt: real, i: nat, limit: bool): (s: Sample)
    ensures s.xt.Some? <==> limit
    ensures s.yt.Some? <==> limit
  {
    var t := SampleTime(plan.tf, dt, i);
    SampleFrom(m, t, EvalQuintic(plan.c1, t), EvalQuintic(plan.c2, t), limit)
  }

  /** `sampleTrajectory`: the samples 0 .. SampleCount - 1, in order. */
  method SampleTrajectory(m: MathLib, plan: Plan, dt: real, limit: bool) returns (pts: seq<Sample>)
    requires 0.0 < dt
    ensures |pts| == SampleCount(plan.tf, dt)
    ensures forall i :: 0 <= i < |pts| ==> pts[i] == SampleAt(m, plan, dt, i, limit)
  {
    var n := SampleCount(plan.tf, dt);
    pts := [];
    for i := 0 to n
      invariant |pts| == i
      invariant forall k :: 0 <= k < i ==> pts[k] == SampleAt(m, plan, dt, k, limit)
    {
      pts := pts + [SampleAt(m, plan, dt, i, limit)];
    }
  }

  /**
   * What `hydrateTipCoords` does to one point: recompute the tip from the
   * point's own end point and joint angles, or clear it when the limit is
   * off. Nothing but the two tip fields changes.
   */
  function WithTip(m: MathLib, p: Sample, limit: bool): (r: Sample)
    ensures r.xt.Some? <==> limit
    ensures r.yt.Some? <==> limit
    ensures r.(xt := p.xt, yt := p.yt) == p
  {
    var qsum := p.q1 + p.q2;
    p.(xt := TipX(m, p.x, qsum, limit), yt := TipY(m, p.y, qsum, limit))
  }

  /** `hydrateTipCoords`: every point of the array gets its tip fields rewritten in place. */
  method HydrateTipCoords(m: MathLib, traj: array<Sample>, limit: bool)
    modifies traj
    ensures forall k :: 0 <= k < traj.Length ==> traj[k] == WithTip(m, old(traj[k]), limit)
  {
    for i := 0 to traj.Length
      invariant forall k :: 0 <= k < i ==> traj[k] == WithTip(m, old(traj[k]), limit)
      invariant forall k :: i <= k < traj.Length ==> traj[k] == old(traj[k])
    {
      var p := traj[i];
      if limit {
        var qsum := p.q1 + p.q2;
        traj[i] := p.(xt := TipX(m, p.x, qsum, true), yt := TipY(m, p.y, qsum, true));
      } else {
        traj[i] := p.(xt := None, yt := None);
      }
    }
  }

  /** Rewriting the tip twice is rewriting it once with the later setting. */
  lemma WithTipLastWins(m: MathLib, p: Sample, first: bool, second: bool)
    ensures WithTip(m, WithTip(m, p, first), second) == WithTip(m, p, second)
  {
    var once := WithTip(m, p, first);
    assert once.q1 == p.q1 && once.q2 == p.q2 && once.x == p.x && once.y == p.y;
  }

  /**
   * Toggling the limit and rewriting the tips of a sampled trajectory gives
   * exactly the trajectory sampled with the new setting.
   */
  lemma HydrateMatchesSampling(m: MathLib, plan: Plan, dt: real, i: nat, before: bool, after: bool)
    ensures WithTip(m, SampleAt(m, plan, dt, i, before), after) == SampleAt(m, plan, dt, i, after)
  {
    var t := SampleTime(plan.tf, dt, i);
    TipFromRecord(m, t, EvalQuintic(plan.c1, t), EvalQuintic(plan.c2, t), before, after);
  }

  /** Rewriting the tip of a freshly built record gives the record built with the new setting. */
  lemma TipFromRecord(m: MathLib, t: real, e1: Eval, e2: Eval, before: bool, after: bool)
    ensures WithTip(m, SampleFrom(m, t, e1, e2, before), after) == SampleFrom(m, t, e1, e2, after)
  {
    var s := SampleFrom(m, t, e1, e2, before);
    var r := SampleFrom(m, t, e1, e2, after);
    assert s.x == r.x && s.y == r.y && s.q1 + s.q2 == e1.q + e2.q;
  }

  /** Apart from the tip, a sample does not depend on the limit setting. */
  lemma SampleIgnoresLimit(m: MathLib, plan: Plan, dt: real, i: nat, a: bool, b: bool)
    ensures SampleAt(m, plan, dt, i, a).(xt := None, yt := None) == SampleAt(m, plan, dt, i, b).(xt := None, yt := None)
  {
  }

  /** For a non-negative duration every sample time lies in [0, tf]. */
  lemma SampleTimeInRange(tf: real, dt: real, i: nat)
    requires 0.0 < dt && 0.0 <= tf
    ensures 0.0 <= SampleTime(tf, dt, i) <= tf
  {
    MulNonneg(i as real, dt);
  }

  /** Sample times never decrease. */
  lemma SampleTimeMonotone(tf: real, dt: real, i: nat, j: nat)
    requires 0.0 < dt && i <= j
    ensures SampleTime(tf, dt, i) <= SampleTime(tf, dt, j)
  {
    StepsMonotone(i, j, dt);
  }

  /**
   * The last sample comes less than one step before the end of the move and
   * not after it; it falls exactly at tf only when tf <= dt or when tf is a
   * whole number of steps.
   */
  lemma LastSampleTime(tf: real, dt: real)
    requires 0.0 < dt && 0.0 <= tf
    ensures tf - dt < SampleTime(tf, dt, SampleCount(tf, dt) - 1) <= tf
    ensures SampleTime(tf, dt, SampleCount(tf, dt) - 1) == tf
      <==> tf <= dt || Steps(SampleCount(tf, dt) - 1, dt) == tf
  {
    var n := SampleCount(tf, dt);
    if n == 2 {
      assert Steps(n - 1, dt) == dt;
    } else {
      StepsMonotone(2, n - 1, dt);
      assert Steps(2, dt) == dt + dt;
    }
    LastTimeLinear(tf, dt, Steps(n - 1, dt));
  }

  /** The last-sample facts once the last step time x is known either to be dt (with tf < 2 dt) or the last step at or before tf. */
  lemma LastTimeLinear(tf: real, dt: real, x: real)
    requires 0.0 < dt && 0.0 <= tf
    requires (x == dt && tf < dt + dt) || (dt + dt <= x <= tf < x + dt)
    ensures tf - dt < Min(tf, x) <= tf
    ensures Min(tf, x) == tf <==> tf <= dt || x == tf
  {
  }

  /** With a step that does not divide the duration, the last sample falls short of it: 1 s at 0.3 s steps ends at 0.9 s. */
  lemma LastSampleShortOfEnd()
    ensures SampleCount(1.0, 0.3) == 4
    ensures SampleTime(1.0, 0.3, 3) == 0.9
  {
    FloorBounds(1.0, 0.3);
  }

  /** The default move (20 s at 0.05 s steps) has 401 samples and the last one is at 20 s. */
  lemma DefaultSampling()
    ensures SampleCount(DefaultDuration, DefaultStep) == 401
    ensures SampleTime(DefaultDuration, DefaultStep, 400) == DefaultDuration
  {
    FloorBounds(DefaultDuration, DefaultStep);
  }

  /** Every sampled end point lies in the arm's workspace. */
  lemma SampleInWorkspace(m: MathLib, plan: Plan, dt: real, i: nat, limit: bool)
    requires SqrtLaws(m) && PythagoreanLaw(m)
    ensures ValidarAlcance(m, SampleAt(m, plan, dt, i, limit).x, SampleAt(m, plan, dt, i, limit).y, L1, L2)
  {
    var t := SampleTime(plan.tf, dt, i);
    ForwardIsReachable(m, EvalQuintic(plan.c1, t).q, EvalQuintic(plan.c2, t).q, L1, L2);
  }

  /**
   * Sampling a successful plan starts at the current joint angles, at rest,
   * and every sample's joints stay between their start and final angles.
   */
  lemma PlannedSamples(m: MathLib, xd: real, yd: real, q10: real, q20: real, tf: real, elbow: string, dt: real, i: nat, limit: bool)
    requires 0.0 < tf && 0.0 < dt
    requires PlanMove(m, xd, yd, q10, q20, tf, elbow).Success?
    ensures var p := PlanMove(m, xd, yd, q10, q20, tf, elbow).value;
      var s := SampleAt(m, p, dt, 0, limit);
      s.t == 0.0 && s.q1 == q10 && s.q2 == q20 && s.dq1 == 0.0 && s.dq2 == 0.0
    ensures var p := PlanMove(m, xd, yd, q10, q20, tf, elbow).value;
      var s := SampleAt(m, p, dt, i, limit);
      Min(q10, p.qf.q1) <= s.q1 <= Max(q10, p.qf.q1) && Min(q20, p.qf.q2) <= s.q2 <= Max(q20, p.qf.q2)
  {
    PlanEndpoints(m, xd, yd, q10, q20, tf, elbow);
    SampleTimeInRange(tf, dt, i);
    PlanStaysBetween(m, xd, yd, q10, q20, tf, elbow, SampleTime(tf, dt, i));
  }

  /**
   * After a default move that is not animated, `run` takes the last
   * sample's joint angles as the new current pose: they are the planned
   * final angles, reached at rest.
   */
  lemma DefaultRunEndsAtTarget(m: MathLib, xd: real, yd: real, q10: real, q20: real, elbow: string, limit: bool)
    requires PlanMove(m, xd, yd, q10, q20, DefaultDuration, elbow).Success?
    ensures var p := PlanMove(m, xd, yd, q10, q20, DefaultDuration, elbow).value;
      var last := SampleAt(m, p, DefaultStep, SampleCount(DefaultDuration, DefaultStep) - 1, limit);
      last.q1 == p.qf.q1 && last.q2 == p.qf.q2 && last.dq1 == 0.0 && last.dq2 == 0.0
  {
    DefaultSampling();
    PlanEndpoints(m, xd, yd, q10, q20, DefaultDuration, elbow);
  }
}

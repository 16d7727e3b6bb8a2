# Two-link planar arm: kinematics, quintic planning and sampling

This project models the computational core of a browser simulator for a planar
robot arm with two revolute joints. Each link is 0.12 m long, and a 0.02 m
gripper is mounted at the tip. The core is made of these parts:

- small numeric utilities: `clamp`, `rad2deg` and `deg2rad`;
- the reachability test `validarAlcance`;
- forward kinematics (`cinematicaDirecta`);
- closed-form inverse kinematics with an elbow-up or elbow-down choice
  (`cinematicaInversa`);
- a rest-to-rest fifth-order joint profile (`quinticCoeffs`, `evalQuintic`);
- the move planner (`planMove`);
- the trajectory sampler (`sampleTrajectory`);
- the in-place rewrite of the gripper-tip coordinates of a sampled trajectory
  (`hydrateTipCoords`).

Modules:

- `Wrappers`: `Option` and `Result`.
- `Numerics`: the abstract `Math` library and `Math.min`, `Math.max` and `Math.abs`.
- `Kinematics`: the utilities, the reachability test and both kinematics.
- `Quintic`: the quintic profile and its properties.
- `Planner`: `planMove`.
- `Sampler`: `sampleTrajectory` and `hydrateTipCoords`.

JavaScript numbers are modelled as mathematical reals. `Math.sqrt`,
`Math.sin`, `Math.cos` and `Math.atan2` are fields of a `MathLib` value and
are otherwise uninterpreted. Two laws are stated about them as predicates:

- `SqrtLaws`: the root of a non-negative number is non-negative and squares
  back to it.
- `PythagoreanLaw`: sin² + cos² = 1.

A lemma depends on a law only when it lists that law in its `requires`. The
globals `q1_now`, `q2_now` and `limitePorPinza` become parameters. The
constants `l1`, `l2`, `pinza`, `xi`, `yi` and `tf` become Dafny constants.
`sampleTrajectory` is a method with a loop that builds a sequence.
`hydrateTipCoords` is a method that rewrites an `array` of samples in place.
A JavaScript `undefined` tip coordinate is `None`.

The last sample is not always at `tf`: the code samples at `min(tf, i*dt)`
for `i < N`, where `N = max(2, floor(tf/dt) + 1)`. When `dt` does not divide
`tf`, the last sample therefore falls short of `tf`: a 1 s move sampled every
0.3 s ends its samples at 0.9 s. `Sampler.LastSampleTime` and
`Sampler.LastSampleShortOfEnd` state this.

## Model

| member | source | states |
|---|---|---|
| Kinematics.Clamp | script.js:17 | the result never exceeds max; it is at least min when min <= max; it is v inside [min, max], min below it, and max above it or when the bounds are inverted |
| Kinematics.Rad2Deg | script.js:18-19 | converting radians to degrees and back with `deg2rad` returns the original angle |
| Kinematics.ReachableIffSquared | script.js:21-26 | with a lawful square root, the hypot-based test passes exactly when x²+y² <= (l1+l2+1e-9)² and either \|l1-l2\| - 1e-9 <= 0 or x²+y² >= (\|l1-l2\| - 1e-9)² |
| Kinematics.AnnulusIsReachable | script.js:21-26 | every target in the closed annulus \|l1-l2\| <= r <= l1+l2 passes the reachability test |
| Kinematics.ForwardInAnnulus | script.js:31-35 | with sin² + cos² = 1, every pose places the tip in the annulus (l1-l2)² <= x²+y² <= (l1+l2)² |
| Kinematics.ForwardIsReachable | script.js:31-35 | every pose produced by forward kinematics passes the reachability test |
| Kinematics.CosTheta2 | script.js:45-46 | the elbow cosine lies in [-1, 1] and equals the law-of-cosines value unless that value falls outside, when it is the nearer bound |
| Kinematics.ClampInactiveIffInAnnulus | script.js:45-46 | the clamp on the elbow cosine has no effect exactly when the target lies in the closed annulus |
| Kinematics.ElbowBranch | script.js:48-49 | for a clamped cosine, (s2, c2) is on the unit circle, with s2 <= 0 for the "down" elbow and s2 >= 0 for any other value |
| Kinematics.CinematicaInversa | script.js:37-64 | the reachable flag is exactly the reachability test; theta2 = atan2(s2, c2) and theta1 = atan2(y, x) - atan2(l2·s2, l1 + l2·c2); the degree fields are the converted angles |
| Kinematics.InverseAngles | script.js:45-57 | whether or not the target is reachable, the angles come from a unit-circle point (s2, c2) on the elbow's side, with c2 in [-1, 1] |
| Quintic.QuinticStart | script.js:69-86 | the profile has a1 = a2 = 0 and starts at q0 with zero velocity and zero acceleration |
| Quintic.QuinticEnd | script.js:69-86 | the profile ends at qf at time tf with zero velocity and zero acceleration |
| Quintic.QuinticBlend | script.js:69-86 | the position at t is q0 + (qf - q0)·(10s³ - 15s⁴ + 6s⁵) with s = t/tf |
| Quintic.BlendRange | script.js:69-86 | the blend 10s³ - 15s⁴ + 6s⁵ stays in [0, 1] for s in [0, 1] |
| Quintic.QuinticNoOvershoot | script.js:69-86 | for 0 <= t <= tf the position stays between q0 and qf |
| Quintic.QuinticVelocity | script.js:69-86 | the velocity times tf is 30(qf - q0)·s²(1 - s)² with s = t/tf |
| Quintic.QuinticDirection | script.js:69-86 | for tf > 0 the velocity never has the sign opposite to qf - q0, at any time |
| Planner.PlanMove | script.js:252-259 | the plan fails exactly when the target fails the reachability test, and then carries the unreachable-target message; a successful plan ends at the IK solution, keeps tf and starts each profile at the current joint angle |
| Planner.PlanEndpoints | script.js:252-259 | a successful plan starts both joints at their current angles and ends them at the IK solution, at rest and with zero acceleration at both ends |
| Planner.PlanProfiles | script.js:255-258 | the profiles of a successful plan are the quintics from the current angles to the final angles over tf |
| Planner.PlanStaysBetween | script.js:252-259 | during a positive-duration move each joint stays between its start and final angles |
| Planner.PlanHeadsToTarget | script.js:252-259 | no joint velocity of a positive-duration plan ever points away from the final angle |
| Planner.HomeIsPlannable | script.js:398-402 | the home target (0.14, 0.14) is reachable with the elbow up, so the home plan succeeds from any joint angles |
| Sampler.SampleCount | script.js:263 | there are at least two samples; exactly two only when tf < 2·dt, and otherwise (N-1)·dt is the last whole step at or before tf: (N-1)·dt <= tf < (N-1)·dt + dt |
| Sampler.SampleTrajectory | script.js:261-286 | it returns exactly SampleCount samples, and sample i holds both profiles evaluated at min(tf, i·dt), the forward-kinematics end point and the tip present iff the limit is on |
| Sampler.SampleFrom | script.js:267-283 | the record's tip coordinates are present exactly when the gripper limit is on |
| Sampler.SampleTimeInRange | script.js:266 | for tf >= 0 every sample time lies in [0, tf] |
| Sampler.SampleTimeMonotone | script.js:266 | sample times never decrease with the index |
| Sampler.LastSampleTime | script.js:263-266 | the last sample time lies in (tf - dt, tf], and it equals tf exactly when tf <= dt or tf is a whole number of steps |
| Sampler.LastSampleShortOfEnd | script.js:263-266 | a 1 s move at 0.3 s steps has 4 samples and the last one is at 0.9 s |
| Sampler.DefaultSampling | script.js:263-266 | the default 20 s move at 0.05 s steps has 401 samples and the last one is at 20 s |
| Sampler.SampleInWorkspace | script.js:267-270 | every sampled end point passes the reachability test |
| Sampler.PlannedSamples | script.js:261-286 | sampling a successful plan starts at the current angles at rest at t = 0, and every sample keeps each joint between its start and final angles |
| Sampler.DefaultRunEndsAtTarget | script.js:380-384 | after a default move, the last sample (which `run` takes as the new pose) is the planned final pose, at rest |
| Sampler.SampleIgnoresLimit | script.js:272-283 | apart from the tip fields, a sample does not depend on the gripper-limit setting |
| Sampler.WithTip | script.js:350-358 | rewriting one point changes only its tip fields, which are present exactly when the limit is on |
| Sampler.HydrateTipCoords | script.js:348-360 | every array element becomes its old value with the tip recomputed from its own end point and joint sum, or cleared when the limit is off |
| Sampler.WithTipLastWins | script.js:348-360 | rewriting the tips twice gives the same as rewriting them once with the second setting |
| Sampler.HydrateMatchesSampling | script.js:348-360 | rewriting the tips of a sample taken with one limit setting gives exactly the sample taken with the other setting |

## Left out

- Canvas drawing, plotting, the animation loop, DOM input parsing, event
  listeners and `alert` are I/O and are not modelled. `run` and the home button
  appear only through `Sampler.DefaultRunEndsAtTarget` and `Planner.HomeIsPlannable`.
- IEEE-754 rounding is not modelled; numbers are exact reals.
- `Math.sin`, `Math.cos`, `Math.atan2` and `Math.sqrt` are uninterpreted apart from
  the two laws above. Because nothing is assumed about `atan2`, the model does not
  prove that forward kinematics of the inverse solution returns the target.
- `Math.hypot(x, y)` and `Math.sqrt(x*x + y*y)` are both modelled by one `Hypot`
  function, since they agree on reals.
- Quintic.QuinticCoeffs: a zero duration divides by zero in the source (giving
  infinities or NaN). Here it is a precondition, and so it is for `PlanMove`.
- Sampler.SampleCount: a step `dt > 0` is a precondition, and so it is for
  `SampleTrajectory`. In the source a negative step with `tf >= 0` gives two
  samples, at t = 0 and at t = dt < 0; `dt = 0` loops forever when `tf > 0`,
  gives two samples when `tf < 0`, and gives a NaN count, hence no samples,
  when `tf = 0`. None of these cases is modelled.
- Quintic.QuinticNoOvershoot: stated only for a positive duration and times in
  [0, tf]. A negative duration is accepted by the source, but its profile has no
  such property.
- Planner.PlanMove: the source's `!sol` test cannot fire, because the solver always
  returns an object. The model keeps only the reachability test.
- Sampler.HydrateTipCoords: the source mutates shared sample objects. The model
  replaces each array element by a new record, so aliasing between points of
  the array is not captured.
- Kinematics.Rad2Deg: the degree fields `theta1_deg` and `theta2_deg` of the
  inverse solution are never read by the program; `rad2deg` is otherwise used
  only to plot sample angles, and `deg2rad` is never called. No property beyond
  the conversion round trip is stated about them.

# BikeTest vehicle rules in Dafny

This project models the arithmetic and state-update rules behind the BikeTest
Unity vehicles, and proves properties about them:

- the friction-circle tyre model (`FrictionCircleModel`);
- the raycast suspension wheel (`TyreSpring`);
- the bicycle controller (`Bike`): input mapping, lean target, drive smoothing,
  handlebar dynamics and the PID roll stabiliser;
- the older four-wheel car (`Car`): its spring, friction knee, steering, drive
  power, race clock, checkpoint gates and safe respawn;
- the lap timer (`LapTimer`).

Floats are modelled as exact reals. Every per-tick method of the source becomes
a pure function from the old state and the tick's inputs to the new state. The
engine supplies its readings as parameters: raycast hits, speeds, roll angle,
key states, frame time and poses. Forces handed to the rigid body appear as
returned values.

Modules:

- `UnityMath`: the `Mathf` helpers the scripts use, with Unity's exact branch
  choices. `Clamp` tests its lower bound first, `Sign(0)` is `1` and `Lerp`
  clamps its parameter. The module also holds `MoveTowards`, `Approximately`
  and the C# `(int)` cast and integer division, both truncating toward zero.
- `Vectors`: 3-vectors, the dot product, and removing the component along a
  normal.
- `Optional`: an option type for a missed raycast or a skipped call.
- `FrictionCircle`: `FrictionCircleModel.CalculateFrictionForce`, worked in the
  contact plane's (longitudinal, lateral) coordinates.
- `Suspension`: `TyreSpring`.
- `BikeControl`: `Bike`.
- `CarRules`: `Car`.
- `LapTiming`: `LapTimer`.

Where the tyre model, the car and the lap timer implement the same idea (the
`mu` knee, interpolation, splitting a time into minutes), lemmas connect the
copies: `CarRules.CarMuIsKnee`, `CarRules.ClampedAgreesInside` and
`LapTiming.MinutesAgree`.

## Model

| member | source | states |
|---|---|---|
| `UnityMath.MoveTowards` | Assets/Script/Bike.cs:245-264 | a step lands on the target when within reach, otherwise moves exactly the allowance toward it, never overshooting and never moving away |
| `UnityMath.Lerp` | Assets/Script/Bike.cs:272-276 | the result stays between the two end points, at the start for a parameter at or below 0 and at the end at or above 1 |
| `UnityMath.ApproximatelyZero` | Assets/Script/Bike.cs:254 | comparing with zero accepts exactly the values below eight times the smallest float |
| `UnityMath.Trunc` | Assets/Script/LapTimer.cs:211-213 | the `(int)` cast is the floor for non-negative values, lies within 1 of its argument and is never larger in magnitude |
| `UnityMath.TruncDiv` | Assets/Script/Car.cs:298 | integer division by a positive divisor brackets the dividend toward zero and agrees with floor division for non-negative dividends |
| `Vectors.Reject` | Assets/Script/FrictionCircleModel.cs:103 | a vector already orthogonal to the normal is unchanged |
| `Vectors.RejectOrthogonal` | Assets/Script/FrictionCircleModel.cs:57 | removing the component along a unit normal leaves a vector orthogonal to it |
| `FrictionCircle.LinerInterpolate` | Assets/Script/FrictionCircleModel.cs:149-153 | the extrapolating line passes through (start, startVal) and (end, endVal) |
| `FrictionCircle.LinerInterpolateBetween` | Assets/Script/FrictionCircleModel.cs:149-153 | between the two abscissae the line stays between the two values |
| `FrictionCircle.MuKnee` | Assets/Script/FrictionCircleModel.cs:109-133 | `mu` is 1 for ratio <= 1 and equals the ratio on (1, 1.02); on (1.02, 1.06) it is the falling line from 1.02 to the minimum; at exactly 1.02 and from 1.06 on it is the minimum |
| `FrictionCircle.MuKneeBounds` | Assets/Script/FrictionCircleModel.cs:113-133 | for a minimum in [0, 1], `mu` lies in [minimum, 1.02] |
| `FrictionCircle.MuKneeFalling` | Assets/Script/FrictionCircleModel.cs:125-128 | on the falling band a larger ratio never gives a larger `mu` |
| `FrictionCircle.Direction` | Assets/Script/FrictionCircleModel.cs:96-99 | Unity's `normalized` of a one-component vector is its sign, or zero exactly when the vector is at most 1e-5 long |
| `FrictionCircle.SlipCosine` | Assets/Script/FrictionCircleModel.cs:69-70 | the clamped heading cosine of the in-plane velocity lies in [-1, 1] |
| `FrictionCircle.SlipAngle` | Assets/Script/FrictionCircleModel.cs:71-80 | the slip angle is the arc cosine, negated exactly when the sign probe is negative |
| `FrictionCircle.CorneringCap` | Assets/Script/FrictionCircleModel.cs:86-89 | the cornering limit never exceeds 3000, and is non-negative for a non-negative logistic value |
| `FrictionCircle.CorneringForce` | Assets/Script/FrictionCircleModel.cs:92-99 | the cornering force never exceeds the cap, is the raw `-60 * lateral speed` when that is within the cap, and opposes the lateral speed |
| `FrictionCircle.DriveForce` | Assets/Script/FrictionCircleModel.cs:102 | the drive force is zero exactly for zero input and positive exactly for positive input |
| `FrictionCircle.DriveForceWorld` | Assets/Script/FrictionCircleModel.cs:102-103 | with a unit contact normal the drive force has no component along the normal, so removing that component again leaves it unchanged |
| `FrictionCircle.CalculateFrictionForce` | Assets/Script/FrictionCircleModel.cs:39-139 | without load: zero force and stored values untouched; with load: the radius is exactly `0.9 * normalForce` (so positive), the slip angle is stored, the stored coefficient is the `mu` of the ratio, and the force is the unscaled force times exactly that coefficient |
| `FrictionCircle.InsideCircleUntouched` | Assets/Script/FrictionCircleModel.cs:109-113 | for ratio <= 1 the force passes unchanged with coefficient 1 |
| `FrictionCircle.ScaledLength` | Assets/Script/FrictionCircleModel.cs:135 | scaling a force by a non-negative factor scales its length by that factor |
| `FrictionCircle.ReturnedLength` | Assets/Script/FrictionCircleModel.cs:119-136 | for a minimum in [0, 1] the applied coefficient lies in [minimum, 1.02], and the returned force is that coefficient times the unscaled length |
| `FrictionCircle.OutcomeLength` | Assets/Script/FrictionCircleModel.cs:135 | a force scaled by its non-negative recorded coefficient is that coefficient times the original length long |
| `Suspension.CalculateSpringForce` | Assets/Script/TyreSpring.cs:199-261 | grounded iff hit; normal force >= 0; on a hit the length is the hit distance minus the tyre radius clamped to [0, max], the spring and damper forces are the axis scaled by the spring push at that length and by the damper push over the tick, the total is their sum, the normal force is the non-negative part of its projection on the axis, the last length equals the current one, and the ground normal and grounded time are updated; on a miss both lengths are max, the normal force is 0 and the force vectors are kept |
| `Suspension.DotScaleSum` | Assets/Script/TyreSpring.cs:242-245 | projecting two pushes along a unit axis back onto it gives their sum |
| `Suspension.NormalForceFormula` | Assets/Script/TyreSpring.cs:233-246 | with a unit spring axis the normal force is `max(0, k*(rest - length) + c*(last - length)/dt)` |
| `Suspension.StifferPushesHarder` | Assets/Script/TyreSpring.cs:233-234 | at the same compression a stiffer spring pushes strictly harder |
| `Suspension.UpdateTyreVisual` | Assets/Script/TyreSpring.cs:161-196 | with visuals off or no model nothing changes; an airborne wheel is extended to max and its spring, damper, total and normal forces and grounded time are zeroed |
| `Suspension.FrictionCall` | Assets/Script/TyreSpring.cs:264-281 | the friction model is called iff grounded, loaded and present; it receives the normal force, and a non-drive wheel passes input 0 |
| `Suspension.FixedUpdate` | Assets/Script/TyreSpring.cs:150-158 | friction is requested only after a hit, with a model and positive load; a miss yields no friction request, zero load and a fully extended spring |
| `Suspension.GetGroundNormal` | Assets/Script/TyreSpring.cs:340-343 | the stored normal while grounded, world up otherwise |
| `Suspension.GroundNormalAfterStep` | Assets/Script/TyreSpring.cs:213-219 | after a spring step the reported normal is the hit's normal, or world up after a miss |
| `BikeControl.DefaultsAreValid` | Assets/Script/Bike.cs:21-121 | the inspector defaults give a non-zero handle inertia and caster speed, non-negative handle limit, integral bound, lean limit and lean rates, and positive sensitivities, so the bounds proved here apply to the shipped bike |
| `BikeControl.TargetDrive` | Assets/Script/Bike.cs:216-230 | forward input times the acceleration sensitivity, backward input times the brake sensitivity, 0 without input |
| `BikeControl.TargetDriveSign` | Assets/Script/Bike.cs:216-230 | with positive sensitivities the target drive has the input's sign and is bounded by the larger sensitivity for a unit axis |
| `BikeControl.LeanTarget` | Assets/Script/Bike.cs:238 | a unit axis never asks for more than the maximum lean |
| `BikeControl.PerFrame` | Assets/Script/Bike.cs:239 | a non-negative rate over a non-negative frame gives a non-negative allowance |
| `BikeControl.LeanStep` | Assets/Script/Bike.cs:234-265 | without input the lean decays toward 0; with input on the lean's side (or from upright) it moves toward the axis times the maximum lean by the accumulation allowance; on a reversal it decays toward 0 first and accumulates toward the new side only from within the zero tolerance |
| `BikeControl.LeanAccumulates` | Assets/Script/Bike.cs:242-246 | input on the lean's side moves the lean toward the target by at most the accumulation allowance, never past it and never further from it, and onto it once within reach |
| `BikeControl.LeanStepForward` | Assets/Script/Bike.cs:242-246 | with a positive axis, a non-negative lean steps straight toward the target |
| `BikeControl.ApproachCapped` | Assets/Script/Bike.cs:245 | repeated steps toward a target from below add one allowance each until they reach the target, then stay there |
| `BikeControl.LeanRunApproaches` | Assets/Script/Bike.cs:234-246 | over any number of frames of the same positive input, a lean between 0 and the target evolves as plain repeated steps toward the target |
| `BikeControl.LeanRunAccumulates` | Assets/Script/Bike.cs:234-246 | after `n` frames of the same positive input, starting between 0 and the target, the lean is `min(lean + n allowances, target)` |
| `BikeControl.AllowanceIsProduct` | Assets/Script/Bike.cs:239 | `n` per-frame allowances add up to `n` times the allowance, so the maximum lean is reached after `maxLeanAngle / leanAccumulationRate` seconds of full input |
| `BikeControl.LeanStepBounded` | Assets/Script/Bike.cs:234-265 | for a unit axis and non-negative rates, a lean within the maximum stays within it |
| `BikeControl.LeanDecays` | Assets/Script/Bike.cs:260-265 | without input the lean moves toward 0 by at most the decay allowance, never grows and never changes sign |
| `BikeControl.ReversalDecaysFirst` | Assets/Script/Bike.cs:247-257 | on a reversal the lean first decays toward 0 by at most the decay allowance without crossing it; unless that lands within the zero tolerance the frame ends on the decayed value, and only from there does it accumulate toward the new target, so it reaches the new side only through the tolerance |
| `BikeControl.ProcessInput` | Assets/Script/Bike.cs:204-266 | the steering flag is `|horizontal| > 0.01`; the target drive follows the sensitivities; the target lean is one `LeanStep`, in particular a step toward the axis times the maximum lean by the accumulation allowance when the input is on the lean's side, and a decay toward 0 without input; no other field changes |
| `BikeControl.OverSpeedFactor` | Assets/Script/Bike.cs:285-290 | the attenuation factor lies in [0, 1], is 1 up to the threshold and 0 from 1.2 times a positive threshold |
| `BikeControl.ApplyDriveForce` | Assets/Script/Bike.cs:269-297 | only the current drive input changes |
| `BikeControl.DriveStepBounds` | Assets/Script/Bike.cs:272-297 | the smoothed drive lies between the old drive and the target; only positive drive is attenuated, never below 0, and at 1.2 times a positive threshold it is gone |
| `BikeControl.ApplyHandleRotation` | Assets/Script/Bike.cs:311-446 | the handle angle stays within the limit; the angular velocity is the integrated velocity plus the low-speed correction, zeroed exactly when the angle sits on a limit and that velocity still pushes outward against it, and kept unchanged otherwise; the integrated angle is kept when within the limits; nothing else changes |
| `BikeControl.HandleRun` | Assets/Script/Bike.cs:432-439 | over any sequence of frames with non-negative speeds, a handle within its limit stays within it |
| `BikeControl.TargetRoll` | Assets/Script/Bike.cs:610-621 | below 2 m/s the target roll is exactly the lean times speed / 2, so `|target roll| <= |target lean|` and it is 0 at rest; from 2 m/s it is the lean |
| `BikeControl.ScaleBelow` | Assets/Script/Bike.cs:619-620 | scaling a non-negative value by a factor in [0, 1] stays in [0, x], keeps it at factor 1 and zeroes it at factor 0 |
| `BikeControl.ApplyStabilizationForce` | Assets/Script/Bike.cs:593-644 | the integral is the old integral plus error times dt when that sum is within the anti-windup bound, and the bound (of the sum's sign) when it overshoots; the remembered error is this call's error, and the output is the P, I and D sum |
| `BikeControl.StabilizerRun` | Assets/Script/Bike.cs:627-639 | over any sequence of calls the integral stays bounded and the remembered error is the last call's |
| `BikeControl.FixedUpdate` | Assets/Script/Bike.cs:182-198 | after a physics frame the handle is within its limit, and the PID state changes only with both stabilisation switches on |
| `CarRules.LinerInterpolate` | Assets/Script/Car.cs:71-77 | startVal below the start, endVal beyond the end, otherwise between the two values |
| `CarRules.ClampedAgreesInside` | Assets/Script/Car.cs:71-77 | inside its range the clamped interpolation equals the tyre model's extrapolating one |
| `CarRules.SpringUpdate` | Assets/Script/Car.cs:32-61 | a hit closer than max length sets the length to the distance and the contact normal to the hit's, with push exactly `(max - distance) * 2000` (positive) and damper force exactly `axis speed * -180`; otherwise the length is max, the push and normal are kept and no force is applied |
| `CarRules.OnGroundIffHit` | Assets/Script/Car.cs:38-67 | after an update `isOnGround` holds iff the ray hit closer than max length |
| `CarRules.FrictionCircleSize` | Assets/Script/Car.cs:133-139 | with a debug display the circle size is exactly `(springPow * 2 + 10) * multiplier`, positive for a non-negative push and positive multiplier; otherwise the old value stays |
| `CarRules.CarMu` | Assets/Script/Car.cs:191-211 | `mu` lies in [0.16, 1.02] and is 1 for a force inside a positive circle; a zero circle gives 0.16 for a positive force and 1 for none; a negative circle gives 1 |
| `CarRules.CarMuIsKnee` | Assets/Script/Car.cs:191-211 | with a positive circle the car's `mu` is the tyre model's knee at minimum 0.16, which is 0.16 at exactly 1.02 |
| `CarRules.TyreAccel` | Assets/Script/Car.cs:221-240 | a grounded tyre stores the requested power, an airborne one 0 |
| `CarRules.AccelNeedsContact` | Assets/Script/Car.cs:223-239 | right after a spring update a tyre takes drive power exactly when its ray hit within the spring's reach |
| `CarRules.HandleSpeed` | Assets/Script/Car.cs:368-374 | the steering rate lies in [0.5, 1.5] and is 0.5 from 40 km/h |
| `CarRules.HandleStep` | Assets/Script/Car.cs:376-402 | left input (taking priority) turns the handle left by one steering step down to -30 and right input turns it right up to 30; an analogue axis past 0.5 then backs off by 1.1 steps while the angle is beyond what its deflection asks for; with no input the handle shrinks by the factor 0.95 |
| `CarRules.KeysSteer` | Assets/Script/Car.cs:376-398 | a key alone turns the handle its way by one full step, or onto the 30-degree stop, and never the other way |
| `CarRules.HandleStepBounded` | Assets/Script/Car.cs:368-402 | for an axis in [-1, 1] and a non-negative speed, a handle within 30 degrees stays within it |
| `CarRules.HandleReturnsToCentre` | Assets/Script/Car.cs:399-402 | with no input the handle shrinks toward 0 without crossing it |
| `CarRules.PedalPower` | Assets/Script/Car.cs:414-455 | the accelerator asks for at least 3 and the brake for at most -6, with extra below 30 km/h; coasting asks for 0 |
| `CarRules.WheelCommands` | Assets/Script/Car.cs:418-477 | the accelerator drives the rear wheels and the brake the front ones, with the previous power; coasting sends 0 to all four; a pedal during the start wait sends nothing |
| `CarRules.DrivePowerStep` | Assets/Script/Car.cs:478-483 | the power moves 1% toward the pedal power times the multiplier; without the brake that value is kept when non-negative and multiplied by 0.9 when negative, so it never drops below the lesser of its old value and 0 |
| `CarRules.CoastDecays` | Assets/Script/Car.cs:470-483 | coasting multiplies a non-negative power by 0.99 and a negative one by 0.891 per frame |
| `CarRules.AcceleratorApproaches` | Assets/Script/Car.cs:414-426 | with the accelerator and a non-negative multiplier, a non-negative power moves toward the target without overshooting it from either side |
| `CarRules.ClockStep` | Assets/Script/Car.cs:356-360 | the race clock runs only between start and goal |
| `CarRules.StartWaitStep` | Assets/Script/Car.cs:323-326 | the start wait counts down only while positive |
| `CarRules.TimeSplit` | Assets/Script/Car.cs:296-304 | `min*60 + sec == time`; for `time >= 0`, `min >= 0` and `0 <= sec < 60` |
| `CarRules.ExpectedGate` | Assets/Script/Car.cs:647-663 | the next expected tag is Gate(n+1) uphill and Gate(5-n) downhill |
| `CarRules.InitialRaceValid` | Assets/Script/Car.cs:256-260 | a fresh car is not started, not finished, at gate 0 with a zero clock and zeroed gate times, which is a valid race state |
| `CarRules.OnTriggerEnter` | Assets/Script/Car.cs:630-678 | after the goal nothing changes; the counter advances by one exactly on the direction's next gate, recording the race time, and stays <= 5; the start and goal flags follow the direction's lines |
| `CarRules.TriggerRun` | Assets/Script/Car.cs:663-666 | over any sequence of triggers the counter stays in [0, 5], never decreases, earlier gate times are kept, and every newly recorded gate time is the race clock's time; once started the race stays started, and after the goal nothing changes |
| `CarRules.CountGrounded` | Assets/Script/Car.cs:585-586 | the count equals the number of wheels exactly when all of them are grounded |
| `CarRules.RespawnStep` | Assets/Script/Car.cs:585-601 | all four grounded clears the timer and records the pose; otherwise the timer accumulates, and past 4 it clears and the saved pose is restored; the timer ends at most 4 |
| `CarRules.RespawnTimerBounded` | Assets/Script/Car.cs:585-601 | with non-negative frame times the timer stays in [0, 4] |
| `LapTiming.ResetTimer` | Assets/Script/LapTimer.cs:111-120 | the timer is stopped, the times are 0, the history is empty, the best lap is `float.MaxValue`, the lap counter is 0, and the course flags are kept |
| `LapTiming.StartTimer` | Assets/Script/LapTimer.cs:125-132 | the timer runs from now with a valid, zero-length lap; the history, best lap, lap counter and both course flags are kept |
| `LapTiming.CompleteLap` | Assets/Script/LapTimer.cs:137-166 | a no-op when stopped; otherwise the lap is appended last and only the oldest entry is dropped; the best lap becomes the minimum and never increases; the counter grows by exactly 1 and the lap time resets to 0; the invalidation and both course flags are kept |
| `LapTiming.CompleteLapConsistent` | Assets/Script/LapTimer.cs:145-157 | completing a lap keeps the history within its bound and the best lap no slower than any recorded lap |
| `LapTiming.TriggerDecision` | Assets/Script/LapTimer.cs:175-202 | start iff stopped; complete iff running, past the minimum time and valid; restart iff invalidated; ignore otherwise |
| `LapTiming.OnTriggerEnter` | Assets/Script/LapTimer.cs:171-204 | other tags and ignored crossings change nothing; a restart clears the invalidation; a completion advances the counter by 1 |
| `LapTiming.Update` | Assets/Script/LapTimer.cs:75-106 | leaving the course while running invalidates the lap, and nothing else does; the lap time advances only while running, on course and valid; the running flag, history, best lap, lap counter and start times are untouched |
| `LapTiming.Run` | Assets/Script/LapTimer.cs:75-204 | any sequence of ticks, crossings and resets keeps the history bounded and the best lap no slower than any recorded lap; without a reset the counter never decreases |
| `LapTiming.InitialConsistent` | Assets/Script/LapTimer.cs:43-62 | the field initialisers satisfy the history invariant |
| `LapTiming.FormatTime` | Assets/Script/LapTimer.cs:209-216 | for `t >= 0`: minutes >= 0, seconds in [0, 59], milliseconds in [0, 999], and together they give `t` in whole milliseconds |
| `LapTiming.FormatTimeDecomposes` | Assets/Script/LapTimer.cs:211-213 | the float remainders by 60 and by 1000 leave the seconds and milliseconds in range and recompose the truncated millisecond count |
| `LapTiming.MinutesAgree` | Assets/Script/LapTimer.cs:211 | the lap timer and the car's lap display show the same minutes for any non-negative time |

## Left out

- Engine calls are parameters. This covers raycasts, rigid-body forces and velocities, transforms, input axes and keys, `Time.time` and the frame times. Audio, text meshes, GUI, gizmos and `Debug.Log` are not modelled.
- Square root, arc cosine, the logistic function (`Mathf.Exp`) and the sine of the caster angle are supplied, not defined. The friction model takes them as functions in `FrictionCircle.Engine`; the bike takes `Sin(CasterAngle)` as the `casterSine` configuration value.
- The friction model is worked in the contact plane's (longitudinal, lateral) coordinates. This is exact when the contact normal and the projected tyre directions are unit vectors. Only the drive-force projection (`DriveForceWorld`) is also stated in three dimensions.
- The sign probe of the slip angle (the dot of the cross product with the heading) is a given real, and so are the roll angles the bike measures with `SignedAngle`.
- IEEE-754 rounding and single precision are not modelled. Where the source divides by a possibly zero float, the model follows the IEEE outcome (infinity or NaN) explicitly: a zero car friction circle in `CarMu`, and a zero speed threshold in `OverSpeedFactor`.
- TyreSpring.cs:273 assigns `FrictionCircleMultiplier`, which `FrictionCircleModel` does not declare. The model follows `FrictionCircleModel`: the radius is `0.9 * normalForce`, with no multiplier. The kinetic-friction coefficient that the same block passes (line 271) is never read, so it is not modelled.
- FrictionCircle.MuKneeBounds: stated for a minimum coefficient in [0, 1] rather than [0, 1.02]. For a minimum above 1, a ratio at most 1 gives `mu = 1`, which is below the minimum.
- FrictionCircle.ReturnedLength: the length identity is stated for the exact length of the unscaled force (its non-negative square root), not for whatever the supplied square-root function returns.
- BikeControl.ApplyHandleRotation: requires a non-zero handle inertia and caster speed, and a non-negative speed. The source divides by these (Bike.cs:363, 403, 418), and a speed is a magnitude.
- BikeControl.ApplyHandleRotation, BikeControl.ApplyStabilizationForce: assume the handle transform and rigid body exist. The early returns for missing components are not modelled.
- FrictionCircle.LinerInterpolate, CarRules.LinerInterpolate: require distinct end points. Every call site in the source passes constant, distinct ones.
- In `Car.FixedUpdate` the analogue `acc`/`brk` inputs are the literal 0 (Car.cs:410-411), so their scaling branches are dead. `CarRules.PedalPower` leaves them out.
- The car's per-tyre cornering force and slip-angle computation (`Tyre.update` before the `mu` block) is not modelled. It is not the tyre model's computation: the car does not clamp the heading cosine before `Acos` (Car.cs:154-155); its sign probe crosses with the tyre's own up axis rather than world up, and the sign only reaches the debug display (Car.cs:158-161); its cornering curve is the slip angle in radians divided by 10, without `Abs` or `Deg2Rad` (Car.cs:163); and its drive gain is 40 rather than 400 (Car.cs:185). The car's downforce, slip-sound volumes and the start-wait velocity reset are also not modelled.
- String formatting (`getTimeText`, `FormatTime`, the lap text) is reduced to the numeric fields it prints.
- `BikeReference.IsOnCourse` is not defined in `Bike`. The lap timer receives it per tick as an optional boolean, with `None` when no bike is attached.

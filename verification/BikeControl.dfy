/** The bicycle controller (`Bike`): keyboard axes become a target drive
    and a target lean angle, the drive is smoothed and cut back above a
    speed threshold, the handlebar turns as a damped second-order system
    driven by self-steer and caster torques, and a PID loop on the roll
    angle produces the stabilising torque.

    Engine quantities arrive as parameters: the speed (a velocity
    magnitude, never negative), the measured roll angle, the frame times,
    and the sine of the caster angle. */
module BikeControl {
  import opened UnityMath

  datatype BikeConfig = BikeConfig(
    maxHandleAngle: real,
    lowSpeedHandleTorqueMultiplier: real,
    lowSpeedThreshold: real,
    handleInertiaMoment: real,
    handleDamping: real,
    handleCenteringTorque: real,
    steeringCenteringMultiplier: real,
    selfSteerStrength: real,
    selfSteerMinSpeed: real,
    casterSine: real,
    casterEffectStrength: real,
    casterMaxEffectSpeed: real,
    accelerationSensitivity: real,
    brakeSensitivity: real,
    inputSmoothness: real,
    maxSpeedThreshold: real,
    enableStabilization: bool,
    stabilizationP: real,
    stabilizationI: real,
    stabilizationD: real,
    integralMax: real,
    maxLeanAngle: real,
    leanAccumulationRate: real,
    leanDecayRate: real,
    enableSelfSteer: bool,
    enableCasterEffect: bool,
    enablePIDControl: bool)

  /** The inspector defaults, with the sine of the 25 degree caster angle
      supplied to four places. */
  const DefaultConfig: BikeConfig := BikeConfig(
    30.0, 1.5, 5.5, 0.5, 5.0, 2.0, 0.5, 5.0, 2.0, 0.4226, 2.0, 10.0,
    1.0, 1.0, 5.0, 16.7,
    true, 0.5, 0.05, 0.2, 5.0,
    30.0, 30.0, 15.0,
    true, true, true)

  /** The divisions of the handle step are defined. */
  predicate ValidHandleConfig(cfg: BikeConfig)
  {
    cfg.handleInertiaMoment != 0.0 && cfg.casterMaxEffectSpeed != 0.0
  }

  /** The inspector defaults keep the handle step defined, with a
      non-negative handle limit, integral bound and lean rates, so every
      bound proved below applies to the shipped bike. */
  lemma DefaultsAreValid()
    ensures ValidHandleConfig(DefaultConfig)
    ensures DefaultConfig.maxHandleAngle >= 0.0 && DefaultConfig.integralMax >= 0.0 && DefaultConfig.maxLeanAngle >= 0.0
    ensures DefaultConfig.leanAccumulationRate >= 0.0 && DefaultConfig.leanDecayRate >= 0.0
    ensures DefaultConfig.accelerationSensitivity > 0.0 && DefaultConfig.brakeSensitivity > 0.0
  {
  }

  datatype BikeState = BikeState(
    targetDriveInput: real,
    targetLeanAngle: real,
    isSteeringInput: bool,
    currentDriveInput: real,
    handleAngle: real,
    handleVelocity: real,
    rollErrorIntegral: real,
    rollErrorPrev: real)

  /** Axis values this small count as no input. */
  const AxisDeadZone: real := 0.01

  /** `Abs(a) * b <= b` for a factor of size at most one. */
  lemma {:induction false} UnitScaleBound(a: real, b: real)
    requires Abs(a) <= 1.0 && b >= 0.0
    ensures Abs(a * b) <= b
  {
    if a >= 0.0 {
      MulMono(b, a, 1.0);
      MulMono(b, 0.0, a);
    } else {
      MulMono(b, -a, 1.0);
      MulMono(b, 0.0, -a);
    }
  }

  /** The target drive: forward input scaled by the acceleration
      sensitivity, backward input by the brake sensitivity, none otherwise. */
  function TargetDrive(cfg: BikeConfig, vertical: real): (r: real)
    ensures vertical > 0.0 ==> r == vertical * cfg.accelerationSensitivity
    ensures vertical < 0.0 ==> r == vertical * cfg.brakeSensitivity
    ensures vertical == 0.0 ==> r == 0.0
  {
    if vertical > 0.0 then vertical * cfg.accelerationSensitivity
    else if vertical < 0.0 then vertical * cfg.brakeSensitivity
    else 0.0
  }

  /** With positive sensitivities the target drive has the sign of the
      vertical axis, and a unit axis never asks for more than the
      sensitivity. */
  lemma {:induction false} TargetDriveSign(cfg: BikeConfig, vertical: real)
    requires cfg.accelerationSensitivity > 0.0 && cfg.brakeSensitivity > 0.0
    ensures (TargetDrive(cfg, vertical) > 0.0) == (vertical > 0.0)
    ensures (TargetDrive(cfg, vertical) < 0.0) == (vertical < 0.0)
    ensures Abs(vertical) <= 1.0 ==> Abs(TargetDrive(cfg, vertical)) <= Max(cfg.accelerationSensitivity, cfg.brakeSensitivity)
  {
    if vertical > 0.0 {
      MulStrict(cfg.accelerationSensitivity, 0.0, vertical);
      if vertical <= 1.0 { UnitScaleBound(vertical, cfg.accelerationSensitivity); }
    } else if vertical < 0.0 {
      MulStrict(cfg.brakeSensitivity, vertical, 0.0);
      if vertical >= -1.0 { UnitScaleBound(vertical, cfg.brakeSensitivity); }
    }
  }

  /** One frame of the lean-angle target.  With steering input the angle
      accumulates toward `horizontal * maxLeanAngle`; when it currently
      leans the other way it first decays toward zero, and only once it is
      (approximately) zero does it start on the new side in the same
      frame.  Without input it decays toward zero. */
  function LeanStep(cfg: BikeConfig, lean: real, horizontal: real, dt: real): (r: real)
    ensures Abs(horizontal) <= AxisDeadZone ==> r == MoveTowards(lean, 0.0, PerFrame(cfg.leanDecayRate, dt))
    ensures Abs(horizontal) > AxisDeadZone && SameSide(lean, LeanTarget(horizontal, cfg.maxLeanAngle)) ==>
      r == MoveTowards(lean, LeanTarget(horizontal, cfg.maxLeanAngle), PerFrame(cfg.leanAccumulationRate, dt))
    ensures Abs(horizontal) > AxisDeadZone && !SameSide(lean, LeanTarget(horizontal, cfg.maxLeanAngle)) ==>
      var decayed := MoveTowards(lean, 0.0, PerFrame(cfg.leanDecayRate, dt));
      r == (if Approximately(decayed, 0.0)
            then MoveTowards(decayed, LeanTarget(horizontal, cfg.maxLeanAngle), PerFrame(cfg.leanAccumulationRate, dt))
            else decayed)
  {
    if Abs(horizontal) > AxisDeadZone then
      var targetMax := LeanTarget(horizontal, cfg.maxLeanAngle);
      var accumulation := PerFrame(cfg.leanAccumulationRate, dt);
      if SameSide(lean, targetMax) then
        MoveTowards(lean, targetMax, accumulation)
      else
        var decayed := MoveTowards(lean, 0.0, PerFrame(cfg.leanDecayRate, dt));
        if Approximately(decayed, 0.0) then MoveTowards(decayed, targetMax, accumulation)
        else decayed
    else
      MoveTowards(lean, 0.0, PerFrame(cfg.leanDecayRate, dt))
  }

  /** The lean already points the way the target does (`Mathf.Sign`
      counts zero as positive), or there is no lean yet. */
  predicate SameSide(lean: real, target: real)
  {
    Sign(lean) == Sign(target) || lean == 0.0
  }

  /** Holding the stick on the side the bike already leans (or from
      upright) moves the lean toward the target: by at most the
      accumulation allowance, never past the target, never further from
      it, and onto it once it is within reach. */
  lemma {:induction false} LeanAccumulates(cfg: BikeConfig, lean: real, horizontal: real, dt: real)
    requires Abs(horizontal) > AxisDeadZone && SameSide(lean, LeanTarget(horizontal, cfg.maxLeanAngle))
    requires cfg.leanAccumulationRate >= 0.0 && dt >= 0.0
    ensures var target := LeanTarget(horizontal, cfg.maxLeanAngle);
      var r := LeanStep(cfg, lean, horizontal, dt);
      Abs(r - lean) <= PerFrame(cfg.leanAccumulationRate, dt) &&
      Min(lean, target) <= r <= Max(lean, target) &&
      Abs(target - r) <= Abs(target - lean) &&
      (Abs(target - lean) <= PerFrame(cfg.leanAccumulationRate, dt) ==> r == target)
  {
  }

  /** `n` frames of the same input and frame time. */
  function LeanRun(cfg: BikeConfig, lean: real, horizontal: real, dt: real, n: nat): real
    decreases n
  {
    if n == 0 then lean else LeanRun(cfg, LeanStep(cfg, lean, horizontal, dt), horizontal, dt, n - 1)
  }

  /** `n` allowances of `a`, added one frame at a time. */
  function Allowance(n: nat, a: real): (r: real)
    ensures a >= 0.0 ==> r >= 0.0
  {
    if n == 0 then 0.0 else Allowance(n - 1, a) + a
  }

  /** Adding the allowance frame by frame gives `n` times the allowance,
      so with `LeanRunAccumulates` the lean after `n` frames of full input
      is `min(lean + n * rate * dt, target)`: the maximum lean is reached
      after `maxLeanAngle / leanAccumulationRate` seconds and then kept. */
  lemma {:induction false} AllowanceIsProduct(n: nat, a: real)
    ensures Allowance(n, a) == (n as real) * a
  {
    if n > 0 {
      AllowanceIsProduct(n - 1, a);
      assert ((n - 1) as real) * a + a == (n as real) * a;
    }
  }

  /** A lean on the target's (non-negative) side steps straight toward the
      target. */
  lemma LeanStepForward(cfg: BikeConfig, lean: real, horizontal: real, dt: real)
    requires AxisDeadZone < horizontal && cfg.maxLeanAngle >= 0.0 && lean >= 0.0
    ensures LeanStep(cfg, lean, horizontal, dt)
         == MoveTowards(lean, LeanTarget(horizontal, cfg.maxLeanAngle), PerFrame(cfg.leanAccumulationRate, dt))
  {
    NonNegativeProduct(horizontal, cfg.maxLeanAngle);
    assert SameSide(lean, LeanTarget(horizontal, cfg.maxLeanAngle));
  }

  /** `n` steps of `MoveTowards` toward a fixed target with a fixed
      allowance. */
  function Approach(x: real, target: real, a: real, n: nat): real
    decreases n
  {
    if n == 0 then x else Approach(MoveTowards(x, target, a), target, a, n - 1)
  }

  /** Approaching from below, each step adds one allowance until the target
      is reached, and the value then stays there. */
  lemma {:induction false} ApproachCapped(x: real, target: real, a: real, n: nat)
    requires a >= 0.0 && x <= target
    ensures Approach(x, target, a, n) == Min(x + Allowance(n, a), target)
    decreases n
  {
    if n > 0 {
      var next := MoveTowards(x, target, a);
      StepTowardCap(x, a, target);
      ApproachCapped(next, target, a, n - 1);
      assert Allowance(n, a) == Allowance(n - 1, a) + a;
    }
  }

  /** Holding the stick fully to one side from upright (or from a lean
      already on that side, short of the target), the lean runs straight
      toward the target: the run is `n` plain steps toward it. */
  lemma {:induction false} LeanRunApproaches(cfg: BikeConfig, lean: real, horizontal: real, dt: real, n: nat)
    requires AxisDeadZone < horizontal && cfg.maxLeanAngle >= 0.0
    requires cfg.leanAccumulationRate >= 0.0 && dt >= 0.0
    requires 0.0 <= lean <= LeanTarget(horizontal, cfg.maxLeanAngle)
    ensures LeanRun(cfg, lean, horizontal, dt, n)
         == Approach(lean, LeanTarget(horizontal, cfg.maxLeanAngle), PerFrame(cfg.leanAccumulationRate, dt), n)
    decreases n
  {
    if n > 0 {
      var target := LeanTarget(horizontal, cfg.maxLeanAngle);
      var a := PerFrame(cfg.leanAccumulationRate, dt);
      LeanStepForward(cfg, lean, horizontal, dt);
      var next := MoveTowards(lean, target, a);
      assert LeanStep(cfg, lean, horizontal, dt) == next;
      LeanRunApproaches(cfg, next, horizontal, dt, n - 1);
    }
  }

  /** So each frame of full input adds one accumulation allowance until the
      lean reaches the target, where it then stays. */
  lemma LeanRunAccumulates(cfg: BikeConfig, lean: real, horizontal: real, dt: real, n: nat)
    requires AxisDeadZone < horizontal && cfg.maxLeanAngle >= 0.0
    requires cfg.leanAccumulationRate >= 0.0 && dt >= 0.0
    requires 0.0 <= lean <= LeanTarget(horizontal, cfg.maxLeanAngle)
    ensures LeanRun(cfg, lean, horizontal, dt, n)
         == Min(lean + Allowance(n, PerFrame(cfg.leanAccumulationRate, dt)), LeanTarget(horizontal, cfg.maxLeanAngle))
  {
    LeanRunApproaches(cfg, lean, horizontal, dt, n);
    ApproachCapped(lean, LeanTarget(horizontal, cfg.maxLeanAngle), PerFrame(cfg.leanAccumulationRate, dt), n);
  }

  /** From a point capped at the target, one step toward the target is the
      cap of one more allowance. */
  lemma StepTowardCap(x: real, a: real, target: real)
    requires a >= 0.0
    ensures MoveTowards(Min(x, target), target, a) == Min(x + a, target)
  {
  }

  /** The lean the axis asks for: the axis value times the maximum lean,
      never beyond the maximum for a unit axis. */
  function LeanTarget(horizontal: real, maxLean: real): (r: real)
    ensures Abs(horizontal) <= 1.0 && maxLean >= 0.0 ==> Abs(r) <= maxLean
  {
    if Abs(horizontal) <= 1.0 && maxLean >= 0.0 then UnitScaleBound(horizontal, maxLean); horizontal * maxLean
    else horizontal * maxLean
  }

  /** A per-second rate turned into a per-frame allowance. */
  function PerFrame(rate: real, dt: real): (r: real)
    ensures rate >= 0.0 && dt >= 0.0 ==> r >= 0.0
  {
    if rate >= 0.0 && dt >= 0.0 then NonNegativeProduct(rate, dt); rate * dt
    else rate * dt
  }

  /** Lean steps never leave [-maxLeanAngle, maxLeanAngle] once inside it,
      for unit axis input and non-negative rates and frame time: every
      `MoveTowards` lands between its start and its target. */
  lemma {:induction false} LeanStepBounded(cfg: BikeConfig, lean: real, horizontal: real, dt: real)
    requires Abs(horizontal) <= 1.0 && cfg.maxLeanAngle >= 0.0 && Abs(lean) <= cfg.maxLeanAngle
    requires cfg.leanAccumulationRate >= 0.0 && cfg.leanDecayRate >= 0.0 && dt >= 0.0
    ensures Abs(LeanStep(cfg, lean, horizontal, dt)) <= cfg.maxLeanAngle
  {
  }

  /** Without steering input the lean moves toward zero by at most the
      decay allowance, never crosses zero and never grows. */
  lemma {:induction false} LeanDecays(cfg: BikeConfig, lean: real, horizontal: real, dt: real)
    requires Abs(horizontal) <= AxisDeadZone && cfg.leanDecayRate >= 0.0 && dt >= 0.0
    ensures var r := LeanStep(cfg, lean, horizontal, dt);
      Abs(r - lean) <= PerFrame(cfg.leanDecayRate, dt) && Abs(r) <= Abs(lean) &&
      (lean >= 0.0 ==> r >= 0.0) && (lean <= 0.0 ==> r <= 0.0)
  {
  }

  /** On a reversal of the steering direction the angle first decays toward
      zero, by at most the decay allowance and without crossing it.  Unless
      that decay step brought it within the zero tolerance of
      `Approximately`, the frame ends there, still on the old side; only
      from (approximately) zero does it accumulate toward the new side. */
  lemma {:induction false} ReversalDecaysFirst(cfg: BikeConfig, lean: real, horizontal: real, dt: real)
    requires Abs(horizontal) > AxisDeadZone && lean != 0.0
    requires Sign(lean) != Sign(LeanTarget(horizontal, cfg.maxLeanAngle))
    requires cfg.leanDecayRate >= 0.0 && dt >= 0.0
    ensures var decayed := MoveTowards(lean, 0.0, PerFrame(cfg.leanDecayRate, dt));
      Abs(decayed) <= Abs(lean) && Abs(lean - decayed) <= PerFrame(cfg.leanDecayRate, dt) &&
      (lean > 0.0 ==> decayed >= 0.0) && (lean < 0.0 ==> decayed <= 0.0)
    ensures var r := LeanStep(cfg, lean, horizontal, dt);
      var decayed := MoveTowards(lean, 0.0, PerFrame(cfg.leanDecayRate, dt));
      !Approximately(decayed, 0.0) ==> r == decayed
    ensures var r := LeanStep(cfg, lean, horizontal, dt);
      var decayed := MoveTowards(lean, 0.0, PerFrame(cfg.leanDecayRate, dt));
      Approximately(decayed, 0.0) ==>
        r == MoveTowards(decayed, LeanTarget(horizontal, cfg.maxLeanAngle), PerFrame(cfg.leanAccumulationRate, dt))
    ensures var r := LeanStep(cfg, lean, horizontal, dt);
      var decayed := MoveTowards(lean, 0.0, PerFrame(cfg.leanDecayRate, dt));
      ((lean > 0.0 && r < 0.0) || (lean < 0.0 && r > 0.0)) ==> Abs(decayed) < FloatEpsilon * 8.0
  {
    ApproximatelyZero(MoveTowards(lean, 0.0, PerFrame(cfg.leanDecayRate, dt)));
  }

  /** `ProcessInput`: steering flag, target drive and lean target. */
  function ProcessInput(cfg: BikeConfig, s: BikeState, vertical: real, horizontal: real, dt: real): (r: BikeState)
    ensures r.isSteeringInput == (Abs(horizontal) > AxisDeadZone)
    ensures r.targetDriveInput == TargetDrive(cfg, vertical)
    ensures r.targetLeanAngle == LeanStep(cfg, s.targetLeanAngle, horizontal, dt)
    ensures Abs(horizontal) > AxisDeadZone && SameSide(s.targetLeanAngle, LeanTarget(horizontal, cfg.maxLeanAngle)) ==>
      r.targetLeanAngle == MoveTowards(s.targetLeanAngle, LeanTarget(horizontal, cfg.maxLeanAngle), PerFrame(cfg.leanAccumulationRate, dt))
    ensures Abs(horizontal) <= AxisDeadZone ==> r.targetLeanAngle == MoveTowards(s.targetLeanAngle, 0.0, PerFrame(cfg.leanDecayRate, dt))
    ensures r.(isSteeringInput := s.isSteeringInput, targetDriveInput := s.targetDriveInput,
               targetLeanAngle := s.targetLeanAngle) == s
  {
    s.(isSteeringInput := Abs(horizontal) > AxisDeadZone,
       targetDriveInput := TargetDrive(cfg, vertical),
       targetLeanAngle := LeanStep(cfg, s.targetLeanAngle, horizontal, dt))
  }

  /** The factor applied to positive drive above the speed threshold:
      one at the threshold, falling linearly to zero at 1.2 times it.  A
      zero threshold divides a positive speed by zero, which the engine
      turns into an infinite ratio and so a factor of zero. */
  function OverSpeedFactor(speed: real, threshold: real): (r: real)
    ensures 0.0 <= r <= 1.0
    ensures threshold > 0.0 && speed >= threshold * 1.2 ==> r == 0.0
    ensures threshold > 0.0 && speed <= threshold ==> r == 1.0
  {
    if threshold == 0.0 then 0.0
    else
      var overRatio := (speed - threshold) / (threshold * 0.2);
      assert threshold > 0.0 && speed >= threshold * 1.2 ==> overRatio >= 1.0 by {
        if threshold > 0.0 && speed >= threshold * 1.2 {
          DivAtLeastOne(speed - threshold, threshold * 0.2);
        }
      }
      assert threshold > 0.0 && speed <= threshold ==> overRatio <= 0.0 by {
        if threshold > 0.0 && speed <= threshold {
          DivNonPos(speed - threshold, threshold * 0.2);
        }
      }
      Clamp01(1.0 - overRatio)
  }

  lemma DivAtLeastOne(x: real, y: real)
    requires y > 0.0 && x >= y
    ensures x / y >= 1.0
  {
  }

  lemma DivNonPos(x: real, y: real)
    requires y > 0.0 && x <= 0.0
    ensures x / y <= 0.0
  {
  }

  /** `ApplyDriveForce`: the drive input approaches its target by a `Lerp`
      step, then positive drive is attenuated while the bike is faster than
      the threshold. */
  function ApplyDriveForce(cfg: BikeConfig, s: BikeState, speed: real, dt: real): (r: BikeState)
    ensures r.(currentDriveInput := s.currentDriveInput) == s
  {
    var smoothed := Lerp(s.currentDriveInput, s.targetDriveInput, dt * cfg.inputSmoothness);
    var factor := if speed > 0.0 && speed > cfg.maxSpeedThreshold then OverSpeedFactor(speed, cfg.maxSpeedThreshold) else 1.0;
    s.(currentDriveInput := if smoothed > 0.0 then ScaleBelow(smoothed, factor) else smoothed)
  }

  /** The drive after the step lies between the old drive and the target,
      except that positive drive may be cut further toward zero (but never
      below it) above the speed threshold; at or beyond 1.2 times a
      positive threshold positive drive is gone. */
  lemma {:induction false} DriveStepBounds(cfg: BikeConfig, s: BikeState, speed: real, dt: real)
    ensures var r := ApplyDriveForce(cfg, s, speed, dt).currentDriveInput;
      var smoothed := Lerp(s.currentDriveInput, s.targetDriveInput, dt * cfg.inputSmoothness);
      Min(s.currentDriveInput, s.targetDriveInput) <= smoothed <= Max(s.currentDriveInput, s.targetDriveInput) &&
      (smoothed <= 0.0 ==> r == smoothed) &&
      (smoothed > 0.0 ==> 0.0 <= r <= smoothed) &&
      (speed <= cfg.maxSpeedThreshold ==> r == smoothed) &&
      (cfg.maxSpeedThreshold > 0.0 && speed >= cfg.maxSpeedThreshold * 1.2 ==> r <= 0.0)
  {
  }

  /** The torque on the handlebar before the low-speed correction:
      centring (weakened while steering), self-steer and caster torques
      above the minimum speed, and damping. */
  function HandleTorque(cfg: BikeConfig, s: BikeState, speed: real, roll: real): real
    requires cfg.casterMaxEffectSpeed != 0.0
  {
    var centeringMultiplier := if s.isSteeringInput then cfg.steeringCenteringMultiplier else 1.0;
    var centering := -s.handleAngle * cfg.handleCenteringTorque * 0.5 * centeringMultiplier;
    var selfSteer := if speed > cfg.selfSteerMinSpeed && cfg.enableSelfSteer then -roll * cfg.selfSteerStrength * 1.0 else 0.0;
    var caster :=
      if speed > cfg.selfSteerMinSpeed && cfg.enableCasterEffect then
        var casterSpeedFactor := Clamp01(speed / cfg.casterMaxEffectSpeed);
        var casterEffect := cfg.casterSine * cfg.casterEffectStrength * casterSpeedFactor;
        var rollBased := -roll * casterEffect * 1.0;
        var trail := cfg.casterSine * casterSpeedFactor * 2.0;
        rollBased + -s.handleAngle * trail * centeringMultiplier
      else 0.0;
    centering + selfSteer + caster + -s.handleVelocity * cfg.handleDamping
  }

  /** Angular velocity after integrating the torque over the frame. */
  function IntegratedVelocity(cfg: BikeConfig, s: BikeState, speed: real, roll: real, dt: real): real
    requires ValidHandleConfig(cfg)
  {
    s.handleVelocity + HandleTorque(cfg, s, speed, roll) / cfg.handleInertiaMoment * dt
  }

  /** Handle angle after integrating that velocity, before the clamp. */
  function IntegratedAngle(cfg: BikeConfig, s: BikeState, speed: real, roll: real, dt: real): real
    requires ValidHandleConfig(cfg)
  {
    s.handleAngle + IntegratedVelocity(cfg, s, speed, roll, dt) * dt
  }

  /** Angular velocity after the low-speed correction: below the low-speed
      threshold an extra centring torque, growing as the bike slows, acts on
      the integrated angle for one more frame. */
  function CorrectedVelocity(cfg: BikeConfig, s: BikeState, speed: real, roll: real, dt: real): real
    requires ValidHandleConfig(cfg) && speed >= 0.0
  {
    var velocity := IntegratedVelocity(cfg, s, speed, roll, dt);
    if speed < cfg.lowSpeedThreshold then
      var speedFactor := 1.0 - speed / cfg.lowSpeedThreshold;
      var torqueMultiplier := 1.0 + (cfg.lowSpeedHandleTorqueMultiplier - 1.0) * speedFactor;
      var extra := -IntegratedAngle(cfg, s, speed, roll, dt) * 0.2 * torqueMultiplier;
      velocity + extra / cfg.handleInertiaMoment * dt
    else velocity
  }

  /** A velocity that still pushes outward against the limit the angle sits on. */
  predicate PushesAgainstLimit(angle: real, velocity: real, limit: real)
  {
    (angle == limit && velocity > 0.0) || (angle == -limit && velocity < 0.0)
  }

  /** `ApplyHandleRotation` (with the handle present): integrate torque into
      angular velocity and angle, add the low-speed correction, clamp the
      angle to the limit and stop a velocity that still pushes against it.
      Any other velocity, including one pulling back from a limit, is kept. */
  function ApplyHandleRotation(cfg: BikeConfig, s: BikeState, speed: real, roll: real, dt: real): (r: BikeState)
    requires ValidHandleConfig(cfg) && speed >= 0.0
    ensures cfg.maxHandleAngle >= 0.0 ==> Abs(r.handleAngle) <= cfg.maxHandleAngle
    ensures r.handleAngle == cfg.maxHandleAngle ==> r.handleVelocity <= 0.0
    ensures r.handleAngle == -cfg.maxHandleAngle ==> r.handleVelocity >= 0.0
    ensures var v := CorrectedVelocity(cfg, s, speed, roll, dt);
      PushesAgainstLimit(r.handleAngle, v, cfg.maxHandleAngle) ==> r.handleVelocity == 0.0
    ensures var v := CorrectedVelocity(cfg, s, speed, roll, dt);
      !PushesAgainstLimit(r.handleAngle, v, cfg.maxHandleAngle) ==> r.handleVelocity == v
    ensures Abs(IntegratedAngle(cfg, s, speed, roll, dt)) <= cfg.maxHandleAngle ==> r.handleAngle == IntegratedAngle(cfg, s, speed, roll, dt)
    ensures r.(handleAngle := s.handleAngle, handleVelocity := s.handleVelocity) == s
  {
    var velocity := CorrectedVelocity(cfg, s, speed, roll, dt);
    var clamped := Clamp(IntegratedAngle(cfg, s, speed, roll, dt), -cfg.maxHandleAngle, cfg.maxHandleAngle);
    var stopped := if PushesAgainstLimit(clamped, velocity, cfg.maxHandleAngle) then 0.0 else velocity;
    s.(handleAngle := clamped, handleVelocity := stopped)
  }

  /** One physics frame's engine readings. */
  datatype Frame = Frame(speed: real, roll: real, dt: real)

  /** Handle steps over a sequence of frames. */
  function HandleRun(cfg: BikeConfig, s: BikeState, frames: seq<Frame>): (r: BikeState)
    requires ValidHandleConfig(cfg)
    requires forall i :: 0 <= i < |frames| ==> frames[i].speed >= 0.0
    ensures cfg.maxHandleAngle >= 0.0 && Abs(s.handleAngle) <= cfg.maxHandleAngle ==> Abs(r.handleAngle) <= cfg.maxHandleAngle
    ensures r.targetLeanAngle == s.targetLeanAngle && r.currentDriveInput == s.currentDriveInput
    decreases |frames|
  {
    if |frames| == 0 then s
    else HandleRun(cfg, ApplyHandleRotation(cfg, s, frames[0].speed, frames[0].roll, frames[0].dt), frames[1..])
  }

  /** The roll target, reduced in proportion to speed below 2 m/s. */
  function TargetRoll(lean: real, speed: real): (r: real)
    ensures speed >= 2.0 ==> r == lean
    ensures 0.0 <= speed ==> Abs(r) <= Abs(lean)
    ensures speed == 0.0 ==> r == 0.0
    ensures 0.0 <= speed < 2.0 ==> r * 2.0 == lean * speed
  {
    if speed < 2.0 then
      var factor := speed / 2.0;
      if factor >= 0.0 then (if lean >= 0.0 then ScaleBelow(lean, factor) else -ScaleBelow(-lean, factor))
      else lean * factor
    else lean
  }

  /** A non-negative value scaled by a factor in [0, 1]. */
  function ScaleBelow(x: real, f: real): (r: real)
    requires x >= 0.0 && 0.0 <= f <= 1.0
    ensures 0.0 <= r <= x
    ensures f == 1.0 ==> r == x
    ensures f == 0.0 ==> r == 0.0
  {
    assert x * f <= x by { MulMono(x, f, 1.0); assert x * 1.0 == x; }
    assert 0.0 <= x * f by { NonNegativeProduct(x, f); }
    x * f
  }

  datatype StabilizerResult = StabilizerResult(state: BikeState, output: real)

  /** `ApplyStabilizationForce`: PID on the roll error with an integral
      clamped to `integralMax` and the error remembered for the next
      derivative.  The torque about the bike's ground heading is half the
      returned output. */
  function ApplyStabilizationForce(cfg: BikeConfig, s: BikeState, speed: real, roll: real, dt: real): (r: StabilizerResult)
    requires dt > 0.0
    ensures cfg.integralMax >= 0.0 ==> Abs(r.state.rollErrorIntegral) <= cfg.integralMax
    ensures var sum := s.rollErrorIntegral + r.state.rollErrorPrev * dt;
      Abs(sum) <= cfg.integralMax ==> r.state.rollErrorIntegral == sum
    ensures var sum := s.rollErrorIntegral + r.state.rollErrorPrev * dt;
      cfg.integralMax >= 0.0 && sum > cfg.integralMax ==> r.state.rollErrorIntegral == cfg.integralMax
    ensures var sum := s.rollErrorIntegral + r.state.rollErrorPrev * dt;
      cfg.integralMax >= 0.0 && sum < -cfg.integralMax ==> r.state.rollErrorIntegral == -cfg.integralMax
    ensures r.state.rollErrorPrev == TargetRoll(s.targetLeanAngle, speed) - roll
    ensures r.output == r.state.rollErrorPrev * cfg.stabilizationP + r.state.rollErrorIntegral * cfg.stabilizationI
                        + (r.state.rollErrorPrev - s.rollErrorPrev) / dt * cfg.stabilizationD
    ensures r.state.(rollErrorIntegral := s.rollErrorIntegral, rollErrorPrev := s.rollErrorPrev) == s
  {
    var error := TargetRoll(s.targetLeanAngle, speed) - roll;
    var integral := Clamp(s.rollErrorIntegral + error * dt, -cfg.integralMax, cfg.integralMax);
    var derivative := (error - s.rollErrorPrev) / dt;
    StabilizerResult(s.(rollErrorIntegral := integral, rollErrorPrev := error),
                     error * cfg.stabilizationP + integral * cfg.stabilizationI + derivative * cfg.stabilizationD)
  }

  /** The integral stays inside its anti-windup bound over any sequence of
      stabiliser calls, and the remembered error is always the last call's. */
  function StabilizerRun(cfg: BikeConfig, s: BikeState, frames: seq<Frame>): (r: BikeState)
    requires forall i :: 0 <= i < |frames| ==> frames[i].dt > 0.0
    ensures cfg.integralMax >= 0.0 && Abs(s.rollErrorIntegral) <= cfg.integralMax ==> Abs(r.rollErrorIntegral) <= cfg.integralMax
    ensures |frames| > 0 ==> r.rollErrorPrev == TargetRoll(s.targetLeanAngle, frames[|frames| - 1].speed) - frames[|frames| - 1].roll
    ensures r.targetLeanAngle == s.targetLeanAngle && r.handleAngle == s.handleAngle
    decreases |frames|
  {
    if |frames| == 0 then s
    else
      var next := ApplyStabilizationForce(cfg, s, frames[0].speed, frames[0].roll, frames[0].dt).state;
      StabilizerRun(cfg, next, frames[1..])
  }

  /** `FixedUpdate`: drive, then stabilisation when both switches are on,
      then the handle. */
  function FixedUpdate(cfg: BikeConfig, s: BikeState, f: Frame): (r: BikeState)
    requires ValidHandleConfig(cfg) && f.dt > 0.0 && f.speed >= 0.0
    ensures cfg.maxHandleAngle >= 0.0 ==> Abs(r.handleAngle) <= cfg.maxHandleAngle
    ensures !(cfg.enableStabilization && cfg.enablePIDControl) ==>
      r.rollErrorIntegral == s.rollErrorIntegral && r.rollErrorPrev == s.rollErrorPrev
    ensures cfg.integralMax >= 0.0 && Abs(s.rollErrorIntegral) <= cfg.integralMax ==> Abs(r.rollErrorIntegral) <= cfg.integralMax
    ensures r.targetLeanAngle == s.targetLeanAngle
  {
    var driven := ApplyDriveForce(cfg, s, f.speed, f.dt);
    var stabilized :=
      if cfg.enableStabilization && cfg.enablePIDControl
      then ApplyStabilizationForce(cfg, driven, f.speed, f.roll, f.dt).state
      else driven;
    ApplyHandleRotation(cfg, stabilized, f.speed, f.roll, f.dt)
  }
}

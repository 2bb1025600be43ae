/** The older four-wheel car (`Car`): a raycast spring per wheel, the same
    friction-circle knee as the tyre model, a keyboard/analogue steering
    integrator, a lagged drive power, a race clock with ordered checkpoint
    gates, and a timer that puts an overturned car back where it last had
    all four wheels down.

    Engine readings (raycast hits, speeds, key states, frame times, poses)
    are parameters. */
module CarRules {
  import opened UnityMath
  import opened Vectors
  import opened Optional
  import FrictionCircle

  // ---------------------------------------------------------------------
  // Clamped interpolation

  /** `linerInterpolate`: the start value before the range, the end value
      after it, and the straight line in between. */
  function LinerInterpolate(now: real, start: real, end: real, startVal: real, endVal: real): (r: real)
    requires start != end
    ensures now < start ==> r == startVal
    ensures start < end && now == start ==> r == startVal
    ensures start < end && now >= end ==> r == endVal
    ensures start < end && startVal <= endVal ==> startVal <= r <= endVal
    ensures start < end && endVal <= startVal ==> endVal <= r <= startVal
  {
    if now < start then startVal
    else if now > end then endVal
    else
      FrictionCircle.LinerInterpolateBetween(now, start, end, startVal, endVal);
      Offset(startVal, endVal - startVal, Fraction(now - start, end - start))
  }

  /** Inside its range the clamped interpolation is the extrapolating one
      of the tyre model. */
  lemma ClampedAgreesInside(now: real, start: real, end: real, startVal: real, endVal: real)
    requires start < end && start <= now <= end
    ensures LinerInterpolate(now, start, end, startVal, endVal)
         == FrictionCircle.LinerInterpolate(now, start, end, startVal, endVal)
  {
  }

  // ---------------------------------------------------------------------
  // Spring

  /** Length of every car spring (`init`). */
  const SpringMaxLength: real := 1.0
  const SpringStiffness: real := 2000.0
  const DamperCoefficient: real := -180.0

  /** A raycast hit: distance along the ray and the surface normal. */
  datatype RayHit = RayHit(distance: real, normal: Vec3)

  datatype CarSpring = CarSpring(maxLength: real, length: real, springPow: real, contactNormal: Vec3)

  /** The forces one spring update applies along the spring axis: the
      spring push and the damper force. */
  datatype SpringForces = SpringForces(spring: real, damper: real)

  datatype SpringResult = SpringResult(spring: CarSpring, forces: Option<SpringForces>)

  /** `Spring.update`.  A hit closer than the maximum length sets the length
      to the hit distance and pushes in proportion to the compression, with
      a damper against the speed along the axis; otherwise the spring is
      fully extended and the last push is kept. */
  function SpringUpdate(s: CarSpring, hit: Option<RayHit>, axisSpeed: real): (r: SpringResult)
    ensures r.spring.maxLength == s.maxLength
    ensures hit.Some? && hit.value.distance < s.maxLength ==>
      r.spring.length == hit.value.distance && r.spring.springPow > 0.0 && r.forces.Some? &&
      r.spring.contactNormal == hit.value.normal
    ensures !(hit.Some? && hit.value.distance < s.maxLength) ==>
      r.spring.length == s.maxLength && r.spring.springPow == s.springPow && r.forces.None? &&
      r.spring.contactNormal == s.contactNormal
    ensures hit.Some? && hit.value.distance < s.maxLength ==>
      r.spring.springPow == (s.maxLength - hit.value.distance) * SpringStiffness &&
      r.forces.value.damper == axisSpeed * DamperCoefficient
    ensures r.forces.Some? ==> r.forces.value.spring == r.spring.springPow
  {
    if hit.Some? && hit.value.distance < s.maxLength then
      var pow := (s.maxLength - hit.value.distance) * SpringStiffness;
      SpringResult(s.(length := hit.value.distance, springPow := pow, contactNormal := hit.value.normal),
                   Some(SpringForces(pow, axisSpeed * DamperCoefficient)))
    else
      SpringResult(s.(length := s.maxLength), None)
  }

  /** `isOnGround`: the spring is shorter than its maximum. */
  predicate IsOnGround(s: CarSpring)
  {
    s.length != s.maxLength
  }

  /** After an update the spring is on the ground exactly when the ray hit
      something closer than the maximum length. */
  lemma OnGroundIffHit(s: CarSpring, hit: Option<RayHit>, axisSpeed: real)
    ensures IsOnGround(SpringUpdate(s, hit, axisSpeed).spring) <==> hit.Some? && hit.value.distance < s.maxLength
  {
  }

  // ---------------------------------------------------------------------
  // Tyre friction circle

  const CarMinimumFriction: real := 0.16

  /** The friction circle size, recomputed from the spring push only when
      the tyre has a debug display attached; otherwise the old value stays. */
  function FrictionCircleSize(hasDebug: bool, springPow: real, circleMul: real, previous: real): (r: real)
    ensures !hasDebug ==> r == previous
    ensures hasDebug ==> r == (springPow * 2.0 + 10.0) * circleMul
    ensures hasDebug && springPow >= 0.0 && circleMul > 0.0 ==> r > 0.0
  {
    if hasDebug then
      var size := (springPow * 2.0 + 10.0) * circleMul;
      assert springPow >= 0.0 && circleMul > 0.0 ==> size > 0.0 by {
        if springPow >= 0.0 && circleMul > 0.0 { PositiveProduct(springPow * 2.0 + 10.0, circleMul); }
      }
      size
    else previous
  }

  /** The `mu` block of `Tyre.update`, for a force magnitude and a circle
      size.  With a positive circle it is the knee of the ratio.  With a
      zero circle the float division gives +infinity for a positive
      magnitude (so the minimum) and NaN for zero (no branch fires, so 1);
      a negative circle gives a ratio that is not above one. */
  function CarMu(magnitude: real, circle: real): (mu: real)
    requires magnitude >= 0.0
    ensures circle > 0.0 && magnitude <= circle ==> mu == 1.0
    ensures circle < 0.0 ==> mu == 1.0
    ensures circle == 0.0 ==> mu == (if magnitude > 0.0 then CarMinimumFriction else 1.0)
    ensures CarMinimumFriction <= mu <= FrictionCircle.KneePeak
  {
    if circle == 0.0 then (if magnitude > 0.0 then CarMinimumFriction else 1.0)
    else
      var ratio := magnitude / circle;
      if ratio > 1.0 then
        var mu_min := CarMinimumFriction;
        if ratio > 1.0 && ratio < 1.02 then
          FrictionCircle.LinerInterpolateBetween(ratio, 1.0, 1.02, 1.0, 1.02);
          FrictionCircle.LinerInterpolate(ratio, 1.0, 1.02, 1.0, 1.02)
        else if ratio > 1.02 && ratio < 1.06 then
          FrictionCircle.LinerInterpolateBetween(ratio, 1.02, 1.06, 1.02, mu_min);
          FrictionCircle.LinerInterpolate(ratio, 1.02, 1.06, 1.02, mu_min)
        else mu_min
      else
        1.0
  }

  /** With a positive circle the car's coefficient is exactly the tyre
      model's knee at the car's minimum: 1 up to the circle, the minimum at
      exactly 1.02 and from 1.06 on. */
  lemma CarMuIsKnee(magnitude: real, circle: real)
    requires magnitude >= 0.0 && circle > 0.0
    ensures CarMu(magnitude, circle) == FrictionCircle.MuKnee(magnitude / circle, CarMinimumFriction)
    ensures magnitude / circle == FrictionCircle.KneePeak ==> CarMu(magnitude, circle) == CarMinimumFriction
  {
  }

  /** `Tyre.accel`: a grounded tyre takes the requested drive power, an
      airborne one gets none. */
  function TyreAccel(spring: CarSpring, pow: real): (r: real)
    ensures IsOnGround(spring) ==> r == pow
    ensures !IsOnGround(spring) ==> r == 0.0
  {
    if IsOnGround(spring) then pow else 0.0
  }

  /** Right after a spring update a tyre takes drive power exactly when
      its ray hit the ground within the spring's reach. */
  lemma AccelNeedsContact(s: CarSpring, hit: Option<RayHit>, axisSpeed: real, pow: real)
    ensures TyreAccel(SpringUpdate(s, hit, axisSpeed).spring, pow)
         == (if hit.Some? && hit.value.distance < s.maxLength then pow else 0.0)
  {
    OnGroundIffHit(s, hit, axisSpeed);
  }

  // ---------------------------------------------------------------------
  // Steering

  const HandleMax: real := 30.0

  /** How fast the wheel turns per frame: 0.5, plus up to one more the
      slower the car is below 40 km/h. */
  function HandleSpeed(carSpeed: real): (r: real)
    ensures carSpeed >= 0.0 ==> 0.5 <= r <= 1.5
    ensures carSpeed >= 40.0 ==> r == 0.5
  {
    if carSpeed < 40.0 then 0.5 + (40.0 - carSpeed) / 40.0 else 0.5
  }

  /** The steering step of `FixedUpdate`.  Left (arrow, A or the axis below
      -0.5) turns left by the handle speed up to the limit, and an analogue
      axis backs off by 1.1 steps while beyond the angle its deflection asks
      for; right is the mirror image; with no input the angle decays by 5%. */
  function HandleStep(handle: real, leftKey: bool, rightKey: bool, axis: real, carSpeed: real): (r: real)
    ensures !(leftKey || axis < -0.5) && !(rightKey || axis > 0.5) ==> r == handle * 0.95
    ensures leftKey && -0.5 <= axis ==> r == Max(handle - HandleSpeed(carSpeed), -HandleMax)
    ensures axis < -0.5 ==>
      var limited := Max(handle - HandleSpeed(carSpeed), -HandleMax);
      r == (if limited < -HandleMax * ((-axis - 0.5) * 2.0) then limited + HandleSpeed(carSpeed) * 1.1 else limited)
    ensures !(leftKey || axis < -0.5) && rightKey && axis <= 0.5 ==> r == Min(handle + HandleSpeed(carSpeed), HandleMax)
    ensures !(leftKey || axis < -0.5) && axis > 0.5 ==>
      var limited := Min(handle + HandleSpeed(carSpeed), HandleMax);
      r == (if limited > HandleMax * ((axis - 0.5) * 2.0) then limited - HandleSpeed(carSpeed) * 1.1 else limited)
  {
    var spd := HandleSpeed(carSpeed);
    var ratio := (Abs(axis) - 0.5) * 2.0;
    if leftKey || axis < -0.5 then
      var turned := handle - spd;
      var limited := if turned < -HandleMax then -HandleMax else turned;
      if axis < -0.5 && limited < -HandleMax * ratio then limited + spd * 1.1 else limited
    else if rightKey || axis > 0.5 then
      var turned := handle + spd;
      var limited := if turned > HandleMax then HandleMax else turned;
      if axis > 0.5 && limited > HandleMax * ratio then limited - spd * 1.1 else limited
    else
      handle * 0.95
  }

  /** For an axis in [-1, 1] and a non-negative speed the steering angle
      never leaves [-30, 30]. */
  lemma {:induction false} HandleStepBounded(handle: real, leftKey: bool, rightKey: bool, axis: real, carSpeed: real)
    requires Abs(handle) <= HandleMax && Abs(axis) <= 1.0 && carSpeed >= 0.0
    ensures Abs(HandleStep(handle, leftKey, rightKey, axis, carSpeed)) <= HandleMax
  {
    var ratio := (Abs(axis) - 0.5) * 2.0;
    if Abs(axis) > 0.5 {
      assert 0.0 < ratio <= 1.0;
      MulMono(HandleMax, ratio, 1.0);
      MulMono(HandleMax, 0.0, ratio);
    }
  }

  /** A key alone (the axis within its dead band) turns the wheel its way:
      left never raises the angle and right never lowers it, each by at most
      one steering step, and the angle moves by a full step unless it hits
      the 30-degree stop. */
  lemma KeysSteer(handle: real, axis: real, carSpeed: real)
    requires Abs(handle) <= HandleMax && -0.5 <= axis <= 0.5 && carSpeed >= 0.0
    ensures var r := HandleStep(handle, true, false, axis, carSpeed);
      -HandleMax <= r <= handle && (r == -HandleMax || r == handle - HandleSpeed(carSpeed))
    ensures var r := HandleStep(handle, false, true, axis, carSpeed);
      handle <= r <= HandleMax && (r == HandleMax || r == handle + HandleSpeed(carSpeed))
  {
  }

  /** With no steering input the angle shrinks toward zero without crossing
      it. */
  lemma HandleReturnsToCentre(handle: real, axis: real, carSpeed: real)
    requires -0.5 <= axis <= 0.5
    ensures var r := HandleStep(handle, false, false, axis, carSpeed);
      Abs(r) <= Abs(handle) && (handle >= 0.0 ==> r >= 0.0) && (handle <= 0.0 ==> r <= 0.0)
  {
  }

  // ---------------------------------------------------------------------
  // Drive power

  /** Which pedal the keyboard presses: the accelerator wins over the
      brake. */
  datatype Pedal = Accelerate | Brake | Coast

  function PedalOf(accKey: bool, brkKey: bool): Pedal
  {
    if accKey then Accelerate else if brkKey then Brake else Coast
  }

  /** The power the pedal asks for: 3 plus extra below 30 km/h when
      accelerating, -6 minus extra below 30 km/h when braking, 0 when
      coasting. */
  function PedalPower(p: Pedal, carSpeed: real): (r: real)
    ensures p == Accelerate ==> r >= 3.0
    ensures p == Brake ==> r <= -6.0
    ensures p == Coast ==> r == 0.0
    ensures carSpeed >= 30.0 ==> r == (match p case Accelerate => 3.0 case Brake => -6.0 case Coast => 0.0)
  {
    match p
    case Accelerate => if carSpeed < 30.0 then 3.0 + (30.0 - carSpeed) * 0.3 else 3.0
    case Brake => if carSpeed < 30.0 then -6.0 - (30.0 - carSpeed) * 0.3 else -6.0
    case Coast => 0.0
  }

  /** The per-wheel drive commands of one frame, front left, front right,
      rear left, rear right, or `None` when the wheels are not told anything
      (a pedal pressed during the start wait).  Each command is the car's
      power from before this frame's update. */
  function WheelCommands(p: Pedal, startWait: real, carPow: real): (r: Option<seq<real>>)
    ensures r.Some? ==> |r.value| == 4
    ensures r.None? <==> p != Coast && startWait > 0.0
    ensures p == Coast ==> r == Some([0.0, 0.0, 0.0, 0.0])
    ensures p == Accelerate && r.Some? ==> r.value[0] == 0.0 && r.value[1] == 0.0 && r.value[2] == carPow && r.value[3] == carPow
    ensures p == Brake && r.Some? ==> r.value[0] == carPow && r.value[1] == carPow && r.value[2] == 0.0 && r.value[3] == 0.0
  {
    match p
    case Accelerate => if startWait <= 0.0 then Some([0.0, 0.0, carPow, carPow]) else None
    case Brake => if startWait <= 0.0 then Some([carPow, carPow, 0.0, 0.0]) else None
    case Coast => Some([0.0, 0.0, 0.0, 0.0])
  }

  /** The car's drive power after a frame: 1% of the way to the pedal power
      (times the multiplier), and a negative power decays by 10% more unless
      the brake is held. */
  function DrivePowerStep(carPow: real, p: Pedal, carSpeed: real, accMul: real): (r: real)
    ensures p == Brake ==> r == Offset(carPow, PedalPower(p, carSpeed) * accMul - carPow, 0.01)
    ensures var lagged := Offset(carPow, PedalPower(p, carSpeed) * accMul - carPow, 0.01);
      p != Brake && lagged >= 0.0 ==> r == lagged
    ensures var lagged := Offset(carPow, PedalPower(p, carSpeed) * accMul - carPow, 0.01);
      p != Brake && lagged < 0.0 ==> r == lagged * 0.9
    ensures p != Brake && accMul >= 0.0 ==> r >= Min(carPow, 0.0)
    ensures p != Brake && carPow >= 0.0 && accMul >= 0.0 ==> r >= 0.0
  {
    var target := PedalPower(p, carSpeed) * accMul;
    var lagged := Offset(carPow, target - carPow, 0.01);
    OffsetBetween(carPow, target - carPow, 0.01);
    assert p != Brake && accMul >= 0.0 ==> target >= 0.0 by {
      if p != Brake && accMul >= 0.0 { NonNegativeProduct(PedalPower(p, carSpeed), accMul); }
    }
    if p != Brake && lagged < 0.0 then lagged * 0.9 else lagged
  }

  /** Coasting, the power relaxes geometrically toward zero: a positive
      power keeps 99% per frame, a negative one 99% and then 90% of that,
      so it never changes sign. */
  lemma CoastDecays(carPow: real, carSpeed: real, accMul: real)
    ensures carPow >= 0.0 ==> DrivePowerStep(carPow, Coast, carSpeed, accMul) == carPow * 0.99
    ensures carPow < 0.0 ==> DrivePowerStep(carPow, Coast, carSpeed, accMul) == carPow * 0.891
  {
  }

  /** With the accelerator held and a non-negative multiplier, a power that
      is not negative and below the pedal's target moves toward it without
      overshooting; one above the target falls toward it without
      undershooting. */
  lemma {:induction false} AcceleratorApproaches(carPow: real, carSpeed: real, accMul: real)
    requires accMul >= 0.0 && carPow >= 0.0
    ensures var target := PedalPower(Accelerate, carSpeed) * accMul;
      var r := DrivePowerStep(carPow, Accelerate, carSpeed, accMul);
      (carPow <= target ==> carPow <= r <= target) && (target <= carPow ==> target <= r <= carPow)
  {
    var target := PedalPower(Accelerate, carSpeed) * accMul;
    NonNegativeProduct(PedalPower(Accelerate, carSpeed), accMul);
    OffsetBetween(carPow, target - carPow, 0.01);
  }

  // ---------------------------------------------------------------------
  // Race clock and lap display

  /** The race clock runs between the start line and the goal. */
  function ClockStep(time: real, isStart: bool, isGoal: bool, dt: real): (r: real)
    ensures isStart && !isGoal ==> r == time + dt
    ensures !isStart || isGoal ==> r == time
  {
    if isStart && !isGoal then time + dt else time
  }

  /** The start wait counts down while positive. */
  function StartWaitStep(timer: real, dt: real): (r: real)
    ensures timer > 0.0 ==> r == timer - dt
    ensures timer <= 0.0 ==> r == timer
  {
    if timer > 0.0 then timer - dt else timer
  }

  /** `getTimeText` without the formatting: whole minutes by integer
      division of the truncated time, and the seconds left over. */
  function TimeSplit(time: real): (r: (int, real))
    ensures (r.0 as real) * 60.0 + r.1 == time
    ensures time >= 0.0 ==> r.0 >= 0 && 0.0 <= r.1 < 60.0
    ensures time <= 0.0 ==> r.0 <= 0 && -60.0 < r.1 <= 0.0
  {
    var whole := Trunc(time);
    var min := TruncDiv(whole, 60);
    (min, time - (min * 60) as real)
  }

  // ---------------------------------------------------------------------
  // Checkpoint gates

  const GateCount: int := 5

  /** The gate tag expected next after `checkNum` gates: Gate1 to Gate5
      uphill, Gate5 down to Gate1 downhill. */
  function ExpectedGate(downHill: bool, checkNum: int): (r: string)
    requires 0 <= checkNum < GateCount
    ensures |r| == 5 && r[..4] == "Gate"
    ensures !downHill ==> r[4] as int - '0' as int == checkNum + 1
    ensures downHill ==> r[4] as int - '0' as int == GateCount - checkNum
  {
    var uphill := ["Gate1", "Gate2", "Gate3", "Gate4", "Gate5"];
    if downHill then uphill[GateCount - 1 - checkNum] else uphill[checkNum]
  }

  datatype RaceState = RaceState(isStart: bool, isGoal: bool, time: real, checkNum: int, gateTimes: seq<real>)

  predicate ValidRace(s: RaceState)
  {
    0 <= s.checkNum <= GateCount && |s.gateTimes| == GateCount
  }

  const InitialRace: RaceState := RaceState(false, false, 0.0, 0, [0.0, 0.0, 0.0, 0.0, 0.0])

  /** A fresh car has not started, has passed no gate, shows a zero clock
      and has a zeroed time for every gate. */
  lemma InitialRaceValid()
    ensures ValidRace(InitialRace)
    ensures !InitialRace.isStart && !InitialRace.isGoal && InitialRace.time == 0.0 && InitialRace.checkNum == 0
    ensures forall i :: 0 <= i < GateCount ==> InitialRace.gateTimes[i] == 0.0
  {
  }

  /** `OnTriggerEnter`.  After the goal nothing changes.  Otherwise the
      start flag is raised by the start line of the direction, the goal flag
      by its finish line, and the next gate of the direction records the
      race time and advances the gate counter by one. */
  function OnTriggerEnter(s: RaceState, downHill: bool, tag: string): (r: RaceState)
    requires ValidRace(s)
    ensures ValidRace(r)
    ensures s.isGoal ==> r == s
    ensures r.checkNum == s.checkNum || r.checkNum == s.checkNum + 1
    ensures r.checkNum == s.checkNum + 1 <==>
      !s.isGoal && s.checkNum < GateCount && tag == ExpectedGate(downHill, s.checkNum)
    ensures r.checkNum == s.checkNum + 1 ==> r.gateTimes == s.gateTimes[s.checkNum := s.time]
    ensures r.checkNum == s.checkNum ==> r.gateTimes == s.gateTimes
    ensures !s.isGoal ==> r.isStart == (s.isStart || tag == (if downHill then "Goal" else "Start"))
    ensures !s.isGoal ==> r.isGoal == (tag == (if downHill then "Start" else "Goal"))
    ensures r.time == s.time
  {
    if s.isGoal then s
    else
      var isStart := s.isStart || (downHill && tag == "Goal") || (!downHill && tag == "Start");
      var isGoal := (downHill && tag == "Start") || (!downHill && tag == "Goal");
      if s.checkNum < GateCount && tag == ExpectedGate(downHill, s.checkNum) then
        RaceState(isStart, isGoal, s.time, s.checkNum + 1, s.gateTimes[s.checkNum := s.time])
      else
        RaceState(isStart, isGoal, s.time, s.checkNum, s.gateTimes)
  }

  /** Trigger events in order: the counter never exceeds the number of
      gates and never goes back, and every recorded gate time is a time the
      clock actually showed. */
  function TriggerRun(s: RaceState, downHill: bool, tags: seq<string>): (r: RaceState)
    requires ValidRace(s)
    ensures ValidRace(r)
    ensures s.checkNum <= r.checkNum
    ensures forall i :: 0 <= i < s.checkNum ==> r.gateTimes[i] == s.gateTimes[i]
    ensures r.time == s.time
    ensures s.isGoal ==> r == s
    ensures s.isStart ==> r.isStart
    ensures forall i :: s.checkNum <= i < r.checkNum ==> r.gateTimes[i] == s.time
    decreases |tags|
  {
    if |tags| == 0 then s else TriggerRun(OnTriggerEnter(s, downHill, tags[0]), downHill, tags[1..])
  }

  // ---------------------------------------------------------------------
  // Safe respawn

  datatype Pose = Pose(position: Vec3, rotation: Vec3)

  datatype RespawnState = RespawnState(noSafeTimer: real, lastSafe: Pose)

  /** How many of the wheels touch the ground, counted as the source's loop
      does. */
  method CountGrounded(grounded: seq<bool>) returns (n: int)
    ensures 0 <= n <= |grounded|
    ensures n == |grounded| <==> forall i :: 0 <= i < |grounded| ==> grounded[i]
  {
    n := 0;
    var i := 0;
    while i < |grounded|
      invariant 0 <= i <= |grounded|
      invariant 0 <= n <= i
      invariant n == i <==> forall j :: 0 <= j < i ==> grounded[j]
    {
      if grounded[i] { n := n + 1; }
      i := i + 1;
    }
  }

  /** All wheels down. */
  predicate AllGrounded(grounded: seq<bool>)
  {
    forall i :: 0 <= i < |grounded| ==> grounded[i]
  }

  datatype RespawnResult = RespawnResult(state: RespawnState, pose: Pose)

  /** The safe-respawn block.  With all four wheels down the timer is
      cleared and the pose remembered; otherwise the timer runs, and once it
      passes four seconds it is cleared and the car is put back at the
      remembered pose. */
  function RespawnStep(s: RespawnState, grounded: seq<bool>, pose: Pose, dt: real): (r: RespawnResult)
    requires |grounded| == 4
    ensures r.state.noSafeTimer <= 4.0
    ensures AllGrounded(grounded) ==> r.state.noSafeTimer == 0.0 && r.state.lastSafe == pose && r.pose == pose
    ensures !AllGrounded(grounded) ==> r.state.lastSafe == s.lastSafe
    ensures !AllGrounded(grounded) && s.noSafeTimer + dt > 4.0 ==> r.pose == s.lastSafe && r.state.noSafeTimer == 0.0
    ensures !AllGrounded(grounded) && s.noSafeTimer + dt <= 4.0 ==> r.pose == pose && r.state.noSafeTimer == s.noSafeTimer + dt
  {
    if AllGrounded(grounded) then RespawnResult(RespawnState(0.0, pose), pose)
    else
      var timer := s.noSafeTimer + dt;
      if timer > 4.0 then RespawnResult(RespawnState(0.0, s.lastSafe), s.lastSafe)
      else RespawnResult(s.(noSafeTimer := timer), pose)
  }

  /** With non-negative frame times the timer stays in [0, 4]. */
  lemma RespawnTimerBounded(s: RespawnState, grounded: seq<bool>, pose: Pose, dt: real)
    requires |grounded| == 4 && s.noSafeTimer >= 0.0 && dt >= 0.0
    ensures 0.0 <= RespawnStep(s, grounded, pose, dt).state.noSafeTimer <= 4.0
  {
  }
}

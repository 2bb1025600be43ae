/** One raycast suspension wheel (`TyreSpring`): each physics tick casts a
    ray down from the wheel's base, turns the hit distance into a spring
    length, derives spring, damper and normal force from it, asks the
    friction model for a tyre force when the wheel carries load, and resets
    the forces once the wheel is airborne. */
module Suspension {
  import opened UnityMath
  import opened Vectors
  import opened Optional

  /** The tunable parameters of one wheel. */
  datatype SpringConfig = SpringConfig(
    springConstant: real,
    damperConstant: real,
    restLength: real,
    maxLength: real,
    tyreRadius: real,
    isDriveWheel: bool,
    driveInput: real)

  /** What the ground raycast reports: distance from the wheel base to the
      contact point, and the surface normal there. */
  datatype Hit = Hit(distance: real, normal: Vec3)

  datatype WheelState = WheelState(
    grounded: bool,
    currentLength: real,
    lastLength: real,
    springForce: Vec3,
    damperForce: Vec3,
    totalForce: Vec3,
    normalForce: real,
    groundNormal: Vec3,
    groundedTime: real)

  /** The spring's push along its axis: stiffness times compression below
      the rest length. */
  function SpringPush(cfg: SpringConfig, length: real): real
  {
    cfg.springConstant * (cfg.restLength - length)
  }

  /** The damper's push along its axis: damping times the rate at which the
      spring shortened over the tick. */
  function DamperPush(cfg: SpringConfig, last: real, current: real, dt: real): real
    requires dt > 0.0
  {
    cfg.damperConstant * ((last - current) / dt)
  }

  /** `CalculateSpringForce`.  A hit clamps the spring length into
      [0, maxLength], stacks spring and damper force along `springDir`,
      keeps the non-negative part of their projection as the normal force
      and remembers the length for the next tick's damper.  A miss extends
      the spring fully and drops the load, leaving the force vectors as
      they were. */
  function CalculateSpringForce(cfg: SpringConfig, s: WheelState, hit: Option<Hit>, springDir: Vec3, dt: real): (r: WheelState)
    requires dt > 0.0
    ensures r.grounded == hit.Some?
    ensures r.normalForce >= 0.0
    ensures hit.Some? && cfg.maxLength >= 0.0 ==> 0.0 <= r.currentLength <= cfg.maxLength
    ensures hit.Some? ==> r.lastLength == r.currentLength && r.groundNormal == hit.value.normal
    ensures hit.Some? ==> r.groundedTime == s.groundedTime + dt
    ensures hit.Some? ==>
      var current := Clamp(hit.value.distance - cfg.tyreRadius, 0.0, cfg.maxLength);
      r.currentLength == current &&
      r.springForce == Scale(springDir, SpringPush(cfg, current)) &&
      r.damperForce == Scale(springDir, DamperPush(cfg, s.lastLength, current, dt)) &&
      r.totalForce == Add(r.springForce, r.damperForce) &&
      r.normalForce == Max(0.0, Dot(r.totalForce, springDir))
    ensures hit.None? ==> r.currentLength == cfg.maxLength && r.lastLength == cfg.maxLength && r.normalForce == 0.0
    ensures hit.None? ==> r.springForce == s.springForce && r.damperForce == s.damperForce && r.totalForce == s.totalForce
    ensures hit.None? ==> r.groundNormal == s.groundNormal && r.groundedTime == s.groundedTime
  {
    match hit
    case None =>
      s.(grounded := false, currentLength := cfg.maxLength, lastLength := cfg.maxLength, normalForce := 0.0)
    case Some(h) =>
      var current := Clamp(h.distance - cfg.tyreRadius, 0.0, cfg.maxLength);
      var spring := Scale(springDir, SpringPush(cfg, current));
      var damper := Scale(springDir, DamperPush(cfg, s.lastLength, current, dt));
      var total := Add(spring, damper);
      var projected := Dot(total, springDir);
      WheelState(
        grounded := true,
        currentLength := current,
        lastLength := current,
        springForce := spring,
        damperForce := damper,
        totalForce := total,
        normalForce := if projected < 0.0 then 0.0 else projected,
        groundNormal := h.normal,
        groundedTime := s.groundedTime + dt)
  }

  /** Projecting two pushes along the same axis back onto that axis. */
  lemma {:induction false} DotScaleSum(d: Vec3, a: real, b: real)
    requires IsUnit(d)
    ensures Dot(Add(Scale(d, a), Scale(d, b)), d) == a + b
  {
    calc {
      Dot(Add(Scale(d, a), Scale(d, b)), d);
      (a + b) * (d.x * d.x) + (a + b) * (d.y * d.y) + (a + b) * (d.z * d.z);
      (a + b) * Dot(d, d);
    }
  }

  /** With a unit spring axis the normal force is exactly the non-negative
      part of spring push plus damper push, the push taken at the clamped
      length and the damper at the length change over the tick. */
  lemma {:induction false} NormalForceFormula(cfg: SpringConfig, s: WheelState, h: Hit, springDir: Vec3, dt: real)
    requires dt > 0.0 && IsUnit(springDir)
    ensures var r := CalculateSpringForce(cfg, s, Some(h), springDir, dt);
      var current := Clamp(h.distance - cfg.tyreRadius, 0.0, cfg.maxLength);
      r.normalForce == Max(0.0, SpringPush(cfg, current) + DamperPush(cfg, s.lastLength, current, dt))
  {
    var current := Clamp(h.distance - cfg.tyreRadius, 0.0, cfg.maxLength);
    DotScaleSum(springDir, SpringPush(cfg, current), DamperPush(cfg, s.lastLength, current, dt));
  }

  /** At the same compression a stiffer spring pushes strictly harder. */
  lemma StifferPushesHarder(cfg1: SpringConfig, cfg2: SpringConfig, length: real)
    requires cfg1.restLength == cfg2.restLength && length < cfg1.restLength
    requires cfg1.springConstant < cfg2.springConstant
    ensures SpringPush(cfg1, length) < SpringPush(cfg2, length)
  {
    MulStrict(cfg1.restLength - length, cfg1.springConstant, cfg2.springConstant);
  }

  /** The ungrounded branch of `UpdateTyreVisual`.  With visuals disabled or
      no tyre model the call returns before touching anything; otherwise an
      airborne wheel is fully extended and all its forces and its grounded
      time are zeroed.  (Placing the visual model is not modelled.) */
  function UpdateTyreVisual(cfg: SpringConfig, s: WheelState, visualsEnabled: bool, hasTyreModel: bool): (r: WheelState)
    ensures !visualsEnabled || !hasTyreModel || s.grounded ==> r == s
    ensures visualsEnabled && hasTyreModel && !s.grounded ==>
      r.springForce == Zero && r.damperForce == Zero && r.totalForce == Zero &&
      r.normalForce == 0.0 && r.groundedTime == 0.0 && r.currentLength == cfg.maxLength
    ensures r.grounded == s.grounded && r.lastLength == s.lastLength && r.groundNormal == s.groundNormal
  {
    if !visualsEnabled || !hasTyreModel || s.grounded then s
    else s.(currentLength := cfg.maxLength, springForce := Zero, damperForce := Zero,
            totalForce := Zero, normalForce := 0.0, groundedTime := 0.0)
  }

  /** What the wheel hands to the friction model: its load and its
      acceleration input. */
  datatype FrictionRequest = FrictionRequest(normalForce: real, accelInput: real)

  /** The guard of `CalculateFrictionForce`: no request unless the wheel is
      grounded, loaded and has a friction model; a wheel that does not
      drive passes zero acceleration. */
  function FrictionCall(cfg: SpringConfig, s: WheelState, hasFrictionModel: bool): (r: Option<FrictionRequest>)
    ensures r.Some? <==> s.grounded && s.normalForce > 0.0 && hasFrictionModel
    ensures r.Some? ==> r.value.normalForce == s.normalForce
    ensures r.Some? ==> r.value.accelInput == (if cfg.isDriveWheel then cfg.driveInput else 0.0)
  {
    if !s.grounded || s.normalForce <= 0.0 || !hasFrictionModel then None
    else Some(FrictionRequest(s.normalForce, if cfg.isDriveWheel then cfg.driveInput else 0.0))
  }

  datatype TickResult = TickResult(state: WheelState, friction: Option<FrictionRequest>)

  /** `FixedUpdate`: the spring step, then friction when grounded and a
      model exists, then the visual update. */
  function FixedUpdate(cfg: SpringConfig, s: WheelState, hit: Option<Hit>, springDir: Vec3, dt: real,
                       hasFrictionModel: bool, visualsEnabled: bool, hasTyreModel: bool): (r: TickResult)
    requires dt > 0.0
    ensures r.friction.Some? ==> hit.Some? && hasFrictionModel && r.friction.value.normalForce > 0.0
    ensures r.friction.Some? && !cfg.isDriveWheel ==> r.friction.value.accelInput == 0.0
    ensures r.state.normalForce >= 0.0
    ensures hit.None? ==> r.friction == None && r.state.normalForce == 0.0 && r.state.currentLength == cfg.maxLength
    ensures hit.None? && visualsEnabled && hasTyreModel ==> r.state.totalForce == Zero && r.state.groundedTime == 0.0
  {
    var sprung := CalculateSpringForce(cfg, s, hit, springDir, dt);
    var friction := if sprung.grounded && hasFrictionModel then FrictionCall(cfg, sprung, hasFrictionModel) else None;
    TickResult(UpdateTyreVisual(cfg, sprung, visualsEnabled, hasTyreModel), friction)
  }

  /** `GetGroundNormal`: the last hit's normal while grounded, world up
      otherwise. */
  function GetGroundNormal(s: WheelState): (r: Vec3)
    ensures s.grounded ==> r == s.groundNormal
    ensures !s.grounded ==> r == Up
  {
    if s.grounded then s.groundNormal else Up
  }

  /** After a spring step the reported ground normal is the hit's normal,
      or world up after a miss. */
  lemma GroundNormalAfterStep(cfg: SpringConfig, s: WheelState, hit: Option<Hit>, springDir: Vec3, dt: real)
    requires dt > 0.0
    ensures GetGroundNormal(CalculateSpringForce(cfg, s, hit, springDir, dt)) == (if hit.Some? then hit.value.normal else Up)
  {
  }
}

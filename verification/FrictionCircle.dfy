/** The friction-circle tyre model: a cornering force that opposes lateral
    sliding, limited by a slip-angle dependent maximum, plus a drive force
    along the tyre's heading, the sum then scaled by a traction coefficient
    that collapses once the sum leaves the friction circle.

    Forces and velocities in the contact plane are written in the plane's
    own coordinates: `lon` along the (unit, in-plane) heading of the tyre and
    `lat` along the in-plane perpendicular to it.  The engine's square root,
    arc cosine and logistic function enter as the `Engine` parameter. */
module FrictionCircle {
  import opened UnityMath
  import opened Vectors

  /** Radius of the friction circle per unit of normal force. */
  const CircleRadiusFactor: real := 0.9
  /** Cornering force per unit of lateral sliding speed. */
  const CorneringStiffness: real := 60.0
  /** Cornering force at full slip. */
  const CorneringLimit: real := 3000.0
  /** Drive force per unit of acceleration input. */
  const DriveGain: real := 400.0
  /** The traction knee: rising up to `KneePeak`, falling to the minimum at
      `KneeEnd` (`p0`, `r0` and `p1` in the source). */
  const KneePeak: real := 1.02
  const KneeEnd: real := 1.06
  /** Default `MinimumFrictionCoefficient`. */
  const DefaultMinimumFriction: real := 0.16
  /** `Vector3.normalized` returns the zero vector at or below this length. */
  const NormalizeEpsilon: real := 0.00001

  /** A tangential vector in contact-plane coordinates. */
  datatype Planar = Planar(lon: real, lat: real)

  function PlanarScale(p: Planar, k: real): Planar
  {
    Planar(p.lon * k, p.lat * k)
  }

  /** Squared length, so that no square root is needed to state facts. */
  function Norm2(p: Planar): real
  {
    p.lon * p.lon + p.lat * p.lat
  }

  /** The transcendental functions the model calls but does not define. */
  datatype Engine = Engine(sigmoid: real -> real, acos: real -> real, sqrt: real -> real)

  /** One contact: normal load, the tyre's velocity resolved in the contact
      plane, the sign probe `Dot(Cross(v.normalized, up), heading)` that
      decides the sign of the slip angle, and the acceleration input. */
  datatype Contact = Contact(normalForce: real, velLon: real, velLat: real, signProbe: real, accelInput: real)

  /** The values the model keeps for display between calls. */
  datatype Telemetry = Telemetry(radius: real, slipAngle: real, coefficient: real)

  datatype Outcome = Outcome(force: Planar, telemetry: Telemetry)

  /** The source's `LinerInterpolate`: the straight line through
      (start, startVal) and (end, endVal), extrapolated outside the range. */
  function LinerInterpolate(now: real, start: real, end: real, startVal: real, endVal: real): (r: real)
    requires end != start
    ensures now == start ==> r == startVal
    ensures now == end ==> r == endVal
  {
    Offset(startVal, endVal - startVal, Fraction(now - start, end - start))
  }

  /** Between the two abscissae the line stays between the two values. */
  lemma {:induction false} LinerInterpolateBetween(now: real, start: real, end: real, startVal: real, endVal: real)
    requires start < end && start <= now <= end
    ensures startVal <= endVal ==> startVal <= LinerInterpolate(now, start, end, startVal, endVal) <= endVal
    ensures endVal <= startVal ==> endVal <= LinerInterpolate(now, start, end, startVal, endVal) <= startVal
  {
    OffsetBetween(startVal, endVal - startVal, Fraction(now - start, end - start));
  }

  /** The traction coefficient as a function of how far the force exceeds
      the circle.  The band tests are strict on both sides, so a ratio of
      exactly `KneePeak` falls through to the minimum. */
  function MuKnee(ratio: real, muMin: real): (mu: real)
    ensures ratio <= 1.0 ==> mu == 1.0
    ensures 1.0 < ratio < KneePeak ==> mu == ratio
    ensures ratio == KneePeak || ratio >= KneeEnd ==> mu == muMin
    ensures KneePeak < ratio < KneeEnd ==> mu == LinerInterpolate(ratio, KneePeak, KneeEnd, KneePeak, muMin)
  {
    if ratio > 1.0 then
      if ratio > 1.0 && ratio < KneePeak then LinerInterpolate(ratio, 1.0, KneePeak, 1.0, KneePeak)
      else if ratio > KneePeak && ratio < KneeEnd then LinerInterpolate(ratio, KneePeak, KneeEnd, KneePeak, muMin)
      else muMin
    else 1.0
  }

  /** With a minimum coefficient in [0, 1] the coefficient never leaves
      [minimum, KneePeak]; in particular it is never negative, so scaling by
      it never reverses the force. */
  lemma {:induction false} MuKneeBounds(ratio: real, muMin: real)
    requires 0.0 <= muMin <= 1.0
    ensures muMin <= MuKnee(ratio, muMin) <= KneePeak
  {
    if KneePeak < ratio < KneeEnd {
      LinerInterpolateBetween(ratio, KneePeak, KneeEnd, KneePeak, muMin);
    }
  }

  /** On the falling band a larger ratio never gives a larger coefficient. */
  lemma {:induction false} MuKneeFalling(r1: real, r2: real, muMin: real)
    requires KneePeak < r1 <= r2 < KneeEnd && muMin <= KneePeak
    ensures MuKnee(r2, muMin) <= MuKnee(r1, muMin)
  {
    var f1 := Fraction(r1 - KneePeak, KneeEnd - KneePeak);
    var f2 := Fraction(r2 - KneePeak, KneeEnd - KneePeak);
    assert f1 <= f2;
    OffsetAntitone(KneePeak, muMin - KneePeak, f1, f2);
  }

  /** Unity's `normalized` applied to the one non-zero component of a
      vector: its sign, or zero when the vector is too short. */
  function Direction(x: real): (r: real)
    ensures r == 1.0 || r == -1.0 || r == 0.0
    ensures r == 0.0 <==> Abs(x) <= NormalizeEpsilon
    ensures r * x >= 0.0
  {
    if Abs(x) > NormalizeEpsilon then (if x > 0.0 then 1.0 else -1.0) else 0.0
  }

  /** The cosine of the slip angle as the source computes it: the heading
      component of the normalized in-plane velocity, clamped to [-1, 1]. */
  function SlipCosine(c: Contact, e: Engine): (r: real)
    ensures -1.0 <= r <= 1.0
  {
    var speed := e.sqrt(c.velLon * c.velLon + c.velLat * c.velLat);
    var dot := if speed > NormalizeEpsilon then c.velLon / speed else 0.0;
    Clamp(dot, -1.0, 1.0)
  }

  /** The signed slip angle: the arc cosine of the slip cosine, negated
      when the sign probe is negative. */
  function SlipAngle(c: Contact, e: Engine): (r: real)
    ensures Abs(r) == Abs(e.acos(SlipCosine(c, e)))
    ensures c.signProbe < 0.0 ==> r == -e.acos(SlipCosine(c, e))
    ensures c.signProbe >= 0.0 ==> r == e.acos(SlipCosine(c, e))
  {
    var angle := e.acos(SlipCosine(c, e));
    if c.signProbe < 0.0 then -angle else angle
  }

  /** The largest cornering force allowed at a slip angle: the logistic
      curve of the slip in units of ten degrees, capped at one, times
      `CorneringLimit`. */
  function CorneringCap(slip: real, sigmoid: real -> real): (r: real)
    ensures r <= CorneringLimit
    ensures sigmoid(Abs(slip) / (10.0 * Deg2Rad)) >= 0.0 ==> r >= 0.0
  {
    var curve := sigmoid(Abs(slip) / (10.0 * Deg2Rad));
    (if curve > 1.0 then 1.0 else curve) * CorneringLimit
  }

  /** The cornering force: proportional to the lateral sliding speed and
      opposed to it, cut back to `cap` in the same direction when larger. */
  function CorneringForce(velLat: real, cap: real): (r: real)
    ensures cap >= 0.0 ==> Abs(r) <= cap
    ensures Abs(velLat * CorneringStiffness) <= cap ==> r == -velLat * CorneringStiffness
    ensures velLat >= 0.0 ==> r <= 0.0 || cap < 0.0
    ensures velLat <= 0.0 ==> r >= 0.0 || cap < 0.0
  {
    var raw := -velLat * CorneringStiffness;
    if Abs(raw) > cap then Direction(raw) * cap else raw
  }

  /** The drive force before the circle: along the heading, proportional to
      the acceleration input. */
  function DriveForce(accelInput: real): (r: real)
    ensures accelInput == 0.0 <==> r == 0.0
    ensures (accelInput > 0.0) == (r > 0.0)
  {
    accelInput * DriveGain
  }

  /** The same drive force in world coordinates: the heading scaled by the
      input, with its component along the contact normal removed. */
  function DriveForceWorld(heading: Vec3, normal: Vec3, accelInput: real): (r: Vec3)
    ensures IsUnit(normal) ==> Dot(r, normal) == 0.0
    ensures IsUnit(normal) ==> Reject(r, normal) == r
  {
    var raw := Scale(heading, accelInput * DriveGain);
    if IsUnit(normal) then RejectOrthogonal(raw, normal); RejectIdempotent(raw, normal); Reject(raw, normal)
    else Reject(raw, normal)
  }

  /** Cornering plus drive force, before the friction circle is applied. */
  function Unscaled(c: Contact, e: Engine): (r: Planar)
    ensures r.lon == DriveForce(c.accelInput)
    ensures r.lat == CorneringForce(c.velLat, CorneringCap(SlipAngle(c, e), e.sigmoid))
  {
    Planar(DriveForce(c.accelInput), CorneringForce(c.velLat, CorneringCap(SlipAngle(c, e), e.sigmoid)))
  }

  /** How far the unscaled force reaches relative to the circle's radius. */
  function Ratio(c: Contact, e: Engine): real
    requires c.normalForce > 0.0
  {
    e.sqrt(Norm2(Unscaled(c, e))) / (c.normalForce * CircleRadiusFactor)
  }

  /** `CalculateFrictionForce`.  Without load it returns zero and keeps the
      telemetry; with load it records the circle radius, the slip angle and
      the coefficient, and returns the unscaled force times exactly that
      coefficient. */
  function CalculateFrictionForce(muMin: real, t: Telemetry, c: Contact, e: Engine): (o: Outcome)
    ensures c.normalForce <= 0.0 ==> o == Outcome(Planar(0.0, 0.0), t)
    ensures c.normalForce > 0.0 ==> o.telemetry.radius == c.normalForce * CircleRadiusFactor
    ensures c.normalForce > 0.0 ==> o.telemetry.radius > 0.0
    ensures c.normalForce > 0.0 ==> o.telemetry.slipAngle == SlipAngle(c, e)
    ensures c.normalForce > 0.0 ==> o.telemetry.coefficient == MuKnee(Ratio(c, e), muMin)
    ensures c.normalForce > 0.0 ==> o.force == PlanarScale(Unscaled(c, e), o.telemetry.coefficient)
  {
    if c.normalForce <= 0.0 then Outcome(Planar(0.0, 0.0), t)
    else
      var radius := c.normalForce * CircleRadiusFactor;
      var f := Unscaled(c, e);
      var ratio := e.sqrt(Norm2(f)) / radius;
      var mu := if ratio > 1.0 then MuKnee(ratio, muMin) else 1.0;
      Outcome(PlanarScale(f, mu), Telemetry(radius, SlipAngle(c, e), mu))
  }

  /** Inside the circle the force passes through untouched with a recorded
      coefficient of one. */
  lemma InsideCircleUntouched(muMin: real, t: Telemetry, c: Contact, e: Engine)
    requires c.normalForce > 0.0 && Ratio(c, e) <= 1.0
    ensures CalculateFrictionForce(muMin, t, c, e).force == Unscaled(c, e)
    ensures CalculateFrictionForce(muMin, t, c, e).telemetry.coefficient == 1.0
  {
  }

  /** Scaling a force by a non-negative factor scales its length by the
      same factor. */
  lemma {:induction false} ScaledLength(f: Planar, m: real, k: real)
    requires m >= 0.0 && m * m == Norm2(f) && k >= 0.0
    ensures k * m >= 0.0
    ensures (k * m) * (k * m) == Norm2(PlanarScale(f, k))
  {
    calc {
      Norm2(PlanarScale(f, k));
      (f.lon * k) * (f.lon * k) + (f.lat * k) * (f.lat * k);
      k * k * (f.lon * f.lon + f.lat * f.lat);
      k * k * (m * m);
      (k * m) * (k * m);
    }
    MulMono(k, 0.0, m);
  }

  /** For a minimum coefficient in [0, 1], the returned force's length is
      the recorded coefficient times the unscaled force's length `m` (its
      non-negative square root), and that coefficient lies in
      [minimum, KneePeak]. */
  lemma {:induction false} ReturnedLength(muMin: real, t: Telemetry, c: Contact, e: Engine, m: real)
    requires c.normalForce > 0.0 && 0.0 <= muMin <= 1.0
    requires m >= 0.0 && m * m == Norm2(Unscaled(c, e))
    ensures var o := CalculateFrictionForce(muMin, t, c, e);
      var len := o.telemetry.coefficient * m;
      muMin <= o.telemetry.coefficient <= KneePeak && len >= 0.0 && len * len == Norm2(o.force)
  {
    MuKneeBounds(Ratio(c, e), muMin);
    OutcomeLength(CalculateFrictionForce(muMin, t, c, e), Unscaled(c, e), m, muMin);
  }

  /** An outcome whose force is a force of length `m` scaled by its
      non-negative recorded coefficient has length coefficient times `m`. */
  lemma OutcomeLength(o: Outcome, f: Planar, m: real, muMin: real)
    requires o.force == PlanarScale(f, o.telemetry.coefficient)
    requires 0.0 <= muMin <= o.telemetry.coefficient && m >= 0.0 && m * m == Norm2(f)
    ensures var len := o.telemetry.coefficient * m; len >= 0.0 && len * len == Norm2(o.force)
  {
    ScaledLength(f, m, o.telemetry.coefficient);
  }
}

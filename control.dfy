/**
  The stateless formulas of the aim controller: getAdvancedDragSensitivity
  (accuracy.js:98-113), the arithmetic of predictPosition,
  applyAdvancedRecoilCompensation, calculateLockConfidence and
  dragAndLockHead (accuracy.js:164-193), and advancedTriggerLock
  (accuracy.js:239-256). The AimLockUltimate class applies them to its fields.

  Distances `Math.sqrt(dx*dx + dy*dy + dz*dz)` between two vectors are
  `length(Subtract(a, b))` here, with the same abstract `length` as Vectors.
*/
module Control {
  import opened RealMath
  import opened RealFacts
  import opened Vectors
  import opened Profiles

  /** The default of getAdvancedDragSensitivity's baseSensitivity parameter. */
  const BaseSensitivity: real := 1.0
  /** The default of advancedTriggerLock's baseThreshold parameter. */
  const BaseThreshold: real := 0.003
  /** AimLockUltimate's predictionTime, in seconds. */
  const PredictionTime: real := 0.05
  /** AimLockUltimate's smoothingFactor. */
  const SmoothingFactor: real := 0.15

  /** Math.max(0.1, 1 - dist / maxRadius) */
  function DistanceFactor(dist: real, maxRadius: real): real
    requires maxRadius != 0.0
  {
    Max(0.1, 1.0 - dist / maxRadius)
  }

  /** getAdvancedDragSensitivity(currentAim, targetPos, velocity, profile, baseSensitivity) */
  function DragSensitivity(length: Vector3 -> real, currentAim: Vector3, targetPos: Vector3,
                           velocity: Vector3, profile: WeaponProfile, baseSensitivity: real): real
  {
    var dist := length(Subtract(currentAim, targetPos));
    var maxRadius := OrDefault(profile.lockRadius, 0.08);
    var distanceFactor := DistanceFactor(dist, maxRadius);
    var velocityFactor := 1.0 + length(velocity) * 0.5;
    var weaponSensitivity := OrDefault(profile.dragSensitivity, 2.0);
    baseSensitivity * weaponSensitivity * distanceFactor * velocityFactor
  }

  /**
    The distance factor lies in [0.1, 1], is 1 exactly on the target and
    bottoms out at 0.1 from 90% of the radius on.
  */
  lemma DistanceFactorBounds(dist: real, maxRadius: real)
    requires maxRadius > 0.0 && 0.0 <= dist
    ensures 0.1 <= DistanceFactor(dist, maxRadius) <= 1.0
    ensures dist == 0.0 ==> DistanceFactor(dist, maxRadius) == 1.0
    ensures dist >= 0.9 * maxRadius ==> DistanceFactor(dist, maxRadius) == 0.1
  {
    DivCompare(0.9 * maxRadius, dist, maxRadius);
    DivCancel(0.9, maxRadius);
  }

  /** The distance factor never grows with the distance. */
  lemma DistanceFactorMonotone(dist: real, dist': real, maxRadius: real)
    requires maxRadius > 0.0 && dist <= dist'
    ensures DistanceFactor(dist', maxRadius) <= DistanceFactor(dist, maxRadius)
  {
    DivCompare(dist, dist', maxRadius);
  }

  /** c * df * vf for c > 0, df in [0.1, 1] and vf >= 1 lies in [0.1 * c, c * vf]. */
  lemma ProductWithin(c: real, df: real, vf: real)
    requires c > 0.0 && 0.1 <= df <= 1.0 && vf >= 1.0
    ensures 0.1 * c <= c * df * vf <= c * vf
  {
    MulMonotone(0.1, df, c);
    MulMonotone(df, 1.0, c);
    MulMonotone(1.0, vf, c * df);
    MulMonotone(c * df, c, vf);
  }

  /**
    For a valid profile and a positive base sensitivity, the drag sensitivity
    is at least a tenth of base * dragSensitivity (the distance factor's floor)
    and at most base * dragSensitivity * (1 + |velocity| / 2).
  */
  lemma DragSensitivityBounds(length: Vector3 -> real, currentAim: Vector3, targetPos: Vector3,
                              velocity: Vector3, profile: WeaponProfile, baseSensitivity: real)
    requires IsLength(length) && ValidProfile(profile) && baseSensitivity > 0.0
    ensures 0.1 * (baseSensitivity * profile.dragSensitivity)
            <= DragSensitivity(length, currentAim, targetPos, velocity, profile, baseSensitivity)
            <= baseSensitivity * profile.dragSensitivity * (1.0 + length(velocity) * 0.5)
  {
    var dist := length(Subtract(currentAim, targetPos));
    assert OrDefault(profile.lockRadius, 0.08) == profile.lockRadius;
    assert OrDefault(profile.dragSensitivity, 2.0) == profile.dragSensitivity;
    DistanceFactorBounds(dist, profile.lockRadius);
    MulStrict(baseSensitivity, profile.dragSensitivity);
    var c := baseSensitivity * profile.dragSensitivity;
    var df := DistanceFactor(dist, profile.lockRadius);
    var vf := 1.0 + length(velocity) * 0.5;
    assert DragSensitivity(length, currentAim, targetPos, velocity, profile, baseSensitivity) == c * df * vf;
    ProductWithin(c, df, vf);
  }

  /** On the target and with a still target the drag sensitivity is exactly base * dragSensitivity. */
  lemma DragSensitivityOnTarget(length: Vector3 -> real, currentAim: Vector3, targetPos: Vector3,
                                velocity: Vector3, profile: WeaponProfile, baseSensitivity: real)
    requires ValidProfile(profile)
    requires length(Subtract(currentAim, targetPos)) == 0.0 && length(velocity) == 0.0
    ensures DragSensitivity(length, currentAim, targetPos, velocity, profile, baseSensitivity)
            == baseSensitivity * profile.dragSensitivity
  {
    DistanceFactorBounds(0.0, profile.lockRadius);
  }

  /** calculateLockConfidence's formula: Math.max(0, 1 - distance / maxDistance). */
  function Confidence(distance: real, maxDistance: real): real
    requires maxDistance != 0.0
  {
    Max(0.0, 1.0 - distance / maxDistance)
  }

  /** What calculateLockConfidence(currentAim, targetPos) computes for a profile. */
  function LockConfidence(length: Vector3 -> real, currentAim: Vector3, targetPos: Vector3,
                          profile: WeaponProfile): real
  {
    Confidence(length(Subtract(currentAim, targetPos)), OrDefault(profile.lockRadius, 0.08))
  }

  /**
    For a positive radius r and a distance d >= 0: the confidence lies in
    [0, 1], is 1 exactly when d = 0, 0 exactly when d >= r, and 1 - d / r in
    between.
  */
  lemma ConfidenceProperties(d: real, r: real)
    requires r > 0.0 && d >= 0.0
    ensures 0.0 <= Confidence(d, r) <= 1.0
    ensures Confidence(d, r) == 1.0 <==> d == 0.0
    ensures Confidence(d, r) == 0.0 <==> d >= r
    ensures d < r ==> Confidence(d, r) == 1.0 - d / r
  {
    DivCompare(d, r, r);
  }

  /** Inside the radius the confidence strictly falls as the distance grows. */
  lemma ConfidenceDecreasing(d: real, d': real, r: real)
    requires r > 0.0 && 0.0 <= d < d' < r
    ensures Confidence(d', r) < Confidence(d, r)
  {
    DivCompare(d, d', r);
    DivCompare(d', r, r);
  }

  /**
    For a valid profile, calculateLockConfidence yields a confidence in [0, 1]
    that is 1 exactly when the aim is on the target (at length 0) and 0
    exactly when it is at least lockRadius away.
  */
  lemma LockConfidenceProperties(length: Vector3 -> real, currentAim: Vector3, targetPos: Vector3,
                                 profile: WeaponProfile)
    requires IsLength(length) && ValidProfile(profile)
    ensures 0.0 <= LockConfidence(length, currentAim, targetPos, profile) <= 1.0
    ensures LockConfidence(length, currentAim, targetPos, profile) == 1.0
            <==> length(Subtract(currentAim, targetPos)) == 0.0
    ensures LockConfidence(length, currentAim, targetPos, profile) == 0.0
            <==> length(Subtract(currentAim, targetPos)) >= profile.lockRadius
  {
    ConfidenceProperties(length(Subtract(currentAim, targetPos)), profile.lockRadius);
  }

  /** predictPosition: filteredPos + velocity * t + acceleration * (0.5 * t * t) with t = predictionTime. */
  function Predict(filteredPos: Vector3, velocity: Vector3, acceleration: Vector3): Vector3 {
    Add(Add(filteredPos, Scale(velocity, PredictionTime)),
        Scale(acceleration, 0.5 * PredictionTime * PredictionTime))
  }

  /** A still target is predicted where it was filtered. */
  lemma PredictStill(p: Vector3)
    ensures Predict(p, Zero(), Zero()) == p
  {
    ZeroIdentities(p, PredictionTime);
    ZeroIdentities(p, 0.5 * PredictionTime * PredictionTime);
  }

  /** The prediction moves with the filtered position: shifting it by d shifts the prediction by d. */
  lemma PredictShift(p: Vector3, d: Vector3, velocity: Vector3, acceleration: Vector3)
    ensures Predict(Add(p, d), velocity, acceleration) == Add(Predict(p, velocity, acceleration), d)
  {
  }

  /**
    applyAdvancedRecoilCompensation's update: the previous offset times
    smoothing plus the measured offset times strength weighted by 1 - smoothing.
  */
  function RecoilStep(previous: Vector3, recoilOffset: Vector3, profile: WeaponProfile): Vector3 {
    var smoothing := OrDefault(profile.recoilSmooth, 0.9);
    var strength := OrDefault(profile.aimLockStrength, 1.0);
    var compensated := Scale(recoilOffset, strength);
    Add(Scale(previous, smoothing), Scale(compensated, 1.0 - smoothing))
  }

  /** One component of the recoil update: p * s + c * (1 - s) == c + (p - c) * s. */
  lemma BlendScalar(p: real, c: real, s: real)
    ensures p * s + c * (1.0 - s) == c + (p - c) * s
  {
  }

  /** p * s + c * (1 - s) with s in [0, 1] lies between p and c. */
  lemma BlendBetween(p: real, c: real, s: real)
    requires 0.0 <= s <= 1.0
    ensures Between(p, c, p * s + c * (1.0 - s))
  {
    BlendScalar(p, c, s);
    BetweenStep(c, p, s);
  }

  /** The componentwise blend p * s + c * (1 - s) with s in [0, 1] lies between p and c. */
  lemma BlendBetweenV(p: Vector3, c: Vector3, s: real)
    requires 0.0 <= s <= 1.0
    ensures BetweenV(p, c, Add(Scale(p, s), Scale(c, 1.0 - s)))
  {
    BlendBetween(p.x, c.x, s);
    BlendBetween(p.y, c.y, s);
    BlendBetween(p.z, c.z, s);
  }

  /** The recoil update relative to its target c = recoilOffset * strength. */
  lemma RecoilAsBlend(previous: Vector3, recoilOffset: Vector3, profile: WeaponProfile)
    ensures var s := OrDefault(profile.recoilSmooth, 0.9);
      var c := Scale(recoilOffset, OrDefault(profile.aimLockStrength, 1.0));
      RecoilStep(previous, recoilOffset, profile)
      == Vector3(c.x + (previous.x - c.x) * s, c.y + (previous.y - c.y) * s, c.z + (previous.z - c.z) * s)
  {
    var s := OrDefault(profile.recoilSmooth, 0.9);
    var c := Scale(recoilOffset, OrDefault(profile.aimLockStrength, 1.0));
    BlendScalar(previous.x, c.x, s);
    BlendScalar(previous.y, c.y, s);
    BlendScalar(previous.z, c.z, s);
  }

  /**
    The recoil offset is a low-pass filter towards c = recoilOffset * strength:
    the distance to c shrinks by the factor smoothing each step.
  */
  lemma RecoilContraction(previous: Vector3, recoilOffset: Vector3, profile: WeaponProfile)
    ensures var c := Scale(recoilOffset, OrDefault(profile.aimLockStrength, 1.0));
      Subtract(RecoilStep(previous, recoilOffset, profile), c)
      == Scale(Subtract(previous, c), OrDefault(profile.recoilSmooth, 0.9))
  {
    RecoilAsBlend(previous, recoilOffset, profile);
  }

  /** The compensated offset c = recoilOffset * strength is a fixed point of the recoil update. */
  lemma RecoilFixedPoint(previous: Vector3, recoilOffset: Vector3, profile: WeaponProfile)
    requires previous == Scale(recoilOffset, OrDefault(profile.aimLockStrength, 1.0))
    ensures RecoilStep(previous, recoilOffset, profile) == previous
  {
    RecoilAsBlend(previous, recoilOffset, profile);
  }

  /** For a valid profile each component of the new offset lies between the old one and c. */
  lemma RecoilBetween(previous: Vector3, recoilOffset: Vector3, profile: WeaponProfile)
    requires ValidProfile(profile)
    ensures BetweenV(previous, Scale(recoilOffset, profile.aimLockStrength),
                     RecoilStep(previous, recoilOffset, profile))
  {
    var s := profile.recoilSmooth;
    var c := Scale(recoilOffset, profile.aimLockStrength);
    assert OrDefault(profile.recoilSmooth, 0.9) == s;
    assert OrDefault(profile.aimLockStrength, 1.0) == profile.aimLockStrength;
    assert RecoilStep(previous, recoilOffset, profile) == Add(Scale(previous, s), Scale(c, 1.0 - s));
    BlendBetweenV(previous, c, s);
  }

  /** The gain dragAndLockHead moves the aim by: sensitivity * smoothingFactor. */
  function DragGain(length: Vector3 -> real, predictedPos: Vector3, currentAim: Vector3,
                    velocity: Vector3, profile: WeaponProfile): real
  {
    DragSensitivity(length, currentAim, predictedPos, velocity, profile, BaseSensitivity) * SmoothingFactor
  }

  /** dragAndLockHead's aim: one step towards predictedPos - recoilOffset, then scaled by accuracyBoost. */
  function DragAndLock(length: Vector3 -> real, predictedPos: Vector3, currentAim: Vector3,
                       velocity: Vector3, recoilOffset: Vector3, profile: WeaponProfile): Vector3
  {
    var targetDelta := Subtract(Subtract(predictedPos, recoilOffset), currentAim);
    var adjustedDelta := Scale(targetDelta, DragGain(length, predictedPos, currentAim, velocity, profile));
    var accuracyBoost := OrDefault(profile.accuracyBoost, 1.0);
    Scale(Add(currentAim, adjustedDelta), accuracyBoost)
  }

  /**
    The new aim is the interpolation from currentAim towards the goal
    predictedPos - recoilOffset with gain sensitivity * smoothingFactor,
    multiplied as a whole by accuracyBoost.
  */
  lemma DragAndLockLerp(length: Vector3 -> real, predictedPos: Vector3, currentAim: Vector3,
                        velocity: Vector3, recoilOffset: Vector3, profile: WeaponProfile)
    ensures DragAndLock(length, predictedPos, currentAim, velocity, recoilOffset, profile)
      == Scale(Lerp(currentAim, Subtract(predictedPos, recoilOffset),
                    DragGain(length, predictedPos, currentAim, velocity, profile)),
               OrDefault(profile.accuracyBoost, 1.0))
  {
    var k := DragGain(length, predictedPos, currentAim, velocity, profile);
    var goal := Subtract(predictedPos, recoilOffset);
    assert Add(currentAim, Scale(Subtract(goal, currentAim), k)) == Lerp(currentAim, goal, k);
  }

  /** For a valid profile the gain is at least 0.015 * dragSensitivity, so always positive. */
  lemma DragGainPositive(length: Vector3 -> real, predictedPos: Vector3, currentAim: Vector3,
                         velocity: Vector3, profile: WeaponProfile)
    requires IsLength(length) && ValidProfile(profile)
    ensures DragGain(length, predictedPos, currentAim, velocity, profile) >= 0.015 * profile.dragSensitivity > 0.0
  {
    DragSensitivityBounds(length, currentAim, predictedPos, velocity, profile, BaseSensitivity);
  }

  /** (a + (g - a) * k) * b == a * (b * (1 - k)) + g * (b * k) */
  lemma AffineScalar(a: real, g: real, k: real, b: real)
    ensures (a + (g - a) * k) * b == a * (b * (1.0 - k)) + g * (b * k)
  {
  }

  /**
    The drag-and-lock step is affine in the aim: the old aim is carried over
    with weight accuracyBoost * (1 - gain) and the goal enters with weight
    accuracyBoost * gain. The weights sum to accuracyBoost.
  */
  lemma DragAndLockAffine(length: Vector3 -> real, predictedPos: Vector3, currentAim: Vector3,
                          velocity: Vector3, recoilOffset: Vector3, profile: WeaponProfile)
    ensures var k := DragGain(length, predictedPos, currentAim, velocity, profile);
      var b := OrDefault(profile.accuracyBoost, 1.0);
      DragAndLock(length, predictedPos, currentAim, velocity, recoilOffset, profile)
      == Add(Scale(currentAim, b * (1.0 - k)), Scale(Subtract(predictedPos, recoilOffset), b * k))
  {
    var k := DragGain(length, predictedPos, currentAim, velocity, profile);
    var b := OrDefault(profile.accuracyBoost, 1.0);
    var g := Subtract(predictedPos, recoilOffset);
    DragAndLockLerp(length, predictedPos, currentAim, velocity, recoilOffset, profile);
    AffineScalar(currentAim.x, g.x, k, b);
    AffineScalar(currentAim.y, g.y, k, b);
    AffineScalar(currentAim.z, g.z, k, b);
  }

  /** An aim already on the goal predictedPos - recoilOffset is moved only by the boost. */
  lemma DragAndLockOnGoal(length: Vector3 -> real, predictedPos: Vector3, currentAim: Vector3,
                          velocity: Vector3, recoilOffset: Vector3, profile: WeaponProfile)
    requires currentAim == Subtract(predictedPos, recoilOffset)
    ensures DragAndLock(length, predictedPos, currentAim, velocity, recoilOffset, profile)
            == Scale(currentAim, OrDefault(profile.accuracyBoost, 1.0))
  {
  }

  /** Scaling g by m or by b gives the same vector exactly when m == b or g is the origin. */
  lemma ScaleEqual(g: Vector3, m: real, b: real)
    ensures Scale(g, m) == Scale(g, b) <==> m == b || g == Zero()
  {
    if Scale(g, m) == Scale(g, b) && m != b {
      assert g.x * (m - b) == 0.0 && g.y * (m - b) == 0.0 && g.z * (m - b) == 0.0;
      MulNonZeroFactor(g.x, m - b);
      MulNonZeroFactor(g.y, m - b);
      MulNonZeroFactor(g.z, m - b);
    }
  }

  lemma MulNonZeroFactor(a: real, c: real)
    requires c != 0.0 && a * c == 0.0
    ensures a == 0.0
  {
    if a != 0.0 {
      MulNonZero(a, c);
    }
  }

  /**
    The goal predictedPos - recoilOffset is a fixed point of the
    drag-and-lock step exactly when accuracyBoost is 1 or the goal is the
    origin.
  */
  lemma DragAndLockGoalFixed(length: Vector3 -> real, predictedPos: Vector3, velocity: Vector3,
                             recoilOffset: Vector3, profile: WeaponProfile)
    requires ValidProfile(profile)
    ensures var goal := Subtract(predictedPos, recoilOffset);
      DragAndLock(length, predictedPos, goal, velocity, recoilOffset, profile) == goal
      <==> profile.accuracyBoost == 1.0 || goal == Zero()
  {
    var goal := Subtract(predictedPos, recoilOffset);
    assert OrDefault(profile.accuracyBoost, 1.0) == profile.accuracyBoost;
    DragAndLockOnGoal(length, predictedPos, goal, velocity, recoilOffset, profile);
    ScaleEqual(goal, profile.accuracyBoost, 1.0);
    ZeroIdentities(goal, 1.0);
    assert Scale(goal, 1.0) == goal;
  }

  /** The object advancedTriggerLock returns. */
  datatype TriggerResult = TriggerResult(shouldFire: bool, distance: real, threshold: real, confidence: real)

  /** advancedTriggerLock(currentAim, targetPos, velocity, profile, baseThreshold) */
  function TriggerLock(length: Vector3 -> real, currentAim: Vector3, targetPos: Vector3,
                       velocity: Vector3, profile: WeaponProfile, baseThreshold: real): TriggerResult
    requires IsLength(length) && baseThreshold != 0.0
  {
    var dist := length(Subtract(currentAim, targetPos));
    var weaponThreshold := baseThreshold * OrDefault(profile.lockRadius, 1.0);
    var velocityAdjustment := 1.0 + length(velocity) * 0.1;
    var adjustedThreshold := weaponThreshold * velocityAdjustment;
    MulNonZero(baseThreshold, OrDefault(profile.lockRadius, 1.0));
    MulNonZero(weaponThreshold, velocityAdjustment);
    TriggerResult(dist <= adjustedThreshold, dist, adjustedThreshold,
                  Max(0.0, 1.0 - dist / adjustedThreshold))
  }

  /**
    For a valid profile and a positive base threshold, the threshold is
    baseThreshold * lockRadius widened by 10% per unit of target speed, so it
    is at least baseThreshold * lockRadius > 0; the distance is the aim's
    distance to the target.
  */
  lemma TriggerThreshold(length: Vector3 -> real, currentAim: Vector3, targetPos: Vector3,
                         velocity: Vector3, profile: WeaponProfile, baseThreshold: real)
    requires IsLength(length) && ValidProfile(profile) && baseThreshold > 0.0
    ensures TriggerLock(length, currentAim, targetPos, velocity, profile, baseThreshold).distance
            == length(Subtract(currentAim, targetPos))
    ensures TriggerLock(length, currentAim, targetPos, velocity, profile, baseThreshold).threshold
            == baseThreshold * profile.lockRadius * (1.0 + length(velocity) * 0.1)
    ensures TriggerLock(length, currentAim, targetPos, velocity, profile, baseThreshold).threshold
            >= baseThreshold * profile.lockRadius > 0.0
  {
    MulStrict(baseThreshold, profile.lockRadius);
    MulMonotone(1.0, 1.0 + length(velocity) * 0.1, baseThreshold * profile.lockRadius);
  }

  /**
    The trigger fires exactly when the distance is within the threshold; the
    confidence is the lock-confidence formula against that threshold, so it
    lies in [0, 1], is 0 whenever the trigger does not fire and 1 at
    distance 0.
  */
  lemma TriggerDecision(length: Vector3 -> real, currentAim: Vector3, targetPos: Vector3,
                        velocity: Vector3, profile: WeaponProfile, baseThreshold: real)
    requires IsLength(length) && ValidProfile(profile) && baseThreshold > 0.0
    ensures var t := TriggerLock(length, currentAim, targetPos, velocity, profile, baseThreshold);
      && (t.shouldFire <==> t.distance <= t.threshold)
      && t.confidence == Confidence(t.distance, t.threshold)
      && 0.0 <= t.confidence <= 1.0
      && (!t.shouldFire ==> t.confidence == 0.0)
      && (t.distance == 0.0 ==> t.shouldFire && t.confidence == 1.0)
  {
    TriggerThreshold(length, currentAim, targetPos, velocity, profile, baseThreshold);
    var t := TriggerLock(length, currentAim, targetPos, velocity, profile, baseThreshold);
    ConfidenceProperties(t.distance, t.threshold);
  }

  /**
    The demonstration loop calls the trigger with the default base threshold
    0.003: against a target at rest it fires exactly within 0.003 *
    lockRadius of the target, and a moving target never narrows that disc.
  */
  lemma TriggerAtDefault(length: Vector3 -> real, currentAim: Vector3, targetPos: Vector3,
                         velocity: Vector3, profile: WeaponProfile)
    requires IsLength(length) && ValidProfile(profile)
    ensures TriggerLock(length, currentAim, targetPos, velocity, profile, BaseThreshold).threshold
            >= 0.003 * profile.lockRadius
    ensures length(velocity) == 0.0 ==>
      (TriggerLock(length, currentAim, targetPos, velocity, profile, BaseThreshold).shouldFire
       <==> length(Subtract(currentAim, targetPos)) <= 0.003 * profile.lockRadius)
    ensures length(Subtract(currentAim, targetPos)) <= 0.003 * profile.lockRadius ==>
      TriggerLock(length, currentAim, targetPos, velocity, profile, BaseThreshold).shouldFire
  {
    TriggerThreshold(length, currentAim, targetPos, velocity, profile, BaseThreshold);
    TriggerDecision(length, currentAim, targetPos, velocity, profile, BaseThreshold);
  }
}

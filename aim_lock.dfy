/**
  AimLockUltimate (accuracy.js:116-236) and switchWeapon (accuracy.js:299-308).
  The object keeps its fields and updates them in place; every method is
  specified against the stateless formulas of Control, Motion, History and
  Kalman. Date.now() is a parameter of the methods that read the clock.
*/
module AimLock {
  import opened Wrappers
  import opened Vectors
  import opened Kalman
  import opened Profiles
  import opened Control
  import opened Motion
  import opened History

  /** The measurement and process noise each axis filter is built with. */
  const AxisR: real := 0.005
  const AxisQ: real := 0.000002

  class AimLockUltimate {
    /** Vector3.length(), see Vectors.IsLength. */
    const length: Vector3 -> real
    const profile: WeaponProfile
    const weapon: string
    const kalmanX: AdvancedKalmanFilter
    const kalmanY: AdvancedKalmanFilter
    const kalmanZ: AdvancedKalmanFilter

    var prevPos: Option<Vector3>
    var velocity: Vector3
    var acceleration: Vector3
    var recoilOffset: Vector3
    var lastUpdate: int
    var lockHistory: seq<Sample>
    var currentAim: Vector3
    var lockConfidence: real

    /** The fields updateEnemyPosition maintains, as one value. */
    function MotionOf(): MotionState
      reads this
    {
      MotionState(prevPos, velocity, acceleration, lastUpdate)
    }

    /**
      The object invariant: the profile is the one its weapon name resolves
      to, the three axis filters are distinct valid filters built with
      R = 0.005 and Q = 0.000002, the confidence is in [0, 1] and the history
      is well-formed.
    */
    ghost predicate Valid()
      reads this, kalmanX, kalmanY, kalmanZ
    {
      && IsLength(length)
      && profile == Resolve(weapon)
      && ValidProfile(profile)
      && kalmanX != kalmanY && kalmanX != kalmanZ && kalmanY != kalmanZ
      && kalmanX.Valid() && kalmanY.Valid() && kalmanZ.Valid()
      && kalmanX.R == AxisR && kalmanY.R == AxisR && kalmanZ.R == AxisR
      && kalmanX.Q == AxisQ && kalmanY.Q == AxisQ && kalmanZ.Q == AxisQ
      && 0.0 <= lockConfidence <= 1.0
      && WellFormed(lockHistory)
    }

    /**
      The state the constructor builds for weaponName at time now: the
      resolved profile, three unseeded axis filters, no previous position,
      zero velocity, acceleration, recoil offset and aim, zero confidence and
      an empty history.
    */
    ghost predicate Initial(weaponName: string, length: Vector3 -> real, now: int)
      reads this, kalmanX, kalmanY, kalmanZ
    {
      && this.length == length
      && weapon == weaponName
      && profile == Resolve(weaponName)
      && kalmanX.State() == Init(AxisR, AxisQ)
      && kalmanY.State() == Init(AxisR, AxisQ)
      && kalmanZ.State() == Init(AxisR, AxisQ)
      && MotionOf() == InitialMotion(now)
      && recoilOffset == Zero() && currentAim == Zero()
      && lockHistory == [] && lockConfidence == 0.0
    }

    /** new AimLockUltimate(currentWeapon), with Date.now() = now. */
    constructor (currentWeapon: string, length: Vector3 -> real, now: int)
      requires IsLength(length)
      ensures Valid()
      ensures fresh(kalmanX) && fresh(kalmanY) && fresh(kalmanZ)
      ensures Initial(currentWeapon, length, now)
    {
      ResolveValid(currentWeapon);
      this.length := length;
      profile := Resolve(currentWeapon);
      weapon := currentWeapon;
      kalmanX := new AdvancedKalmanFilter(AxisR, AxisQ);
      kalmanY := new AdvancedKalmanFilter(AxisR, AxisQ);
      kalmanZ := new AdvancedKalmanFilter(AxisR, AxisQ);
      prevPos := None;
      velocity := Zero();
      acceleration := Zero();
      recoilOffset := Zero();
      lastUpdate := now;
      lockHistory := [];
      currentAim := Zero();
      lockConfidence := 0.0;
    }

    /**
      updateEnemyPosition(rawPos) at time now: the motion estimate takes one
      MotionStep, each axis filter one Kalman step on its coordinate, and the
      result is the three filtered estimates.
    */
    method UpdateEnemyPosition(rawPos: Vector3, now: int) returns (filtered: Vector3)
      requires Valid()
      modifies this`prevPos, this`velocity, this`acceleration, this`lastUpdate, kalmanX, kalmanY, kalmanZ
      ensures Valid()
      ensures MotionOf() == MotionStep(old(MotionOf()), rawPos, now)
      ensures kalmanX.State() == Next(old(kalmanX.State()), rawPos.x)
      ensures kalmanY.State() == Next(old(kalmanY.State()), rawPos.y)
      ensures kalmanZ.State() == Next(old(kalmanZ.State()), rawPos.z)
      ensures kalmanX.estimate.Tracking? && kalmanY.estimate.Tracking? && kalmanZ.estimate.Tracking?
      ensures filtered == Vector3(kalmanX.estimate.x, kalmanY.estimate.x, kalmanZ.estimate.x)
    {
      var dt := ElapsedSeconds(lastUpdate, now);
      if prevPos.Some? && dt > 0.0 {
        var newVelocity := MeasuredVelocity(rawPos, prevPos.value, dt);
        var newAcceleration := MeasuredAcceleration(newVelocity, velocity, dt);
        velocity := Lerp(velocity, newVelocity, 0.3);
        acceleration := Lerp(acceleration, newAcceleration, 0.2);
      }
      prevPos := Some(rawPos);
      lastUpdate := now;

      var fx := kalmanX.AdaptiveFilter(rawPos.x);
      var fy := kalmanY.AdaptiveFilter(rawPos.y);
      var fz := kalmanZ.AdaptiveFilter(rawPos.z);
      filtered := Vector3(fx, fy, fz);
    }

    /** predictPosition(filteredPos), from the current velocity and acceleration. */
    function PredictPosition(filteredPos: Vector3): Vector3
      reads this
    {
      Predict(filteredPos, velocity, acceleration)
    }

    /** applyAdvancedRecoilCompensation(recoilOffset): one low-pass step of the stored offset. */
    method ApplyAdvancedRecoilCompensation(recoil: Vector3)
      requires Valid()
      modifies this`recoilOffset
      ensures Valid()
      ensures recoilOffset == RecoilStep(old(recoilOffset), recoil, profile)
    {
      var smoothing := OrDefault(profile.recoilSmooth, 0.9);
      var strength := OrDefault(profile.aimLockStrength, 1.0);
      var compensated := Scale(recoil, strength);
      recoilOffset := Add(Scale(recoilOffset, smoothing), Scale(compensated, 1.0 - smoothing));
    }

    /** calculateLockConfidence(currentAim, targetPos): stores and returns a confidence in [0, 1]. */
    method CalculateLockConfidence(aim: Vector3, targetPos: Vector3) returns (confidence: real)
      requires Valid()
      modifies this`lockConfidence
      ensures Valid()
      ensures confidence == lockConfidence == LockConfidence(length, aim, targetPos, profile)
      ensures 0.0 <= confidence <= 1.0
    {
      LockConfidenceProperties(length, aim, targetPos, profile);
      var distance := length(Subtract(aim, targetPos));
      var maxDistance := OrDefault(profile.lockRadius, 0.08);
      lockConfidence := Confidence(distance, maxDistance);
      confidence := lockConfidence;
    }

    /** dragAndLockHead(predictedPos, currentAim): stores and returns the new aim. */
    method DragAndLockHead(predictedPos: Vector3, aim: Vector3) returns (finalAim: Vector3)
      requires Valid()
      modifies this`currentAim
      ensures Valid()
      ensures finalAim == currentAim == DragAndLock(length, predictedPos, aim, velocity, recoilOffset, profile)
    {
      var sensitivity := DragSensitivity(length, aim, predictedPos, velocity, profile, BaseSensitivity);
      var targetDelta := Subtract(Subtract(predictedPos, recoilOffset), aim);
      var adjustedDelta := Scale(targetDelta, sensitivity * SmoothingFactor);
      var accuracyBoost := OrDefault(profile.accuracyBoost, 1.0);
      finalAim := Scale(Add(aim, adjustedDelta), accuracyBoost);
      currentAim := finalAim;
    }

    /**
      update(enemyHeadPos, recoilOffset, currentAim): the first Date.now()
      (inside updateEnemyPosition) is `now`, the one stamped on the history
      entry is `timestamp`. Filter, predict from the new velocity and
      acceleration, update the recoil offset, score the confidence against
      the prediction, drag the aim, and record the sample.
    */
    method Update(enemyHeadPos: Vector3, recoil: Vector3, aim: Vector3, now: int, timestamp: int)
      returns (newAim: Vector3)
      requires Valid()
      modifies this`currentAim, this`prevPos, this`velocity, this`acceleration, this`lastUpdate,
               this`recoilOffset, this`lockConfidence, this`lockHistory, kalmanX, kalmanY, kalmanZ
      ensures Valid()
      ensures MotionOf() == MotionStep(old(MotionOf()), enemyHeadPos, now)
      ensures kalmanX.State() == Next(old(kalmanX.State()), enemyHeadPos.x)
      ensures kalmanY.State() == Next(old(kalmanY.State()), enemyHeadPos.y)
      ensures kalmanZ.State() == Next(old(kalmanZ.State()), enemyHeadPos.z)
      ensures kalmanX.estimate.Tracking? && kalmanY.estimate.Tracking? && kalmanZ.estimate.Tracking?
      ensures recoilOffset == RecoilStep(old(recoilOffset), recoil, profile)
      ensures var predicted := Predict(Vector3(kalmanX.estimate.x, kalmanY.estimate.x, kalmanZ.estimate.x),
                                       velocity, acceleration);
        && lockConfidence == LockConfidence(length, aim, predicted, profile)
        && newAim == currentAim == DragAndLock(length, predicted, aim, velocity, recoilOffset, profile)
        && lockHistory == Record(old(lockHistory),
                                 Sample(timestamp, lockConfidence, length(Subtract(aim, predicted))))
      ensures lockHistory[|lockHistory| - 1].confidence == lockConfidence
      ensures |lockHistory| == if |old(lockHistory)| < MaxHistory then |old(lockHistory)| + 1 else MaxHistory
    {
      currentAim := aim;
      var filteredPos := UpdateEnemyPosition(enemyHeadPos, now);
      var predictedPos := PredictPosition(filteredPos);
      ApplyAdvancedRecoilCompensation(recoil);
      var _ := CalculateLockConfidence(aim, predictedPos);
      newAim := DragAndLockHead(predictedPos, aim);

      var sample := Sample(timestamp, lockConfidence, length(Subtract(aim, predictedPos)));
      RecordWellFormed(lockHistory, sample);
      RecordStep(lockHistory, sample);
      lockHistory := lockHistory + [sample];
      if |lockHistory| > MaxHistory {
        lockHistory := lockHistory[1..];
      }
    }

    /** getPerformanceStats() */
    function GetPerformanceStats(): Option<PerformanceStats>
      reads this
    {
      Stats(lockHistory, weapon)
    }

    /**
      For a valid object, getPerformanceStats is null exactly before the first
      update and otherwise reports a mean confidence in [0, 100] percent and a
      non-negative mean distance.
    */
    lemma PerformanceStatsBounds()
      requires Valid()
      ensures GetPerformanceStats().None? <==> lockHistory == []
      ensures GetPerformanceStats().Some? ==>
        && 0.0 <= GetPerformanceStats().value.avgConfidence <= 100.0
        && 0.0 <= GetPerformanceStats().value.avgDistance
        && GetPerformanceStats().value.weapon == weapon
    {
      StatsShape(lockHistory, weapon);
      if lockHistory != [] {
        StatsBounds(lockHistory, weapon);
      }
    }
  }

  /**
    switchWeapon(newWeapon): a fresh controller for a known weapon, and one
    for "DEFAULT" otherwise; either way it runs the profile newWeapon
    resolves to.
  */
  method SwitchWeapon(newWeapon: string, length: Vector3 -> real, now: int) returns (system: AimLockUltimate)
    requires IsLength(length)
    ensures fresh(system) && fresh(system.kalmanX) && fresh(system.kalmanY) && fresh(system.kalmanZ)
    ensures system.Valid() && system.Initial(SwitchKey(newWeapon), length, now)
    ensures system.profile == Resolve(newWeapon)
  {
    SwitchKeyResolves(newWeapon);
    if newWeapon in WeaponProfiles {
      system := new AimLockUltimate(newWeapon, length, now);
    } else {
      system := new AimLockUltimate(DefaultKey, length, now);
    }
  }
}

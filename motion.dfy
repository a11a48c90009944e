/**
  The motion estimate of updateEnemyPosition (accuracy.js:140-153): the last
  raw position, a smoothed velocity and acceleration, and the time of the last
  update. Date.now() is the parameter `now`, in milliseconds.
*/
module Motion {
  import opened Wrappers
  import opened RealMath
  import opened RealFacts
  import opened Vectors

  /** prevPos (null before the first update), velocity, acceleration, lastUpdate. */
  datatype MotionState = MotionState(
    prevPos: Option<Vector3>,
    velocity: Vector3,
    acceleration: Vector3,
    lastUpdate: int)

  /** The state the AimLockUltimate constructor builds at time now. */
  function InitialMotion(now: int): MotionState {
    MotionState(None, Zero(), Zero(), now)
  }

  /**
    Math.min((now - lastUpdate) / 1000, 0.1): the elapsed time in seconds,
    capped at 0.1 s; it is positive exactly when the clock has advanced.
  */
  function ElapsedSeconds(lastUpdate: int, now: int): (dt: real)
    ensures dt <= 0.1
    ensures dt > 0.0 <==> now > lastUpdate
    ensures now > lastUpdate && now - lastUpdate <= 100 ==> dt == (now - lastUpdate) as real / 1000.0
  {
    Min((now - lastUpdate) as real / 1000.0, 0.1)
  }

  /** The velocity measured from two positions dt seconds apart. */
  function MeasuredVelocity(rawPos: Vector3, prevPos: Vector3, dt: real): Vector3
    requires dt != 0.0
  {
    Scale(Subtract(rawPos, prevPos), 1.0 / dt)
  }

  /** The acceleration measured from two velocities dt seconds apart. */
  function MeasuredAcceleration(newVelocity: Vector3, velocity: Vector3, dt: real): Vector3
    requires dt != 0.0
  {
    Scale(Subtract(newVelocity, velocity), 1.0 / dt)
  }

  /**
    The state after updateEnemyPosition(rawPos) at time now: velocity and
    acceleration are blended towards the measured ones (weights 0.3 and 0.2)
    only when there is a previous position and time has passed; the previous
    position and the clock are always taken over.
  */
  function MotionStep(m: MotionState, rawPos: Vector3, now: int): MotionState {
    var dt := ElapsedSeconds(m.lastUpdate, now);
    if m.prevPos.Some? && dt > 0.0 then
      var newVelocity := MeasuredVelocity(rawPos, m.prevPos.value, dt);
      var newAcceleration := MeasuredAcceleration(newVelocity, m.velocity, dt);
      MotionState(Some(rawPos), Lerp(m.velocity, newVelocity, 0.3),
                  Lerp(m.acceleration, newAcceleration, 0.2), now)
    else
      MotionState(Some(rawPos), m.velocity, m.acceleration, now)
  }

  /**
    The guard of updateEnemyPosition: without a previous position, or when
    the clock has not advanced, velocity and acceleration are left alone; in
    every case the raw position and the time are recorded.
  */
  lemma MotionGuard(m: MotionState, rawPos: Vector3, now: int)
    ensures MotionStep(m, rawPos, now).prevPos == Some(rawPos)
    ensures MotionStep(m, rawPos, now).lastUpdate == now
    ensures m.prevPos.None? || now <= m.lastUpdate ==>
      MotionStep(m, rawPos, now).velocity == m.velocity &&
      MotionStep(m, rawPos, now).acceleration == m.acceleration
  {
  }

  /**
    When the guard passes, the new velocity lies between the old one and the
    measured one, and likewise the acceleration.
  */
  lemma MotionBlend(m: MotionState, rawPos: Vector3, now: int)
    requires m.prevPos.Some? && now > m.lastUpdate
    ensures var dt := ElapsedSeconds(m.lastUpdate, now);
      var newVelocity := MeasuredVelocity(rawPos, m.prevPos.value, dt);
      && BetweenV(m.velocity, newVelocity, MotionStep(m, rawPos, now).velocity)
      && BetweenV(m.acceleration, MeasuredAcceleration(newVelocity, m.velocity, dt),
                  MotionStep(m, rawPos, now).acceleration)
  {
    var dt := ElapsedSeconds(m.lastUpdate, now);
    var newVelocity := MeasuredVelocity(rawPos, m.prevPos.value, dt);
    LerpProperties(m.velocity, newVelocity, 0.3);
    LerpProperties(m.acceleration, MeasuredAcceleration(newVelocity, m.velocity, dt), 0.2);
  }

  lemma ScaleInverse(v: Vector3, dt: real)
    requires dt != 0.0
    ensures Scale(Scale(v, dt), 1.0 / dt) == v
  {
    assert dt * (1.0 / dt) == 1.0;
    assert v.x * dt * (1.0 / dt) == v.x * (dt * (1.0 / dt));
    assert v.y * dt * (1.0 / dt) == v.y * (dt * (1.0 / dt));
    assert v.z * dt * (1.0 / dt) == v.z * (dt * (1.0 / dt));
  }

  /**
    A target moving at exactly the estimated velocity keeps that velocity,
    and the acceleration estimate decays by the factor 0.8.
  */
  lemma MotionConstantVelocity(m: MotionState, rawPos: Vector3, now: int)
    requires m.prevPos.Some? && now > m.lastUpdate
    requires rawPos == Add(m.prevPos.value, Scale(m.velocity, ElapsedSeconds(m.lastUpdate, now)))
    ensures MotionStep(m, rawPos, now).velocity == m.velocity
    ensures MotionStep(m, rawPos, now).acceleration == Scale(m.acceleration, 0.8)
  {
    var dt := ElapsedSeconds(m.lastUpdate, now);
    assert Subtract(rawPos, m.prevPos.value) == Scale(m.velocity, dt);
    ScaleInverse(m.velocity, dt);
    assert MeasuredVelocity(rawPos, m.prevPos.value, dt) == m.velocity;
    assert Subtract(m.velocity, m.velocity) == Zero();
    ZeroIdentities(m.velocity, 1.0 / dt);
  }

  /** A target that has not moved since the last update damps the velocity estimate to 70%. */
  lemma MotionStationary(m: MotionState, now: int)
    requires m.prevPos.Some? && now > m.lastUpdate
    ensures MotionStep(m, m.prevPos.value, now).velocity == Scale(m.velocity, 0.7)
  {
    var dt := ElapsedSeconds(m.lastUpdate, now);
    assert Subtract(m.prevPos.value, m.prevPos.value) == Zero();
    ZeroIdentities(m.velocity, 1.0 / dt);
  }
}

# accuracy.js aim controller, modelled in Dafny

accuracy.js is a real-time tracking-and-pointing controller. Each tick it:

- filters a noisy 3D target position through one adaptive scalar Kalman filter per axis;
- estimates velocity and acceleration by finite differences with smoothing;
- extrapolates the position 50 ms ahead;
- low-passes a recoil disturbance;
- scores a lock confidence;
- moves the aim vector one "drag-and-lock" step towards the prediction;
- records the tick in a bounded history.

A separate gate, `advancedTriggerLock`, decides whether the aim is close enough to fire. Per-weapon tuning comes from a profile table. Unknown weapons fall back to `DEFAULT`. A mode/distance table rescales three of a profile's five fields.

The project mirrors that structure:

- `basics.dfy`: `Option`, plus `Abs`, `Min`, `Max` and a few facts about products and quotients of reals.
- `vector3.dfy`, module `Vectors`: the immutable `Vector3` value and its operations. `length()` is an abstract function `length: Vector3 -> real`. The model assumes only that it is never negative and is 0 at the zero vector (`IsLength`).
- `kalman.dfy`, module `Kalman`: `AdvancedKalmanFilter` as a class whose fields are updated in place. Its method is proved against the pure step function `Next` on a `FilterState` value. The `NaN` "not yet seeded" state is the `Uninitialised` case of `Estimate`. The window update at the start of `adaptiveFilter` (accuracy.js:37-41) is the separate method `AdaptProcessNoise`, which `AdaptiveFilter` calls first. The order of the field updates is the same.
- `profiles.dfy`, module `Profiles`:
  - the full weapon table as a `map`;
  - the `DEFAULT` fallback;
  - the key `switchWeapon` builds its controller with;
  - the mode and distance multipliers, and `detectOptimalSettingsForDistance`.
- `control.dfy`, module `Control`: the stateless formulas. These are drag sensitivity, lock confidence, prediction, the recoil low-pass, the drag-and-lock step and the trigger gate.
- `motion.dfy`, module `Motion`: the velocity/acceleration estimator of `updateEnemyPosition`.
- `history.dfy`, module `History`: the 100-entry lock history and `getPerformanceStats`.
- `aim_lock.dfy`, module `AimLock`: the `AimLockUltimate` class with its fields and methods, and `switchWeapon`.

How the model represents the source:

- **Numbers.** JS numbers are `real`.
- **The `||` defaults.** `x || d` on a number present in the profile is `OrDefault(x, d)`, which turns 0 into `d`. On a table lookup it is a membership test followed by `OrDefault`. For example:
  - `profile.lockRadius || 0.08`;
  - `modeMultipliers[gameMode] || 1.0`;
  - `WeaponProfiles[w] || WeaponProfiles["DEFAULT"]`. A profile object is always truthy, so this is just membership.
- **The clock.** `Date.now()` is an explicit integer parameter in milliseconds. `update` reads the clock twice: once inside `updateEnemyPosition` and once for the history timestamp. `AimLockUltimate.Update` therefore takes two times, `now` and `timestamp`, and assumes no relation between them.
- **The verified claim.** Every state-changing method states its whole new state in terms of the pure functions. The properties the source promises are proved about those functions as lemmas.

One might expect the steady-state aim to be about accuracyBoost × prediction. The model proves only what a single step does. The drag-and-lock step multiplies the whole new aim by `accuracyBoost`, not just the correction. `Control.DragAndLockAffine` shows the step is affine: the old aim keeps weight `accuracyBoost * (1 - gain)` and the goal `predictedPos - recoilOffset` gets weight `accuracyBoost * gain`. `Control.DragAndLockOnGoal` shows that an aim exactly on the goal is moved to `accuracyBoost * goal`. `Control.DragAndLockGoalFixed` shows that the goal is a fixed point of the step exactly when the boost is 1 or the goal is the origin. That fixed point is the goal, which differs from the predicted target position `predictedPos` whenever the recoil offset is non-zero. The model claims no steady state of the form "aim ≈ accuracyBoost × prediction".

## Model

| member | source | states |
|---|---|---|
| `Vectors.Add` | accuracy.js:4 | definition, no contract of its own; componentwise sum; `SubtractUndoesAdd` and `ZeroIdentities` state its properties |
| `Vectors.Subtract` | accuracy.js:5 | definition, no contract of its own; componentwise difference; `SubtractUndoesAdd` states it undoes `Add` |
| `Vectors.Scale` | accuracy.js:6 | definition, no contract of its own; multiplyScalar; `ZeroIdentities` states that it fixes the zero vector |
| `Vectors.Normalize` | accuracy.js:8-11 | definition, no contract of its own; the zero vector when the length is not positive, else scaling by 1/length; `NormalizeProperties` states both cases |
| `Vectors.Lerp` | accuracy.js:14-20 | definition, no contract of its own; componentwise a + (b - a)*t; `LerpProperties` states its endpoints and betweenness |
| `Vectors.NormalizeProperties` | accuracy.js:8-11 | normalize of a zero-length vector is the zero vector; otherwise it is the vector rescaled by the positive factor 1/length |
| `Vectors.LerpProperties` | accuracy.js:14-20 | lerp at t = 0 is the start and at t = 1 the end; for t in [0, 1] every component lies between the two ends |
| `Vectors.SubtractUndoesAdd` | accuracy.js:4-5 | subtract undoes add, in both orders |
| `Vectors.ZeroIdentities` | accuracy.js:3-6 | the zero vector (`new Vector3()`, `Vector3.zero()`) scales to itself and is neutral for add |
| `Kalman.SumAbs` | accuracy.js:38 | the sum of absolute innovations is never negative |
| `Kalman.AdaptedQAtLeastQ` | accuracy.js:37-41 | the process noise in force is never below Q |
| `Kalman.Next` | accuracy.js:36-57 | one filter step preserves the filter invariant: R > 0, Q >= 0, cov >= 0, at most 11 innovations, adaptiveQ >= Q and equal to Q until the window overflows, and no innovations while unseeded; afterwards the filter is tracking, with R and Q unchanged |
| `Kalman.GainBounds` | accuracy.js:48-54 | with predicted covariance p >= 0 and R > 0 the gain K = p/(p+R) is in [0, 1), and the new covariance p - K*p equals p*(1-K) and lies in [0, p] |
| `Kalman.SeedStep` | accuracy.js:43-45 | the first call sets x := z, cov := R, records no innovation and leaves adaptiveQ = Q |
| `Kalman.TrackingCovariance` | accuracy.js:47-55 | a tracking step has predicted covariance cov + adaptiveQ >= 0, gain K in [0, 1), and new covariance (cov + adaptiveQ)*(1-K) within [0, cov + adaptiveQ] |
| `Kalman.TrackingEstimate` | accuracy.js:47-54 | a tracking step puts the new estimate between the old one and z, and its distance to z shrinks by the factor 1-K |
| `Kalman.WindowStep` | accuracy.js:37-41 | a tracking step appends the innovation z - x; once there are more than 10 entries exactly the oldest is dropped and adaptiveQ becomes Q*(1 + 10*mean absolute innovation) >= Q, otherwise adaptiveQ stays Q |
| `Kalman.Run` | accuracy.js:36-57 | any sequence of observations keeps the filter invariant and leaves R and Q unchanged |
| `Kalman.RunFromInit` | accuracy.js:25-57 | from a new filter, n <= 12 observations leave n-1 innovations and the filter tracking, and adaptiveQ stays Q through the first 12 observations |
| `Kalman.FirstAdaptation` | accuracy.js:37-41 | the thirteenth observation is the first to adapt: adaptiveQ becomes Q*(1 + 10*mean absolute value of the eleven innovations of the first twelve), and the window stays at 11 |
| `Kalman.AdvancedKalmanFilter.constructor` | accuracy.js:25-34 | a new filter is unseeded, with adaptiveQ = Q and no innovations |
| `Kalman.AdvancedKalmanFilter.AdaptProcessNoise` | accuracy.js:37-41 | with more than 10 innovations held, adaptiveQ becomes Q*(1 + 10*mean absolute innovation) and the oldest innovation is dropped; otherwise both are unchanged |
| `Kalman.AdvancedKalmanFilter.AdaptiveFilter` | accuracy.js:36-57 | adaptiveFilter(z) makes exactly the step `Next` on the object's fields, keeps the invariant and returns the new estimate |
| `Profiles.Resolve` | accuracy.js:118 | definition, no contract of its own; the table entry for a known name, the DEFAULT entry otherwise; `ResolveValid` and `UnknownResolvesToDefault` state its properties |
| `Profiles.ModeMultiplier` | accuracy.js:312-325 | definition, no contract of its own; the mode table, 1.0 for an unknown mode; `ModeMultiplierRange` states its range |
| `Profiles.DistanceMultiplier` | accuracy.js:318-326 | definition, no contract of its own; the distance table, 1.0 for an unknown key; `DistanceMultiplierRange` states its range |
| `Profiles.Rescale` | accuracy.js:331-336 | definition, no contract of its own; the spread that multiplies three fields by t; `RescaleBounds` states its bounds |
| `Profiles.DetectOptimalSettings` | accuracy.js:310-337 | definition, no contract of its own; Rescale of the resolved profile by mode*distance; `DetectOptimalSettingsBounds` and `NeutralSettings` state its properties |
| `Profiles.ResolveValid` | accuracy.js:61-93 | every table entry, and so every profile a weapon name resolves to, has recoilSmooth in (0, 1) and positive other fields |
| `Profiles.UnknownResolvesToDefault` | accuracy.js:118 | an unknown weapon name resolves to exactly the DEFAULT profile (0.94, 2.0, 1.3, 1.7, 0.08) |
| `Profiles.SwitchKeyResolves` | accuracy.js:299-308 | switchWeapon builds its controller for the name itself when it is known and for "DEFAULT" otherwise, which resolves to the same profile as the name |
| `Profiles.ModeMultiplierRange` | accuracy.js:312-317 | the mode multiplier is in [0.8, 1.5]; an unknown mode gives 1.0 |
| `Profiles.DistanceMultiplierRange` | accuracy.js:318-326 | the distance multiplier is in [0.8, 1.1]; an unknown distance key gives 1.0 |
| `Profiles.TotalMultiplier` | accuracy.js:325-329 | the combined multiplier mode*distance lies in [0.64, 1.65] |
| `Profiles.RescaleBounds` | accuracy.js:331-336 | rescaling a valid profile by t in [0.64, 1.65] keeps it valid, copies recoilSmooth and lockRadius, and keeps each scaled field within [0.64, 1.65] of its base value |
| `Profiles.DetectOptimalSettingsBounds` | accuracy.js:310-337 | the situational profile is valid, has the resolved profile's recoilSmooth and lockRadius, and its three scaled fields lie within [0.64, 1.65] of the resolved values |
| `Profiles.NeutralSettings` | accuracy.js:325-336 | an unknown or "normal" mode with an unknown or "medium" distance key gives back the resolved profile unchanged |
| `Control.DragSensitivity` | accuracy.js:98-113 | definition, no contract of its own; base * weaponSensitivity * distanceFactor * velocityFactor, a zero lockRadius or dragSensitivity replaced by its default; `DragSensitivityBounds` and `DragSensitivityOnTarget` state its properties |
| `Control.Confidence` | accuracy.js:180 | definition, no contract of its own; max(0, 1 - d/r); `ConfidenceProperties` and `ConfidenceDecreasing` state its properties |
| `Control.LockConfidence` | accuracy.js:177-182 | definition, no contract of its own; Confidence of the aim-to-target distance against the lock radius; `LockConfidenceProperties` states its properties |
| `Control.Predict` | accuracy.js:164-168 | definition, no contract of its own; filteredPos + velocity*t + acceleration*(0.5*t*t); `PredictStill` and `PredictShift` state its properties |
| `Control.RecoilStep` | accuracy.js:170-175 | definition, no contract of its own; the recoil low-pass; `RecoilAsBlend`, `RecoilContraction`, `RecoilFixedPoint` and `RecoilBetween` state its properties |
| `Control.DragAndLock` | accuracy.js:184-193 | definition, no contract of its own; the drag-and-lock step; `DragAndLockLerp`, `DragAndLockAffine` and `DragAndLockOnGoal` state its properties |
| `Control.TriggerLock` | accuracy.js:239-256 | definition, no contract of its own; the trigger result; `TriggerThreshold`, `TriggerDecision` and `TriggerAtDefault` state its properties |
| `Control.DistanceFactorBounds` | accuracy.js:104-105 | for d >= 0 and a positive radius, the distance factor is in [0.1, 1], equals 1 at d = 0 and 0.1 from 90% of the radius on |
| `Control.DistanceFactorMonotone` | accuracy.js:105 | the distance factor never grows with distance |
| `Control.DragSensitivityBounds` | accuracy.js:98-113 | for a valid profile and base > 0, the sensitivity is at least 0.1*base*dragSensitivity and at most base*dragSensitivity*(1 + length(velocity)/2) |
| `Control.DragSensitivityOnTarget` | accuracy.js:98-113 | on the target with a still target, the sensitivity is exactly base*dragSensitivity |
| `Control.ConfidenceProperties` | accuracy.js:180 | for d >= 0 and r > 0 the confidence is in [0, 1], is 1 iff d = 0, is 0 iff d >= r, and is 1 - d/r inside the radius |
| `Control.ConfidenceDecreasing` | accuracy.js:180 | inside the radius the confidence strictly falls as the distance grows |
| `Control.LockConfidenceProperties` | accuracy.js:177-182 | for a valid profile, calculateLockConfidence gives a value in [0, 1] that is 1 iff the aim is at distance 0 and 0 iff it is at least lockRadius away |
| `Control.PredictStill` | accuracy.js:164-168 | a target with no velocity or acceleration is predicted at its filtered position |
| `Control.PredictShift` | accuracy.js:164-168 | shifting the filtered position by d shifts the prediction by d |
| `Control.RecoilAsBlend` | accuracy.js:170-175 | the new recoil offset is c + (old - c)*smoothing with c = raw*strength |
| `Control.RecoilContraction` | accuracy.js:170-175 | the new offset's difference from raw*strength is the old difference times smoothing |
| `Control.RecoilFixedPoint` | accuracy.js:170-175 | an offset already equal to raw*strength is unchanged |
| `Control.RecoilBetween` | accuracy.js:170-175 | for a valid profile, every component of the new offset lies between the old offset and raw*strength |
| `Control.DragAndLockLerp` | accuracy.js:184-193 | the new aim is the lerp from currentAim towards predictedPos - recoilOffset with gain sensitivity*0.15, multiplied as a whole by accuracyBoost |
| `Control.DragGainPositive` | accuracy.js:185-187 | for a valid profile the gain sensitivity*smoothingFactor is at least 0.015*dragSensitivity > 0 |
| `Control.DragAndLockAffine` | accuracy.js:184-189 | the new aim is currentAim*(boost*(1-gain)) + goal*(boost*gain) |
| `Control.DragAndLockOnGoal` | accuracy.js:184-189 | an aim already on the goal predictedPos - recoilOffset is moved to goal*accuracyBoost |
| `Control.DragAndLockGoalFixed` | accuracy.js:184-193 | for a valid profile, the goal predictedPos - recoilOffset is a fixed point of the drag-and-lock step if and only if accuracyBoost is 1 or the goal is the origin |
| `Control.TriggerThreshold` | accuracy.js:239-248 | for a valid profile and base > 0, the distance is the aim-to-target distance and the threshold is base*lockRadius*(1 + 0.1*length(velocity)) >= base*lockRadius > 0 |
| `Control.TriggerDecision` | accuracy.js:250-255 | shouldFire iff distance <= threshold; confidence is the lock-confidence formula against the threshold, lies in [0, 1], is 0 when not firing and 1 at distance 0 |
| `Control.TriggerAtDefault` | accuracy.js:239-256 | at the default base threshold 0.003 that the demonstration loop relies on the threshold is at least 0.003*lockRadius; an aim within that distance always fires, and against a target at rest it fires exactly then |
| `Motion.MotionStep` | accuracy.js:140-153 | definition, no contract of its own; the motion fields after updateEnemyPosition; `MotionGuard`, `MotionBlend`, `MotionConstantVelocity` and `MotionStationary` state its properties |
| `Motion.ElapsedSeconds` | accuracy.js:142 | dt never exceeds 0.1 s, is positive exactly when the clock advanced, and is (now - last)/1000 for gaps up to 100 ms |
| `Motion.MotionGuard` | accuracy.js:144-153 | without a previous position or when the clock has not advanced, velocity and acceleration are unchanged; in every case prevPos becomes the raw position and lastUpdate becomes now |
| `Motion.MotionBlend` | accuracy.js:144-150 | when the guard passes, the new velocity lies between the old one and the measured one, and the same for acceleration |
| `Motion.MotionConstantVelocity` | accuracy.js:144-150 | a target moving at exactly the estimated velocity keeps it, and the acceleration estimate decays to 80% |
| `Motion.MotionStationary` | accuracy.js:144-150 | a target that has not moved damps the velocity estimate to 70% |
| `History.Record` | accuracy.js:209-217 | definition, no contract of its own; push, then one shift past 100 entries; `RecordStep`, `RecordAllNewest` and `RecordWellFormed` state its properties |
| `History.Stats` | accuracy.js:222-235 | definition, no contract of its own; getPerformanceStats on a history; `StatsShape`, `StatsOnlyRecent`, `StatsNewest`, `StatsBounds` and `StatsAfterUpdates` state its properties |
| `History.Newest` | accuracy.js:225 | slice(-n) is the suffix of length min(n, the history length) |
| `History.RecordStep` | accuracy.js:209-217 | on a history of at most 100 entries, recording appends while there is room and otherwise drops exactly the oldest entry; the result is the newest 100 of h + [s] and ends with s |
| `History.RecordAllNewest` | accuracy.js:209-217 | after any sequence of updates the history is exactly the newest 100 samples ever recorded |
| `History.RecordWellFormed` | accuracy.js:209-217 | recording a sample with confidence in [0, 1] and distance >= 0 keeps the history well-formed |
| `History.SumBounds` | accuracy.js:226-227 | with confidences in [0, 1] and distances >= 0 the confidence sum is in [0, the history length] and the distance sum >= 0 |
| `History.StatsShape` | accuracy.js:222-234 | getPerformanceStats is null iff the history is empty; otherwise it names the weapon and averages over min(20, the history length) samples |
| `History.StatsOnlyRecent` | accuracy.js:225 | history older than the newest 20 entries does not change the statistics |
| `History.StatsNewest` | accuracy.js:225-227 | the statistics of a history are those of its newest 20 entries |
| `History.StatsBounds` | accuracy.js:226-231 | for a well-formed history the mean confidence is in [0, 100] percent and the mean distance is >= 0 |
| `History.StatsAfterUpdates` | accuracy.js:209-227 | after at least 20 updates the statistics are those of the last 20 samples alone |
| `AimLock.AimLockUltimate.constructor` | accuracy.js:117-138 | a new controller runs the resolved profile, has three fresh unseeded axis filters (R = 0.005, Q = 0.000002), no previous position, zero velocity, acceleration, recoil offset and aim, zero confidence, an empty history and lastUpdate = now |
| `AimLock.AimLockUltimate.UpdateEnemyPosition` | accuracy.js:140-162 | the motion fields take one MotionStep, each axis filter one Kalman step on its coordinate, and the result is the three new estimates |
| `AimLock.AimLockUltimate.PredictPosition` | accuracy.js:164-168 | definition, no contract of its own; Control.Predict on the object's velocity and acceleration |
| `AimLock.AimLockUltimate.ApplyAdvancedRecoilCompensation` | accuracy.js:170-175 | the stored recoil offset takes one RecoilStep and nothing else changes |
| `AimLock.AimLockUltimate.CalculateLockConfidence` | accuracy.js:177-182 | stores and returns the lock confidence of the aim against the target, a value in [0, 1] |
| `AimLock.AimLockUltimate.DragAndLockHead` | accuracy.js:184-193 | stores and returns the drag-and-lock aim computed from the current velocity and recoil offset |
| `AimLock.AimLockUltimate.Update` | accuracy.js:200-220 | one tick: motion and filter steps; prediction from the new velocity and acceleration; recoil step; confidence and new aim against that prediction; and one recorded sample whose confidence is the stored one and whose distance is the one the confidence used. The history grows by one up to 100 entries. The object invariant is kept |
| `AimLock.AimLockUltimate.GetPerformanceStats` | accuracy.js:222-235 | definition, no contract of its own; History.Stats of the object's history and weapon; `PerformanceStatsBounds` states its properties |
| `AimLock.AimLockUltimate.PerformanceStatsBounds` | accuracy.js:222-235 | for a valid controller, getPerformanceStats is null iff nothing was recorded, and otherwise reports a mean confidence in [0, 100] and a non-negative mean distance for the controller's weapon |
| `AimLock.SwitchWeapon` | accuracy.js:299-308 | returns a new valid controller with three new filters, in exactly the initial state the constructor builds (`Initial`): named after the weapon if it is known and "DEFAULT" otherwise, running the profile the name resolves to, unseeded filters, zero motion, recoil, aim and confidence, and an empty history |

## Left out

- Console output: `setCrosshair` (accuracy.js:195-198) and all `console.log`/`toFixed` formatting. The commented-out `GameAPI.setAim` actuation is also left out. `DragAndLockHead` stores the aim it would print.
- The demonstration loop `runInfiniteLoop`, its constants and its `setTimeout` rescheduling (accuracy.js:258-296). This is scheduling with no stop condition.
- `getAllSettingsForWeapon` (accuracy.js:339-353): it only collects `detectOptimalSettingsForDistance` over the 4×4 keys.
- IEEE-754 behaviour:
  - rounding;
  - `NaN` and `Infinity` propagation;
  - JS treating `NaN` as falsy in `x || d`;
  - overflow of `Date.now()` arithmetic.
  Numbers are exact reals.
- `Math.sqrt` is the abstract `length`, and `Math.sqrt(dx*dx + dy*dy + dz*dz)` is `length(Subtract(a, b))`. The model assumes only that it is never negative and that it is 0 at the zero vector.
- `Vectors.NormalizeProperties`: does not state that the result has length 1, because `length` is abstract.
- `Vector3.dot` (accuracy.js:13) is modelled as `Vectors.Dot` but is never called by the core, so nothing is proved about it.
- JS default parameters are not modelled as such. Two calls in the source rely on a default, and the model supplies each value explicitly. `dragAndLockHead` calls `getAdvancedDragSensitivity` without `baseSensitivity` (accuracy.js:185), so `Control.DragGain` passes `Control.BaseSensitivity` = 1.0. The demonstration loop calls `advancedTriggerLock` without `baseThreshold` (accuracy.js:270-275); `Control.TriggerLock` takes `baseThreshold` as a parameter, and `Control.TriggerAtDefault` instantiates it at `Control.BaseThreshold` = 0.003. The remaining defaults (`currentWeapon = "DEFAULT"`, `R`, `Q`, `gameMode = "normal"`) are never left to apply by the core's callers; the model takes these as ordinary parameters. An omitted `gameMode` or `distanceKey` would behave like an unknown key, which also gives 1.0.
- Keys inherited from `Object.prototype` are treated as unknown keys, for example `"toString"` or `"constructor"`. JS would find a truthy non-profile value for them.
- `Kalman.AdvancedKalmanFilter.constructor`: requires R > 0 and Q >= 0, which the source does not check. With R <= 0 the gain's denominator can be 0, producing a `NaN` that is not modelled. The only caller passes R = 0.005 and Q = 0.000002.
- `Control.TriggerLock`: requires a non-zero `baseThreshold`. With 0, JS divides by zero, producing `NaN`/`Infinity`. The only call uses the default 0.003.
- The three axis filters are separate `AdvancedKalmanFilter` objects in the fields `kalmanX`, `kalmanY`, `kalmanZ`, not an object literal `{x, y, z}`.
- Vectors are values, so aliasing of `Vector3` objects is not modelled. `rawPos.clone()` and storing `currentAim` by reference are both plain assignment. No method mutates a `Vector3` in place, so no behaviour is lost.
- Input validation: the code never rejects non-finite positions or velocities, and neither does the model.
- Properties that need many ticks of the whole loop are not proved, such as convergence of the aim onto a stationary target. The model proves one-step and history-wide properties.

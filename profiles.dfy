/**
  Weapon profiles (accuracy.js:61-93), the profile fallback of the
  AimLockUltimate constructor and of switchWeapon, and the situational
  rescaling detectOptimalSettingsForDistance (accuracy.js:310-337).
  The tables are configuration data, kept here as Dafny maps.
*/
module Profiles {
  import opened RealFacts

  /** The five tunables of one weapon. */
  datatype WeaponProfile = WeaponProfile(
    recoilSmooth: real,
    dragSensitivity: real,
    aimLockStrength: real,
    accuracyBoost: real,
    lockRadius: real)

  /**
    JavaScript's `v || d` on a number that is present: a zero field falls
    back to the default d (NaN, the other falsy number, is not modelled).
  */
  function OrDefault(v: real, d: real): real {
    if v == 0.0 then d else v
  }

  const DefaultKey: string := "DEFAULT"

  const WeaponProfiles: map<string, WeaponProfile> := map[
    "AK47" := WeaponProfile(0.98, 2.2, 1.3, 1.8, 0.08),
    "M4A1" := WeaponProfile(0.99, 2.3, 1.4, 1.85, 0.09),
    "SCAR" := WeaponProfile(0.97, 2.1, 1.35, 1.75, 0.08),
    "FAMAS" := WeaponProfile(0.95, 2.0, 1.25, 1.7, 0.075),
    "GROZA" := WeaponProfile(0.98, 1.9, 1.45, 1.9, 0.085),
    "AN94" := WeaponProfile(0.96, 2.0, 1.3, 1.75, 0.08),
    "XM8" := WeaponProfile(0.98, 1.95, 1.35, 1.8, 0.08),
    "MP40" := WeaponProfile(0.92, 2.5, 1.2, 1.6, 0.1),
    "UMP" := WeaponProfile(0.94, 2.4, 1.35, 2.2, 0.1),
    "P90" := WeaponProfile(0.95, 2.3, 1.3, 1.7, 0.095),
    "MP5" := WeaponProfile(0.96, 2.2, 1.35, 1.75, 0.09),
    "THOMPSON" := WeaponProfile(0.93, 2.3, 1.3, 1.65, 0.1),
    "AWM" := WeaponProfile(0.995, 1.8, 1.8, 2.5, 0.06),
    "KAR98K" := WeaponProfile(0.99, 1.75, 1.6, 2.2, 0.065),
    "M82B" := WeaponProfile(0.995, 1.8, 1.7, 2.4, 0.06),
    "M1014" := WeaponProfile(0.88, 2.0, 1.1, 1.5, 0.12),
    "SPAS12" := WeaponProfile(0.9, 2.0, 1.2, 1.6, 0.12),
    "MAG7" := WeaponProfile(0.91, 2.1, 1.25, 1.65, 0.11),
    "M1887" := WeaponProfile(0.85, 2.5, 1.5, 2.5, 0.15),
    "M249" := WeaponProfile(0.93, 2.0, 1.4, 1.8, 0.085),
    "GATLING" := WeaponProfile(0.91, 2.1, 1.35, 1.7, 0.09),
    "DESERT_EAGLE" := WeaponProfile(0.97, 2.2, 1.5, 2.0, 0.08),
    "M500" := WeaponProfile(0.93, 2.3, 1.4, 1.8, 0.08),
    "G18" := WeaponProfile(0.91, 2.4, 1.3, 1.7, 0.09),
    "DEFAULT" := WeaponProfile(0.94, 2.0, 1.3, 1.7, 0.08)
  ]

  /** The ranges the profile table keeps every field in. */
  predicate ValidProfile(p: WeaponProfile) {
    && 0.0 < p.recoilSmooth < 1.0
    && p.dragSensitivity > 0.0
    && p.aimLockStrength > 0.0
    && p.accuracyBoost > 0.0
    && p.lockRadius > 0.0
  }

  /** `WeaponProfiles[name] || WeaponProfiles["DEFAULT"]`: a profile object is always truthy. */
  function Resolve(name: string): WeaponProfile {
    if name in WeaponProfiles then WeaponProfiles[name] else WeaponProfiles[DefaultKey]
  }

  /** Every entry of the table, and so every resolved profile, is valid. */
  lemma ResolveValid(name: string)
    ensures DefaultKey in WeaponProfiles
    ensures ValidProfile(Resolve(name))
  {
    assert forall k | k in WeaponProfiles :: ValidProfile(WeaponProfiles[k]);
  }

  /** An unknown weapon key resolves to exactly the DEFAULT profile. */
  lemma UnknownResolvesToDefault(name: string)
    requires name !in WeaponProfiles
    ensures Resolve(name) == Resolve(DefaultKey)
    ensures Resolve(name) == WeaponProfile(0.94, 2.0, 1.3, 1.7, 0.08)
  {
    assert DefaultKey in WeaponProfiles;
  }

  /** The key switchWeapon builds its new controller with. */
  function SwitchKey(newWeapon: string): string {
    if newWeapon in WeaponProfiles then newWeapon else DefaultKey
  }

  /**
    switchWeapon ends on the same profile as the constructor would for the
    same name; only an unknown name is replaced by "DEFAULT".
  */
  lemma SwitchKeyResolves(newWeapon: string)
    ensures SwitchKey(newWeapon) in WeaponProfiles
    ensures Resolve(SwitchKey(newWeapon)) == Resolve(newWeapon)
    ensures newWeapon in WeaponProfiles ==> SwitchKey(newWeapon) == newWeapon
    ensures newWeapon !in WeaponProfiles ==> SwitchKey(newWeapon) == DefaultKey
  {
    assert DefaultKey in WeaponProfiles;
  }

  const ModeMultipliers: map<string, real> := map[
    "normal" := 1.0,
    "ranked" := 1.2,
    "close_combat" := 1.5,
    "long_range" := 0.8
  ]

  const DistanceMultipliers: map<string, real> := map[
    "close" := 1.1,
    "medium" := 1.0,
    "far" := 0.9,
    "veryFar" := 0.8
  ]

  /** `modeMultipliers[gameMode] || 1.0` */
  function ModeMultiplier(gameMode: string): real {
    if gameMode in ModeMultipliers then OrDefault(ModeMultipliers[gameMode], 1.0) else 1.0
  }

  /** `distanceMultipliers[distanceKey] || 1.0` */
  function DistanceMultiplier(distanceKey: string): real {
    if distanceKey in DistanceMultipliers then OrDefault(DistanceMultipliers[distanceKey], 1.0) else 1.0
  }

  /** The mode multiplier is one of the table's values or 1.0, and so lies in [0.8, 1.5]. */
  lemma ModeMultiplierRange(gameMode: string)
    ensures 0.8 <= ModeMultiplier(gameMode) <= 1.5
    ensures gameMode !in ModeMultipliers ==> ModeMultiplier(gameMode) == 1.0
  {
    assert forall k | k in ModeMultipliers :: 0.8 <= ModeMultipliers[k] <= 1.5;
  }

  /** The distance multiplier is one of the table's values or 1.0, and so lies in [0.8, 1.1]. */
  lemma DistanceMultiplierRange(distanceKey: string)
    ensures 0.8 <= DistanceMultiplier(distanceKey) <= 1.1
    ensures distanceKey !in DistanceMultipliers ==> DistanceMultiplier(distanceKey) == 1.0
  {
    assert forall k | k in DistanceMultipliers :: 0.8 <= DistanceMultipliers[k] <= 1.1;
  }

  /** mode * distance multiplier; lies in [0.64, 1.65]. */
  function TotalMultiplier(gameMode: string, distanceKey: string): (t: real)
    ensures 0.64 <= t <= 1.65
  {
    ModeMultiplierRange(gameMode);
    DistanceMultiplierRange(distanceKey);
    MultiplierProduct(ModeMultiplier(gameMode), DistanceMultiplier(distanceKey));
    ModeMultiplier(gameMode) * DistanceMultiplier(distanceKey)
  }

  lemma MultiplierProduct(m: real, d: real)
    requires 0.8 <= m <= 1.5 && 0.8 <= d <= 1.1
    ensures 0.64 <= m * d <= 1.65
  {
    assert 0.8 * d <= m * d <= 1.5 * d;
  }

  /** `{...baseProfile, f: baseProfile.f * t}` for the three scaled fields. */
  function Rescale(b: WeaponProfile, t: real): WeaponProfile {
    b.(dragSensitivity := b.dragSensitivity * t,
       aimLockStrength := b.aimLockStrength * t,
       accuracyBoost := b.accuracyBoost * t)
  }

  /**
    detectOptimalSettingsForDistance(weapon, gameMode, distanceKey): the
    resolved profile with dragSensitivity, aimLockStrength and accuracyBoost
    multiplied by mode * distance; recoilSmooth and lockRadius are copied.
  */
  function DetectOptimalSettings(weapon: string, gameMode: string, distanceKey: string): WeaponProfile {
    Rescale(Resolve(weapon), TotalMultiplier(gameMode, distanceKey))
  }

  /** A positive base scaled by t in [0.64, 1.65] stays positive and within [0.64, 1.65] times the base. */
  lemma ScaledWithin(x: real, t: real, y: real)
    requires x > 0.0 && 0.64 <= t <= 1.65 && y == x * t
    ensures 0.64 * x <= y <= 1.65 * x && y > 0.0
  {
    MulMonotone(0.64, t, x);
    MulMonotone(t, 1.65, x);
    MulStrict(x, t);
  }

  /** Rescaling a valid profile by t in [0.64, 1.65] keeps it valid and each scaled field within [0.64, 1.65] of its base. */
  lemma RescaleBounds(b: WeaponProfile, t: real)
    requires ValidProfile(b) && 0.64 <= t <= 1.65
    ensures ValidProfile(Rescale(b, t))
    ensures Rescale(b, t).recoilSmooth == b.recoilSmooth && Rescale(b, t).lockRadius == b.lockRadius
    ensures 0.64 * b.dragSensitivity <= Rescale(b, t).dragSensitivity <= 1.65 * b.dragSensitivity
    ensures 0.64 * b.aimLockStrength <= Rescale(b, t).aimLockStrength <= 1.65 * b.aimLockStrength
    ensures 0.64 * b.accuracyBoost <= Rescale(b, t).accuracyBoost <= 1.65 * b.accuracyBoost
  {
    var p := Rescale(b, t);
    ScaledWithin(b.dragSensitivity, t, p.dragSensitivity);
    ScaledWithin(b.aimLockStrength, t, p.aimLockStrength);
    ScaledWithin(b.accuracyBoost, t, p.accuracyBoost);
  }

  /**
    The rescaled profile is still valid, keeps recoilSmooth and lockRadius,
    and each scaled field stays within [0.64, 1.65] times its base value.
  */
  lemma DetectOptimalSettingsBounds(weapon: string, gameMode: string, distanceKey: string)
    ensures ValidProfile(DetectOptimalSettings(weapon, gameMode, distanceKey))
    ensures DetectOptimalSettings(weapon, gameMode, distanceKey).recoilSmooth == Resolve(weapon).recoilSmooth
    ensures DetectOptimalSettings(weapon, gameMode, distanceKey).lockRadius == Resolve(weapon).lockRadius
    ensures 0.64 * Resolve(weapon).dragSensitivity <= DetectOptimalSettings(weapon, gameMode, distanceKey).dragSensitivity
                                                  <= 1.65 * Resolve(weapon).dragSensitivity
    ensures 0.64 * Resolve(weapon).aimLockStrength <= DetectOptimalSettings(weapon, gameMode, distanceKey).aimLockStrength
                                                  <= 1.65 * Resolve(weapon).aimLockStrength
    ensures 0.64 * Resolve(weapon).accuracyBoost <= DetectOptimalSettings(weapon, gameMode, distanceKey).accuracyBoost
                                                <= 1.65 * Resolve(weapon).accuracyBoost
  {
    ResolveValid(weapon);
    RescaleBounds(Resolve(weapon), TotalMultiplier(gameMode, distanceKey));
  }

  /**
    A mode and a distance key that contribute 1.0 (unknown keys, "normal",
    "medium") leave the resolved profile exactly as it is.
  */
  lemma NeutralSettings(weapon: string, gameMode: string, distanceKey: string)
    requires gameMode !in ModeMultipliers || gameMode == "normal"
    requires distanceKey !in DistanceMultipliers || distanceKey == "medium"
    ensures DetectOptimalSettings(weapon, gameMode, distanceKey) == Resolve(weapon)
  {
    assert ModeMultiplier(gameMode) == 1.0;
    assert DistanceMultiplier(distanceKey) == 1.0;
    assert TotalMultiplier(gameMode, distanceKey) == 1.0;
  }
}

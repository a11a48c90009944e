/**
  AdvancedKalmanFilter (accuracy.js:24-58): a scalar Kalman filter with state
  transition A = 1 and observation C = 1 (both fixed in the constructor and
  never changed, so they are substituted below). Its process noise adapts to
  the mean absolute innovation over a sliding window.

  The filter is a two-state machine: Uninitialised (x and cov are NaN in the
  source) until the first observation seeds it, then Tracking(x, cov).
*/
module Kalman {
  import opened RealMath

  /** The estimate x and its covariance cov, both NaN until the first observation. */
  datatype Estimate = Uninitialised | Tracking(x: real, cov: real)

  /** The abstract state of one filter. */
  datatype FilterState = FilterState(
    r: real,
    q: real,
    adaptiveQ: real,
    estimate: Estimate,
    innovations: seq<real>)

  /** The state the constructor builds. */
  function Init(r: real, q: real): FilterState {
    FilterState(r, q, q, Uninitialised, [])
  }

  /** The invariant every reachable filter state keeps. */
  ghost predicate Inv(s: FilterState) {
    && s.r > 0.0
    && s.q >= 0.0
    && (s.estimate.Tracking? ==> s.estimate.cov >= 0.0)
    && |s.innovations| <= 11
    && s.adaptiveQ >= s.q
    && (|s.innovations| <= 10 ==> s.adaptiveQ == s.q)
    && (s.estimate.Uninitialised? ==> s.innovations == [])
  }

  /** reduce((a, b) => a + Math.abs(b), 0) */
  function SumAbs(h: seq<real>): (sum: real)
    ensures sum >= 0.0
  {
    if h == [] then 0.0 else SumAbs(h[..|h| - 1]) + Abs(h[|h| - 1])
  }

  function MeanAbs(h: seq<real>): real
    requires |h| > 0
  {
    SumAbs(h) / (|h| as real)
  }

  /** The process noise in force for this observation (accuracy.js:37-41). */
  function AdaptedQ(s: FilterState): real
  {
    if |s.innovations| > 10 then s.q * (1.0 + MeanAbs(s.innovations) * 10.0) else s.adaptiveQ
  }

  /** The innovation window once the oldest entry has been evicted if it was over 10. */
  function Window(s: FilterState): seq<real> {
    if |s.innovations| > 10 then s.innovations[1..] else s.innovations
  }

  /** K = predCov * C / (C * predCov * C + R) with C = 1. */
  function Gain(predCov: real, r: real): real
    requires predCov + r != 0.0
  {
    predCov / (predCov + r)
  }

  lemma AdaptedQAtLeastQ(s: FilterState)
    requires Inv(s)
    ensures AdaptedQ(s) >= s.q
  {
    if |s.innovations| > 10 {
      var m := MeanAbs(s.innovations);
      assert m >= 0.0;
      assert s.q * (1.0 + m * 10.0) == s.q + s.q * (m * 10.0);
      assert s.q * (m * 10.0) >= 0.0;
    }
  }

  /** One call of adaptiveFilter(z): the new state; the value it returns is the new x. */
  function Next(s: FilterState, z: real): (t: FilterState)
    requires Inv(s)
    ensures Inv(t) && t.estimate.Tracking?
    ensures t.r == s.r && t.q == s.q
  {
    AdaptedQAtLeastQ(s);
    var aq := AdaptedQ(s);
    var h := Window(s);
    match s.estimate
    case Uninitialised =>
      s.(adaptiveQ := aq, innovations := h, estimate := Tracking(z, s.r))
    case Tracking(x, cov) =>
      var predX := x;
      var predCov := cov + aq;
      var k := Gain(predCov, s.r);
      var innovation := z - predX;
      GainBounds(predCov, s.r);
      s.(adaptiveQ := aq, innovations := h + [innovation],
         estimate := Tracking(predX + k * innovation, predCov - k * predCov))
  }

  /** With predicted covariance p >= 0 and R > 0 the gain lies in [0, 1) and the new covariance in [0, p]. */
  lemma GainBounds(p: real, r: real)
    requires p >= 0.0 && r > 0.0
    ensures 0.0 <= Gain(p, r) < 1.0
    ensures p - Gain(p, r) * p == p * (1.0 - Gain(p, r))
    ensures 0.0 <= p - Gain(p, r) * p <= p
  {
    var k := Gain(p, r);
    assert k * p >= 0.0;
    assert k * p <= 1.0 * p;
  }

  /** adaptiveFilter's first call seeds the filter: x := z, cov := R, no innovation is recorded. */
  lemma SeedStep(s: FilterState, z: real)
    requires Inv(s) && s.estimate.Uninitialised?
    ensures Next(s, z).estimate == Tracking(z, s.r)
    ensures Next(s, z).innovations == []
    ensures Next(s, z).adaptiveQ == s.q
  {
  }

  /** The estimate update x + K * (z - x) for K in [0, 1]: between x and z, and 1 - K times as far from z. */
  lemma EstimateScalar(x: real, z: real, k: real)
    requires 0.0 <= k <= 1.0
    ensures Between(x, z, x + k * (z - x))
    ensures (x + k * (z - x)) - z == (1.0 - k) * (x - z)
  {
    BetweenStep(x, z, k);
  }

  /**
    A tracking step, covariance part: with predCov = cov + adaptiveQ >= 0 the
    gain K is in [0, 1) and the new covariance is predCov * (1 - K), within
    [0, predCov].
  */
  lemma TrackingCovariance(s: FilterState, z: real)
    requires Inv(s) && s.estimate.Tracking?
    ensures var p := s.estimate.cov + AdaptedQ(s);
      p >= 0.0 && 0.0 <= Gain(p, s.r) < 1.0
    ensures var p := s.estimate.cov + AdaptedQ(s);
      Next(s, z).estimate.cov == p * (1.0 - Gain(p, s.r))
    ensures 0.0 <= Next(s, z).estimate.cov <= s.estimate.cov + AdaptedQ(s)
  {
    AdaptedQAtLeastQ(s);
    var p := s.estimate.cov + AdaptedQ(s);
    var k := Gain(p, s.r);
    GainBounds(p, s.r);
    assert Next(s, z).estimate.cov == p - k * p;
  }

  /**
    A tracking step, estimate part: the new estimate lies between the previous
    estimate and z, and is closer to z by the factor 1 - K.
  */
  lemma TrackingEstimate(s: FilterState, z: real)
    requires Inv(s) && s.estimate.Tracking?
    ensures Between(s.estimate.x, z, Next(s, z).estimate.x)
    ensures var p := s.estimate.cov + AdaptedQ(s);
      Next(s, z).estimate.x - z == (1.0 - Gain(p, s.r)) * (s.estimate.x - z)
  {
    AdaptedQAtLeastQ(s);
    var p := s.estimate.cov + AdaptedQ(s);
    var k := Gain(p, s.r);
    GainBounds(p, s.r);
    var x := s.estimate.x;
    assert Next(s, z).estimate.x == x + k * (z - x);
    EstimateScalar(x, z, k);
  }

  /**
    The innovation window of a tracking step: once it holds more than 10
    entries, adaptiveQ becomes Q * (1 + 10 * mean |innovation|) >= Q and
    exactly the oldest entry is evicted; the new innovation is appended.
  */
  lemma WindowStep(s: FilterState, z: real)
    requires Inv(s) && s.estimate.Tracking?
    ensures var t := Next(s, z);
      && t.innovations == Window(s) + [z - s.estimate.x]
      && |t.innovations| <= 11
      && (|s.innovations| > 10 ==>
            && Window(s) == s.innovations[1..]
            && t.adaptiveQ == s.q * (1.0 + MeanAbs(s.innovations) * 10.0)
            && t.adaptiveQ >= s.q)
      && (|s.innovations| <= 10 ==> Window(s) == s.innovations && t.adaptiveQ == s.q)
  {
    AdaptedQAtLeastQ(s);
  }

  /** Any step takes AdaptedQ as its process noise and ends with the evicted window plus at most one innovation. */
  lemma NextWindow(s: FilterState, z: real)
    requires Inv(s)
    ensures Next(s, z).adaptiveQ == AdaptedQ(s)
    ensures s.estimate.Tracking? ==> |Next(s, z).innovations| == |Window(s)| + 1
  {
  }

  /** Feeding the observations zs one by one, oldest first. */
  function Run(s: FilterState, zs: seq<real>): (t: FilterState)
    requires Inv(s)
    ensures Inv(t)
    ensures t.r == s.r && t.q == s.q
  {
    if zs == [] then s else Next(Run(s, zs[..|zs| - 1]), zs[|zs| - 1])
  }

  /**
    From a fresh filter, n <= 12 observations leave n - 1 innovations (none
    for the seeding one), and adaptiveQ stays Q through all of them: the
    window test runs before the push, so twelve calls see at most 10
    innovations when they test it.
  */
  lemma {:induction false} RunFromInit(r: real, q: real, zs: seq<real>)
    requires r > 0.0 && q >= 0.0 && 1 <= |zs| <= 12
    ensures Inv(Init(r, q))
    ensures |Run(Init(r, q), zs).innovations| == |zs| - 1
    ensures Run(Init(r, q), zs).adaptiveQ == q
    ensures Run(Init(r, q), zs).estimate.Tracking?
  {
    var zs' := zs[..|zs| - 1];
    if |zs| == 1 {
      assert zs' == [];
    } else {
      RunFromInit(r, q, zs');
    }
  }

  /**
    The first adaptation happens on the thirteenth observation: the eleven
    innovations of the first twelve are averaged, adaptiveQ becomes
    Q * (1 + 10 * their mean absolute value) and the window is back to 11.
  */
  lemma FirstAdaptation(r: real, q: real, zs: seq<real>)
    requires r > 0.0 && q >= 0.0 && |zs| == 13
    ensures Inv(Init(r, q))
    ensures |Run(Init(r, q), zs[..12]).innovations| == 11
    ensures Run(Init(r, q), zs).adaptiveQ
            == q * (1.0 + MeanAbs(Run(Init(r, q), zs[..12]).innovations) * 10.0)
    ensures |Run(Init(r, q), zs).innovations| == 11
  {
    var first := zs[..12];
    RunFromInit(r, q, first);
    assert zs[..|zs| - 1] == first;
    var s := Run(Init(r, q), first);
    NextWindow(s, zs[12]);
  }

  /** The source's AdvancedKalmanFilter object, updated in place. */
  class AdvancedKalmanFilter {
    const R: real
    const Q: real
    var estimate: Estimate
    var adaptiveQ: real
    var innovationHistory: seq<real>

    function State(): FilterState
      reads this
    {
      FilterState(R, Q, adaptiveQ, estimate, innovationHistory)
    }

    ghost predicate Valid()
      reads this
    {
      Inv(State())
    }

    constructor (R: real, Q: real)
      requires R > 0.0 && Q >= 0.0
      ensures Valid() && State() == Init(R, Q)
    {
      this.R := R;
      this.Q := Q;
      estimate := Uninitialised;
      adaptiveQ := Q;
      innovationHistory := [];
    }

    /**
      The first half of adaptiveFilter: once more than 10 innovations are
      held, adaptiveQ is recomputed from their mean absolute value and the
      oldest one is dropped.
    */
    method AdaptProcessNoise()
      requires Valid()
      modifies this`adaptiveQ, this`innovationHistory
      ensures adaptiveQ == AdaptedQ(old(State()))
      ensures innovationHistory == Window(old(State()))
    {
      if |innovationHistory| > 10 {
        var avgInnovation := MeanAbs(innovationHistory);
        adaptiveQ := Q * (1.0 + avgInnovation * 10.0);
        innovationHistory := innovationHistory[1..];
      }
    }

    /** adaptiveFilter(z): one filter step; returns the new estimate x. */
    method AdaptiveFilter(z: real) returns (x: real)
      requires Valid()
      modifies this
      ensures Valid()
      ensures State() == Next(old(State()), z)
      ensures estimate.Tracking? && x == estimate.x
    {
      ghost var s := State();
      AdaptProcessNoise();

      if estimate.Uninitialised? {
        estimate := Tracking(z, R);
      } else {
        var predX := estimate.x;
        var predCov := estimate.cov + adaptiveQ;
        var k := Gain(predCov, R);
        var innovation := z - predX;

        innovationHistory := innovationHistory + [innovation];
        estimate := Tracking(predX + k * innovation, predCov - k * predCov);
      }
      assert State() == Next(s, z);
      x := estimate.x;
    }
  }
}

/**
  The lock history of AimLockUltimate.update (accuracy.js:209-217) and the
  summary getPerformanceStats computes from it (accuracy.js:222-235).
*/
module History {
  import opened Wrappers
  import opened RealMath
  import opened RealFacts

  /** One entry pushed by update: { timestamp, confidence, distance }. */
  datatype Sample = Sample(timestamp: int, confidence: real, distance: real)

  /** The history never grows beyond this many entries. */
  const MaxHistory: nat := 100
  /** getPerformanceStats averages over this many newest entries: slice(-20). */
  const RecentWindow: nat := 20

  /** The newest n entries of xs (all of them when there are fewer): xs.slice(-n) for n > 0. */
  function Newest<T>(xs: seq<T>, n: nat): (r: seq<T>)
    ensures |r| == (if |xs| < n then |xs| else n)
    ensures r == xs[|xs| - |r|..]
  {
    if |xs| <= n then xs else xs[|xs| - n..]
  }

  /** push the new sample, then shift once if the history is over 100 entries. */
  function Record(h: seq<Sample>, s: Sample): seq<Sample> {
    var pushed := h + [s];
    if |pushed| > MaxHistory then pushed[1..] else pushed
  }

  /**
    On a history of at most 100 entries, recording keeps the newest 100
    entries of h + [s]: it appends while there is room and otherwise drops
    exactly the oldest entry.
  */
  lemma RecordStep(h: seq<Sample>, s: Sample)
    requires |h| <= MaxHistory
    ensures Record(h, s) == Newest(h + [s], MaxHistory)
    ensures |h| < MaxHistory ==> Record(h, s) == h + [s]
    ensures |h| == MaxHistory ==> Record(h, s) == h[1..] + [s]
    ensures |Record(h, s)| <= MaxHistory && Record(h, s)[|Record(h, s)| - 1] == s
  {
    if |h| == MaxHistory {
      assert (h + [s])[1..] == h[1..] + [s];
    }
  }

  /** The history after a sequence of updates, oldest sample first. */
  function RecordAll(h: seq<Sample>, samples: seq<Sample>): seq<Sample> {
    if samples == [] then h else Record(RecordAll(h, samples[..|samples| - 1]), samples[|samples| - 1])
  }

  /** Recording onto the newest 100 entries of xs gives the newest 100 entries of xs + [x]. */
  lemma RecordNewest(xs: seq<Sample>, x: Sample)
    ensures Record(Newest(xs, MaxHistory), x) == Newest(xs + [x], MaxHistory)
  {
    if |xs| >= MaxHistory {
      assert (Newest(xs, MaxHistory) + [x])[1..] == (xs + [x])[|xs| + 1 - MaxHistory..];
    }
  }

  /**
    However long it runs, the history that update maintains is exactly the
    newest 100 of all samples ever recorded.
  */
  lemma {:induction false} RecordAllNewest(h: seq<Sample>, samples: seq<Sample>)
    requires |h| <= MaxHistory
    ensures RecordAll(h, samples) == Newest(h + samples, MaxHistory)
  {
    if samples == [] {
      assert h + samples == h;
    } else {
      var rest, x := samples[..|samples| - 1], samples[|samples| - 1];
      assert RecordAll(h, samples) == Record(RecordAll(h, rest), x);
      RecordAllNewest(h, rest);
      RecordNewest(h + rest, x);
      assert h + samples == (h + rest) + [x];
    }
  }

  /** Every entry update can record: a confidence in [0, 1] and a distance >= 0, at most 100 of them. */
  ghost predicate WellFormed(h: seq<Sample>) {
    |h| <= MaxHistory &&
    forall i :: 0 <= i < |h| ==> 0.0 <= h[i].confidence <= 1.0 && 0.0 <= h[i].distance
  }

  /** Recording a well-formed sample keeps the history well-formed. */
  lemma RecordWellFormed(h: seq<Sample>, s: Sample)
    requires WellFormed(h) && 0.0 <= s.confidence <= 1.0 && 0.0 <= s.distance
    ensures WellFormed(Record(h, s))
  {
    RecordStep(h, s);
    var r := Record(h, s);
    forall i | 0 <= i < |r|
      ensures 0.0 <= r[i].confidence <= 1.0 && 0.0 <= r[i].distance
    {
      if |h| == MaxHistory {
        if i < |r| - 1 { assert r[i] == h[i + 1]; }
      } else {
        if i < |h| { assert r[i] == h[i]; }
      }
    }
  }

  /** recent.reduce((sum, h) => sum + h.confidence, 0) */
  function SumConfidence(h: seq<Sample>): real {
    if h == [] then 0.0 else SumConfidence(h[..|h| - 1]) + h[|h| - 1].confidence
  }

  /** recent.reduce((sum, h) => sum + h.distance, 0) */
  function SumDistance(h: seq<Sample>): real {
    if h == [] then 0.0 else SumDistance(h[..|h| - 1]) + h[|h| - 1].distance
  }

  /** With every confidence in [0, 1] and every distance >= 0, the sums lie in [0, |h|] and [0, ∞). */
  lemma {:induction false} SumBounds(h: seq<Sample>)
    requires forall i :: 0 <= i < |h| ==> 0.0 <= h[i].confidence <= 1.0 && 0.0 <= h[i].distance
    ensures 0.0 <= SumConfidence(h) <= |h| as real
    ensures 0.0 <= SumDistance(h)
  {
    if h != [] {
      var rest := h[..|h| - 1];
      assert forall i :: 0 <= i < |rest| ==> rest[i] == h[i];
      SumBounds(rest);
    }
  }

  /** The object getPerformanceStats returns. */
  datatype PerformanceStats = PerformanceStats(avgConfidence: real, avgDistance: real, weapon: string, samples: nat)

  /**
    getPerformanceStats(): null for an empty history; otherwise the mean
    confidence in percent and the mean distance times 1000 over the newest
    20 entries, the weapon name and how many entries were averaged.
  */
  function Stats(h: seq<Sample>, weapon: string): Option<PerformanceStats> {
    if |h| == 0 then None
    else
      var recent := Newest(h, RecentWindow);
      var avgConfidence := SumConfidence(recent) / |recent| as real;
      var avgDistance := SumDistance(recent) / |recent| as real;
      Some(PerformanceStats(avgConfidence * 100.0, avgDistance * 1000.0, weapon, |recent|))
  }

  /** There are statistics exactly when there is history; they cover min(20, |h|) entries of the named weapon. */
  lemma StatsShape(h: seq<Sample>, weapon: string)
    ensures Stats(h, weapon).None? <==> h == []
    ensures Stats(h, weapon).Some? ==>
      && Stats(h, weapon).value.weapon == weapon
      && Stats(h, weapon).value.samples == (if |h| < RecentWindow then |h| else RecentWindow)
      && 1 <= Stats(h, weapon).value.samples <= RecentWindow
  {
  }

  /** Only the newest 20 entries matter: older history in front of them changes nothing. */
  lemma StatsOnlyRecent(older: seq<Sample>, h: seq<Sample>, weapon: string)
    requires |h| >= RecentWindow
    ensures Stats(older + h, weapon) == Stats(h, weapon)
  {
    assert Newest(older + h, RecentWindow) == Newest(h, RecentWindow);
  }

  /** For a well-formed history the mean confidence is a percentage in [0, 100] and the mean distance is >= 0. */
  lemma StatsBounds(h: seq<Sample>, weapon: string)
    requires WellFormed(h) && h != []
    ensures 0.0 <= Stats(h, weapon).value.avgConfidence <= 100.0
    ensures 0.0 <= Stats(h, weapon).value.avgDistance
  {
    var recent := Newest(h, RecentWindow);
    assert forall i :: 0 <= i < |recent| ==> recent[i] == h[|h| - |recent| + i];
    SumBounds(recent);
    var n := |recent| as real;
    DivCompare(SumConfidence(recent), n, n);
    DivCompare(SumDistance(recent), 0.0, n);
  }

  /** The statistics of a history are those of its newest 20 entries. */
  lemma StatsNewest(h: seq<Sample>, weapon: string)
    ensures Stats(h, weapon) == Stats(Newest(h, RecentWindow), weapon)
  {
    assert Newest(Newest(h, RecentWindow), RecentWindow) == Newest(h, RecentWindow);
  }

  /**
    After any run of updates that recorded at least 20 samples, the
    statistics are those of the last 20 samples alone, whatever came before.
  */
  lemma StatsAfterUpdates(h: seq<Sample>, samples: seq<Sample>, weapon: string)
    requires |h| <= MaxHistory && |samples| >= RecentWindow
    ensures Stats(RecordAll(h, samples), weapon) == Stats(samples[|samples| - RecentWindow..], weapon)
  {
    RecordAllNewest(h, samples);
    var all := h + samples;
    var kept := RecordAll(h, samples);
    var last := samples[|samples| - RecentWindow..];
    assert kept == all[|all| - |kept|..];
    assert Newest(kept, RecentWindow) == kept[|kept| - RecentWindow..];
    assert kept[|kept| - RecentWindow..] == all[|all| - RecentWindow..];
    assert all[|all| - RecentWindow..] == last;
    StatsNewest(kept, weapon);
    StatsNewest(last, weapon);
  }
}

/** The backend's support-level detector (backend/utils/support_detector.py):
    windowed local minima of the candle lows, touch counting inside a 0.1 %
    band, the three-factor strength score, the greedy minimum-separation
    filter, the strength-descending order and the per-symbol cache. Clock
    readings are integer microseconds passed in as `now`. */
module SupportDetection {
  import opened Domain
  import opened Sequences

  /** Candles on each side of a local minimum. */
  const Window: nat := 20

  /** Relative half-width of the band around a level that counts as a touch. */
  const Tolerance: real := 0.001

  const MicrosPerDay: int := 86400000000

  /** The columns of the candle table the detector reads. */
  datatype Frame = Frame(lows: seq<real>, volumes: seq<real>, timestamps: seq<int>)

  /** Columns of one table have one entry per candle. */
  predicate Aligned(f: Frame)
  {
    |f.volumes| == |f.lows| && |f.timestamps| == |f.lows|
  }

  /** _is_local_minimum: the price at `index` is not above the minimum of the
      `window` prices before it, nor of the `window` prices from it on. */
  function IsLocalMinimum(prices: seq<real>, index: nat, window: nat): (r: bool)
    requires 1 <= window <= index && index + window <= |prices|
    ensures r <==> forall j :: index - window <= j < index + window ==> prices[index] <= prices[j]
  {
    var left := prices[index - window..index];
    var right := prices[index..index + window];
    assert forall j :: index - window <= j < index ==> prices[j] == left[j - (index - window)];
    assert forall j :: index <= j < index + window ==> prices[j] == right[j - index];
    prices[index] <= Min(left) && prices[index] <= Min(right)
  }

  predicate InBand(p: real, level: real)
  {
    level * (1.0 - Tolerance) <= p <= level * (1.0 + Tolerance)
  }

  /** _count_touches: how many prices lie in the band around `level`. */
  function CountTouches(prices: seq<real>, level: real): (n: nat)
    ensures n <= |prices|
  {
    if prices == [] then 0
    else
      CountTouches(prices[..|prices| - 1], level)
        + (if InBand(prices[|prices| - 1], level) then 1 else 0)
  }

  /** The positions of the prices inside the band. */
  function TouchIndices(prices: seq<real>, level: real): set<nat>
  {
    set i: nat | i < |prices| && InBand(prices[i], level)
  }

  /** The touch count is the number of positions inside the band. */
  lemma {:induction false} CountTouchesIsCardinality(prices: seq<real>, level: real)
    ensures CountTouches(prices, level) == |TouchIndices(prices, level)|
  {
    if prices != [] {
      var n := |prices| - 1;
      var prefix := prices[..n];
      CountTouchesIsCardinality(prefix, level);
      assert forall i :: 0 <= i < n ==> prefix[i] == prices[i];
      if InBand(prices[n], level) {
        assert TouchIndices(prices, level) == TouchIndices(prefix, level) + {n};
      } else {
        assert TouchIndices(prices, level) == TouchIndices(prefix, level);
      }
    }
  }

  /** A non-negative price always touches its own level, so every candidate
      level is counted at least once. */
  lemma LevelTouchesItself(prices: seq<real>, index: nat)
    requires index < |prices| && prices[index] >= 0.0
    ensures CountTouches(prices, prices[index]) >= 1
  {
    CountTouchesIsCardinality(prices, prices[index]);
    assert index in TouchIndices(prices, prices[index]);
  }

  /** The position of the last price inside the band, if any. */
  function LastTouch(prices: seq<real>, level: real): (r: Option<nat>)
    ensures r.None? <==> forall i :: 0 <= i < |prices| ==> !InBand(prices[i], level)
    ensures r.Some? ==> r.value < |prices| && InBand(prices[r.value], level)
    ensures r.Some? ==> forall j :: r.value < j < |prices| ==> !InBand(prices[j], level)
  {
    if prices == [] then None
    else
      var n := |prices| - 1;
      if InBand(prices[n], level) then Some(n)
      else
        assert forall i :: 0 <= i < n ==> prices[..n][i] == prices[i];
        LastTouch(prices[..n], level)
  }

  /** _find_last_test: the timestamp of the last price inside the band, or
      None when no price is. */
  function FindLastTest(prices: seq<real>, timestamps: seq<int>, level: real): (r: Option<int>)
    requires |timestamps| == |prices|
    ensures r.None? <==> forall i :: 0 <= i < |prices| ==> !InBand(prices[i], level)
    ensures r.Some? ==> exists i :: (0 <= i < |prices| && r.value == timestamps[i] && InBand(prices[i], level)
      && forall j :: i < j < |prices| ==> !InBand(prices[j], level))
  {
    match LastTouch(prices, level)
    case None => None
    case Some(i) => Some(timestamps[i])
  }

  /** A level has a last test exactly when it has been touched. */
  lemma {:induction false} LastTestIffTouched(prices: seq<real>, timestamps: seq<int>, level: real)
    requires |timestamps| == |prices|
    ensures FindLastTest(prices, timestamps, level).Some? <==> CountTouches(prices, level) >= 1
  {
    CountTouchesIsCardinality(prices, level);
    if FindLastTest(prices, timestamps, level).Some? {
      var i :| 0 <= i < |prices| && InBand(prices[i], level);
      assert i in TouchIndices(prices, level);
    } else {
      assert TouchIndices(prices, level) == {};
    }
  }

  /** Factor 1 of the strength: touches over the required touches, capped at 1. */
  function TouchFactor(touches: nat, minTouches: int): (r: real)
    requires minTouches >= 1
    ensures 0.0 <= r <= 1.0
    ensures r == 1.0 <==> touches >= minTouches
  {
    RealMin((touches as real) / (minTouches as real), 1.0)
  }

  /** _calculate_volume_score: the candle's volume over the mean volume,
      capped at 2 and halved. */
  function VolumeScore(volumes: seq<real>, index: nat): (r: real)
    requires index < |volumes| && Sum(volumes) != 0.0
    ensures r <= 1.0
  {
    var average := Sum(volumes) / (|volumes| as real);
    RealMin(volumes[index] / average, 2.0) / 2.0
  }

  /** With non-negative volumes the score is non-negative too. */
  lemma VolumeScoreNonNegative(volumes: seq<real>, index: nat)
    requires index < |volumes| && Sum(volumes) != 0.0
    requires forall k :: 0 <= k < |volumes| ==> volumes[k] >= 0.0
    ensures VolumeScore(volumes, index) >= 0.0
  {
    SumBounds(volumes);
    var average := Sum(volumes) / (|volumes| as real);
    assert average > 0.0;
    assert volumes[index] / average >= 0.0;
  }

  /** The distance of each price from `level`. */
  function DistancesTo(s: seq<real>, level: real): (r: seq<real>)
    ensures |r| == |s|
    ensures forall k :: 0 <= k < |s| ==> r[k] == Abs(s[k] - level)
  {
    if s == [] then [] else [Abs(s[0] - level)] + DistancesTo(s[1..], level)
  }

  /** _calculate_recency_score: one minus the smallest distance from the
      level to a price from `index` on, relative to the level. */
  function RecencyScore(prices: seq<real>, level: real, index: nat): (r: real)
    requires index < |prices| && level != 0.0
    ensures level > 0.0 ==> r <= 1.0
    ensures prices[index] == level ==> r == 1.0
  {
    var distances := DistancesTo(prices[index..], level);
    var nearest := Min(distances);
    assert distances[0] == Abs(prices[index] - level);
    1.0 - nearest / level
  }

  /** _calculate_strength: 40 % touches, 30 % volume and 30 % recency, as a
      percentage with two decimals. */
  function Strength(prices: seq<real>, volumes: seq<real>, level: real, index: nat, minTouches: int): real
    requires index < |prices| && |volumes| == |prices|
    requires level != 0.0 && Sum(volumes) != 0.0 && minTouches >= 1
  {
    var score := 0.4 * TouchFactor(CountTouches(prices, level), minTouches)
      + 0.3 * VolumeScore(volumes, index)
      + 0.3 * RecencyScore(prices, level, index);
    Round2(score * 100.0)
  }

  /** A level detected at a positive low with enough touches has a full touch
      factor and a full recency score (the low itself is among the later
      prices), so its strength is between 70 and 100. */
  lemma CandidateStrengthRange(prices: seq<real>, volumes: seq<real>, index: nat, minTouches: int)
    requires index < |prices| && |volumes| == |prices|
    requires prices[index] > 0.0 && Sum(volumes) != 0.0 && minTouches >= 1
    requires forall k :: 0 <= k < |volumes| ==> volumes[k] >= 0.0
    requires CountTouches(prices, prices[index]) >= minTouches
    ensures 70.0 <= Strength(prices, volumes, prices[index], index, minTouches) <= 100.0
  {
    var level := prices[index];
    VolumeScoreNonNegative(volumes, index);
    var score := 0.4 * TouchFactor(CountTouches(prices, level), minTouches)
      + 0.3 * VolumeScore(volumes, index)
      + 0.3 * RecencyScore(prices, level, index);
    assert 0.7 <= score <= 1.0;
    Round2Monotone(70.0, score * 100.0);
    Round2Monotone(score * 100.0, 100.0);
    Round2OfCents(7000);
    Round2OfCents(10000);
  }

  /** An index of the scan range whose low is a local minimum touched often
      enough. */
  predicate Qualifies(f: Frame, minTouches: int, i: nat)
    requires Window <= i && i + Window <= |f.lows|
  {
    IsLocalMinimum(f.lows, i, Window) && CountTouches(f.lows, f.lows[i]) >= minTouches
  }

  /** The strength of every qualifying index is defined: its low is not zero,
      the volumes do not sum to zero and at least one touch is required.
      Otherwise the source divides by zero. */
  predicate Scorable(f: Frame, minTouches: int)
  {
    && Aligned(f)
    && forall i: nat {:trigger Qualifies(f, minTouches, i)} ::
      Window <= i && i + Window <= |f.lows| && Qualifies(f, minTouches, i) ==>
      f.lows[i] != 0.0 && Sum(f.volumes) != 0.0 && minTouches >= 1
  }

  /** The record built for a qualifying index. */
  function CandidateAt(f: Frame, minTouches: int, i: nat): Level
    requires Aligned(f) && i < |f.lows|
    requires f.lows[i] != 0.0 && Sum(f.volumes) != 0.0 && minTouches >= 1
  {
    var level := f.lows[i];
    Level(level, Strength(f.lows, f.volumes, level, i, minTouches), CountTouches(f.lows, level),
      FindLastTest(f.lows, f.timestamps, level), None, false)
  }

  /** The scan test: an index of the range whose low qualifies. */
  function Keep(f: Frame, minTouches: int): nat -> bool
  {
    (i: nat) => Window <= i && i + Window <= |f.lows| && Qualifies(f, minTouches, i)
  }

  /** The record appended for a kept index. */
  function Build(f: Frame, minTouches: int): nat -> Level
    requires Scorable(f, minTouches)
  {
    (i: nat) => if Keep(f, minTouches)(i) then CandidateAt(f, minTouches, i) else Level(0.0, 0.0, 0, None, None, false)
  }

  /** End of the scan range range(Window, len - Window). */
  function ScanEnd(f: Frame): nat
  {
    if |f.lows| >= Window then |f.lows| - Window else 0
  }

  /** The candidates found at indices Window .. hi-1, in index order. */
  function Candidates(f: Frame, minTouches: int, hi: nat): seq<Level>
    requires Scorable(f, minTouches)
  {
    Scan(Window, hi, Keep(f, minTouches), Build(f, minTouches))
  }

  /** `l` is the record built for a qualifying index. */
  predicate FoundAt(f: Frame, minTouches: int, i: nat, l: Level)
    requires Scorable(f, minTouches)
  {
    Window <= i && i + Window <= |f.lows| && Qualifies(f, minTouches, i) && l == CandidateAt(f, minTouches, i)
  }

  /** Every candidate is the record of a qualifying index below `hi` ... */
  lemma CandidatesSound(f: Frame, minTouches: int, hi: nat)
    requires Scorable(f, minTouches)
    ensures forall l :: l in Candidates(f, minTouches, hi) ==> exists i: nat :: i < hi && FoundAt(f, minTouches, i, l)
  {
    var keep, build := Keep(f, minTouches), Build(f, minTouches);
    ScanSound(Window, hi, keep, build);
    var r := Candidates(f, minTouches, hi);
    assert r == Scan(Window, hi, keep, build);
    forall l | l in r ensures exists i: nat :: i < hi && FoundAt(f, minTouches, i, l) {
      var k :| 0 <= k < |r| && r[k] == l;
      var i: nat :| Window <= i < hi && keep(i) && Scan(Window, hi, keep, build)[k] == build(i);
      assert Keep(f, minTouches)(i) && Build(f, minTouches)(i) == CandidateAt(f, minTouches, i);
      assert FoundAt(f, minTouches, i, l);
    }
  }

  /** ... and every qualifying index below `hi` has its record among them. */
  lemma CandidatesComplete(f: Frame, minTouches: int, hi: nat)
    requires Scorable(f, minTouches)
    ensures forall i: nat :: Window <= i < hi && i + Window <= |f.lows| && Qualifies(f, minTouches, i) ==>
      CandidateAt(f, minTouches, i) in Candidates(f, minTouches, hi)
  {
    var keep, build := Keep(f, minTouches), Build(f, minTouches);
    ScanComplete(Window, hi, keep, build);
    forall i: nat | Window <= i < hi && i + Window <= |f.lows| && Qualifies(f, minTouches, i)
      ensures CandidateAt(f, minTouches, i) in Candidates(f, minTouches, hi)
    {
      assert keep(i) && build(i) == CandidateAt(f, minTouches, i);
    }
  }

  /** Every candidate has a last test: its low lies in its own band at
      least min_touches >= 1 times. */
  lemma CandidatesTested(f: Frame, minTouches: int, hi: nat)
    requires Scorable(f, minTouches)
    ensures forall k :: 0 <= k < |Candidates(f, minTouches, hi)| ==> Candidates(f, minTouches, hi)[k].lastTest.Some?
  {
    var c := Candidates(f, minTouches, hi);
    CandidatesSound(f, minTouches, hi);
    forall k | 0 <= k < |c| ensures c[k].lastTest.Some? {
      assert c[k] in c;
      var i: nat :| i < hi && FoundAt(f, minTouches, i, c[k]);
      LastTestIffTouched(f.lows, f.timestamps, f.lows[i]);
    }
  }

  /** A table of 41 candles whose lows are all 100 and whose volumes are all
      1: the one index of the scan range, 20, is a local minimum touched 41
      times, so with min_touches 3 there is a candidate. */
  function FlatTable(): Frame
  {
    Frame(seq(41, _ => 100.0), seq(41, _ => 1.0), seq(41, i => i))
  }

  lemma {:induction false} CountTouchesAll(prices: seq<real>, level: real)
    requires forall k :: 0 <= k < |prices| ==> InBand(prices[k], level)
    ensures CountTouches(prices, level) == |prices|
  {
    if prices != [] {
      CountTouchesAll(prices[..|prices| - 1], level);
    }
  }

  lemma FlatTableHasCandidates()
    ensures Scorable(FlatTable(), 3)
    ensures Candidates(FlatTable(), 3, ScanEnd(FlatTable())) != []
  {
    var f := FlatTable();
    CountTouchesAll(f.lows, 100.0);
    SumBounds(f.volumes);
    assert Sum(f.volumes) >= f.volumes[0] == 1.0;
    assert Scorable(f, 3);
    assert Qualifies(f, 3, 20);
    CandidatesComplete(f, 3, 21);
    assert CandidateAt(f, 3, 20) in Candidates(f, 3, 21);
  }

  /** min_distance of _filter_close_levels: the candidates' price spread
      times the separation percentage. */
  function MinSeparation(s: seq<Level>, percent: real): real
    requires s != []
  {
    var prices := seq(|s|, k requires 0 <= k < |s| => s[k].price);
    (Max(prices) - Min(prices)) * (percent / 100.0)
  }

  predicate FarFromAll(x: Level, kept: seq<Level>, d: real)
  {
    forall k :: 0 <= k < |kept| ==> Abs(x.price - kept[k].price) >= d
  }

  /** The greedy pass: the first level is kept, and each later level is kept
      when it is at least `d` away from every level kept before it. */
  function Kept(s: seq<Level>, d: real): seq<Level>
  {
    if |s| <= 1 then s
    else
      var prefix := Kept(s[..|s| - 1], d);
      var x := s[|s| - 1];
      if FarFromAll(x, prefix, d) then prefix + [x] else prefix
  }

  lemma {:induction false} KeptFirst(s: seq<Level>, d: real)
    ensures s == [] <==> Kept(s, d) == []
    ensures s != [] ==> Kept(s, d)[0] == s[0]
  {
    if |s| > 1 {
      KeptFirst(s[..|s| - 1], d);
    }
  }

  lemma {:induction false} KeptSubsequence(s: seq<Level>, d: real)
    ensures Subsequence(Kept(s, d), s)
  {
    if |s| == 1 {
      assert Subsequence(s[1..], s[1..]);
    } else if |s| > 1 {
      var n := |s| - 1;
      KeptSubsequence(s[..n], d);
      assert s[..n] + [s[n]] == s;
      if FarFromAll(s[n], Kept(s[..n], d), d) {
        SubsequenceSnoc(Kept(s[..n], d), s[..n], s[n]);
      } else {
        SubsequenceExtend(Kept(s[..n], d), s[..n], s[n]);
      }
    }
  }

  /** Any two kept levels are at least `d` apart. */
  lemma {:induction false} KeptSeparated(s: seq<Level>, d: real)
    ensures forall i, j :: 0 <= i < j < |Kept(s, d)| ==> Abs(Kept(s, d)[i].price - Kept(s, d)[j].price) >= d
  {
    if |s| > 1 {
      KeptSeparated(s[..|s| - 1], d);
    }
  }

  /** `x` is one of `r`, or closer than `d` to one of them. */
  predicate Covered(x: Level, r: seq<Level>, d: real)
  {
    x in r || exists m :: 0 <= m < |r| && Abs(x.price - r[m].price) < d
  }

  /** Covering survives extending the covering list. */
  lemma CoveredExtend(x: Level, prefix: seq<Level>, r: seq<Level>, d: real)
    requires Covered(x, prefix, d)
    requires |prefix| <= |r| && r[..|prefix|] == prefix
    ensures Covered(x, r, d)
  {
    if x in prefix {
      var m :| 0 <= m < |prefix| && prefix[m] == x;
      assert r[m] == prefix[m];
    } else {
      var m :| 0 <= m < |prefix| && Abs(x.price - prefix[m].price) < d;
      assert r[m] == prefix[m];
    }
  }

  /** The greedy pass over a longer input starts with its pass over the
      shorter one. */
  lemma KeptExtends(s: seq<Level>, d: real)
    requires |s| > 1
    ensures var prefix := Kept(s[..|s| - 1], d);
      |prefix| <= |Kept(s, d)| && Kept(s, d)[..|prefix|] == prefix
  {
  }

  /** The last level seen is kept or covered by an earlier kept one. */
  lemma KeptCoversLast(s: seq<Level>, d: real)
    requires |s| > 1
    ensures Covered(s[|s| - 1], Kept(s, d), d)
  {
    var n := |s| - 1;
    var prefix := Kept(s[..n], d);
    var r := Kept(s, d);
    if FarFromAll(s[n], prefix, d) {
      assert r == prefix + [s[n]];
      assert r[|r| - 1] == s[n];
    } else {
      assert r == prefix;
      var m :| 0 <= m < |prefix| && Abs(s[n].price - prefix[m].price) < d;
    }
  }

  /** Covering survives extending the covering list, for a whole list of
      levels at once. */
  lemma CoveredAllExtend(xs: seq<Level>, prefix: seq<Level>, r: seq<Level>, d: real)
    requires forall k :: 0 <= k < |xs| ==> Covered(xs[k], prefix, d)
    requires |prefix| <= |r| && r[..|prefix|] == prefix
    ensures forall k :: 0 <= k < |xs| ==> Covered(xs[k], r, d)
  {
    forall k | 0 <= k < |xs| ensures Covered(xs[k], r, d) {
      CoveredExtend(xs[k], prefix, r, d);
    }
  }

  /** Every dropped level is closer than `d` to some kept level. */
  lemma {:induction false} KeptMaximal(s: seq<Level>, d: real)
    ensures forall k :: 0 <= k < |s| ==> Covered(s[k], Kept(s, d), d)
  {
    if |s| == 1 {
      assert s[0] in Kept(s, d);
    } else if |s| > 1 {
      var n := |s| - 1;
      var front := s[..n];
      var r := Kept(s, d);
      KeptMaximal(front, d);
      KeptExtends(s, d);
      KeptCoversLast(s, d);
      CoveredAllExtend(front, Kept(front, d), r, d);
      assert forall k :: 0 <= k < n ==> s[k] == front[k];
    }
  }

  /** _filter_close_levels on its whole input. */
  function Filtered(s: seq<Level>, percent: real): seq<Level>
  {
    if s == [] then [] else Kept(s, MinSeparation(s, percent))
  }

  /** The levels detect_support_levels returns for a table: the filtered
      candidates, strongest first, equal strengths in scan order. */
  function Detected(f: Frame, minTouches: int, percent: real): seq<Level>
    requires Scorable(f, minTouches)
  {
    SortBy(Filtered(Candidates(f, minTouches, ScanEnd(f)), percent), StrengthKey)
  }

  /** Every detected level is the record of a qualifying local minimum of
      the scan range, and the levels come strongest first. */
  lemma DetectedSound(f: Frame, minTouches: int, percent: real)
    requires Scorable(f, minTouches)
    ensures forall l :: l in Detected(f, minTouches, percent) ==> exists i: nat :: FoundAt(f, minTouches, i, l)
    ensures var r := Detected(f, minTouches, percent);
      forall a, b :: 0 <= a < b < |r| ==> r[a].strength >= r[b].strength
  {
    var c := Candidates(f, minTouches, ScanEnd(f));
    var kept := Filtered(c, percent);
    var r := Detected(f, minTouches, percent);
    assert r == SortBy(kept, StrengthKey);
    SortBySorted(kept, StrengthKey);
    SortByPermutes(kept, StrengthKey);
    CandidatesSound(f, minTouches, ScanEnd(f));
    if c != [] {
      KeptSubsequence(c, MinSeparation(c, percent));
    }
    SubsequenceMembers(kept, c);
    forall l | l in r ensures exists i: nat :: FoundAt(f, minTouches, i, l) {
      assert l in multiset(kept);
      assert l in c;
      var i: nat :| i < ScanEnd(f) && FoundAt(f, minTouches, i, l);
    }
  }

  /** Any two detected levels are at least the minimum separation of the
      candidates apart. */
  lemma DetectedSeparated(f: Frame, minTouches: int, percent: real)
    requires Scorable(f, minTouches)
    requires Candidates(f, minTouches, ScanEnd(f)) != []
    ensures var d := MinSeparation(Candidates(f, minTouches, ScanEnd(f)), percent);
      var r := Detected(f, minTouches, percent);
      forall a, b :: 0 <= a < b < |r| ==> Abs(r[a].price - r[b].price) >= d
  {
    var c := Candidates(f, minTouches, ScanEnd(f));
    var d := MinSeparation(c, percent);
    KeptSeparated(c, d);
    var related := (x: Level, y: Level) => Abs(x.price - y.price) >= d;
    forall x: Level, y: Level ensures related(x, y) == related(y, x) {
      assert Abs(x.price - y.price) == Abs(y.price - x.price);
    }
    assert Pairwise(Kept(c, d), related);
    SortByPairwise(Kept(c, d), StrengthKey, related);
  }

  /** A level the greedy pass saw is kept or closer than `d` to a kept level. */
  lemma KeptCovers(c: seq<Level>, d: real, x: Level)
    requires x in c
    ensures Covered(x, Kept(c, d), d)
  {
    KeptMaximal(c, d);
    var k :| 0 <= k < |c| && c[k] == x;
  }

  /** ... and so it is, after sorting, present or closer than `d` to a
      present level. */
  lemma SortedKeptCovers(c: seq<Level>, d: real, x: Level)
    requires x in c
    ensures var r := SortBy(Kept(c, d), StrengthKey);
      x in r || exists m :: 0 <= m < |r| && Abs(x.price - r[m].price) < d
  {
    var kept := Kept(c, d);
    var r := SortBy(kept, StrengthKey);
    KeptCovers(c, d, x);
    SortByMembers(kept, StrengthKey, x);
    if x !in kept {
      var m :| 0 <= m < |kept| && Abs(x.price - kept[m].price) < d;
      SortByMembers(kept, StrengthKey, kept[m]);
      var m' :| 0 <= m' < |r| && r[m'] == kept[m];
    }
  }

  /** Every candidate (so, by CandidatesComplete, every qualifying local
      minimum) is either reported or closer than the minimum separation to
      a reported level. */
  lemma DetectedCovers(f: Frame, minTouches: int, percent: real)
    requires Scorable(f, minTouches)
    ensures var c := Candidates(f, minTouches, ScanEnd(f));
      var r := Detected(f, minTouches, percent);
      forall x :: x in c ==> x in r || exists m :: 0 <= m < |r| && Abs(x.price - r[m].price) < MinSeparation(c, percent)
  {
    var c := Candidates(f, minTouches, ScanEnd(f));
    if c != [] {
      var d := MinSeparation(c, percent);
      var r := Detected(f, minTouches, percent);
      assert r == SortBy(Kept(c, d), StrengthKey);
      forall x | x in c ensures x in r || exists m :: 0 <= m < |r| && Abs(x.price - r[m].price) < d {
        SortedKeptCovers(c, d, x);
      }
    }
  }

  /** With non-negative volumes and positive lows, every detected strength
      lies between 70 and 100. */
  lemma DetectedStrengthRange(f: Frame, minTouches: int, percent: real)
    requires Scorable(f, minTouches)
    requires forall k :: 0 <= k < |f.volumes| ==> f.volumes[k] >= 0.0
    requires forall k :: 0 <= k < |f.lows| ==> f.lows[k] > 0.0
    ensures forall k :: 0 <= k < |Detected(f, minTouches, percent)| ==>
      70.0 <= Detected(f, minTouches, percent)[k].strength <= 100.0
  {
    DetectedSound(f, minTouches, percent);
    var r := Detected(f, minTouches, percent);
    forall k | 0 <= k < |r| ensures 70.0 <= r[k].strength <= 100.0 {
      assert r[k] in r;
      var i: nat :| FoundAt(f, minTouches, i, r[k]);
      CandidateStrengthRange(f.lows, f.volumes, i, minTouches);
    }
  }

  /** One more index of the scan range appends its record when it
      qualifies, and nothing otherwise. */
  lemma CandidatesStep(f: Frame, minTouches: int, i: nat)
    requires Scorable(f, minTouches)
    requires Window <= i && i + Window < |f.lows|
    ensures Qualifies(f, minTouches, i) ==>
      Candidates(f, minTouches, i + 1) == Candidates(f, minTouches, i) + [CandidateAt(f, minTouches, i)]
    ensures !Qualifies(f, minTouches, i) ==> Candidates(f, minTouches, i + 1) == Candidates(f, minTouches, i)
  {
    assert Keep(f, minTouches)(i) == Qualifies(f, minTouches, i);
    if Qualifies(f, minTouches, i) {
      assert Build(f, minTouches)(i) == CandidateAt(f, minTouches, i);
    }
  }

  /** One qualifying index of the scan range is enough for a candidate. */
  lemma QualifyingMeansCandidates(f: Frame, minTouches: int, i: nat)
    requires Scorable(f, minTouches)
    requires Window <= i && i + Window < |f.lows| && Qualifies(f, minTouches, i)
    ensures Candidates(f, minTouches, ScanEnd(f)) != []
  {
    CandidatesStep(f, minTouches, i);
    ScanMonotone(Window, i + 1, ScanEnd(f), Keep(f, minTouches), Build(f, minTouches));
  }

  /** The scan loop of detect_support_levels: one record per qualifying
      local minimum of range(Window, len - Window), in index order. */
  method FindCandidates(f: Frame, minTouches: int) returns (potential: seq<Level>)
    requires Scorable(f, minTouches)
    ensures potential == Candidates(f, minTouches, ScanEnd(f))
  {
    var lows := f.lows;
    potential := [];
    var i := Window;
    while i < |lows| - Window
      invariant Window <= i && (i == Window || i <= ScanEnd(f))
      invariant potential == Candidates(f, minTouches, i)
    {
      CandidatesStep(f, minTouches, i);
      var found := CandidateOfIndex(f, minTouches, i);
      if found.Some? {
        potential := potential + [found.value];
      }
      i := i + 1;
    }
    assert Candidates(f, minTouches, i) == Candidates(f, minTouches, ScanEnd(f));
  }

  /** One turn of the scan loop: the record of index `i` when its low is a
      local minimum touched at least min_touches times. */
  method CandidateOfIndex(f: Frame, minTouches: int, i: nat) returns (found: Option<Level>)
    requires Scorable(f, minTouches)
    requires Window <= i && i + Window < |f.lows|
    ensures found.Some? <==> Qualifies(f, minTouches, i)
    ensures found.Some? ==> found.value == CandidateAt(f, minTouches, i)
  {
    var lows := f.lows;
    if IsLocalMinimum(lows, i, Window) {
      var priceLevel := lows[i];
      var touches := CountTouches(lows, priceLevel);
      if touches >= minTouches {
        assert Qualifies(f, minTouches, i);
        var strength := Strength(lows, f.volumes, priceLevel, i, minTouches);
        var lastTest := FindLastTest(lows, f.timestamps, priceLevel);
        return Some(Level(priceLevel, strength, touches, lastTest, None, false));
      }
    }
    return None;
  }

  /** The scan loop as written. At a qualifying index the candidate's last
      test is formatted with `isoformat`, which raises (`raised`): the
      table's timestamps are numpy values, which have no such method. The
      `else None` arm of that expression is never taken, since the index's
      own low lies in its band at least min_touches >= 1 times. So the loop
      raises exactly when the table has a candidate. */
  method FindCandidatesAsWritten(f: Frame, minTouches: int) returns (raised: bool)
    requires Scorable(f, minTouches)
    ensures raised <==> Candidates(f, minTouches, ScanEnd(f)) != []
  {
    var lows := f.lows;
    var i := Window;
    while i < |lows| - Window
      invariant Window <= i && (i == Window || i <= ScanEnd(f))
      invariant Candidates(f, minTouches, i) == []
    {
      CandidatesStep(f, minTouches, i);
      if IsLocalMinimum(lows, i, Window) {
        var priceLevel := lows[i];
        var touches := CountTouches(lows, priceLevel);
        if touches >= minTouches {
          var lastTest := FindLastTest(lows, f.timestamps, priceLevel);
          LastTestIffTouched(lows, f.timestamps, priceLevel);
          assert lastTest.Some?;
          QualifyingMeansCandidates(f, minTouches, i);
          return true;
        }
      }
      i := i + 1;
    }
    assert Candidates(f, minTouches, i) == Candidates(f, minTouches, ScanEnd(f));
    raised := false;
  }

  /** The three demonstration levels returned for an uncached symbol when no
      table is given, tested now, two days ago and five days ago. */
  function MockLevels(now: int): (r: seq<Level>)
    ensures |r| == 3
    ensures forall i, j :: 0 <= i < j < |r| ==> r[i].strength > r[j].strength && r[i].price > r[j].price
    ensures forall i :: 0 <= i < |r| ==> r[i].lastTest.Some? && r[i].lastTest.value <= now
  {
    [Level(20000.0, 85.5, 7, Some(now), None, false),
     Level(19500.0, 75.2, 5, Some(now - 2 * MicrosPerDay), None, false),
     Level(19000.0, 65.8, 4, Some(now - 5 * MicrosPerDay), None, false)]
  }

  /** The detector with its thresholds and the per-symbol level cache and
      detection times. */
  class SupportDetector {
    var minTouches: int
    var minDistancePercent: real
    var supportLevels: map<string, seq<Level>>
    var lastUpdate: map<string, int>

    constructor (minTouches: int, minDistancePercent: real)
      ensures this.minTouches == minTouches && this.minDistancePercent == minDistancePercent
      ensures supportLevels == map[] && lastUpdate == map[]
    {
      this.minTouches := minTouches;
      this.minDistancePercent := minDistancePercent;
      supportLevels := map[];
      lastUpdate := map[];
    }

    /** detect_support_levels. Without a table: the cached levels, or the
        demonstration levels, with the cache untouched. With a table: the
        detection, which becomes the symbol's cache entry, stamped `now`. */
    method DetectSupportLevels(symbol: string, df: Option<Frame>, now: int) returns (levels: seq<Level>)
      requires df.Some? ==> Scorable(df.value, minTouches)
      modifies this`supportLevels, this`lastUpdate
      ensures df.None? ==> supportLevels == old(supportLevels) && lastUpdate == old(lastUpdate)
      ensures df.None? && symbol in supportLevels ==> levels == supportLevels[symbol]
      ensures df.None? && symbol !in supportLevels ==> levels == MockLevels(now)
      ensures df.Some? ==> levels == Detected(df.value, minTouches, minDistancePercent)
      ensures df.Some? ==> supportLevels == old(supportLevels)[symbol := levels]
      ensures df.Some? ==> lastUpdate == old(lastUpdate)[symbol := now]
      ensures df.Some? ==> CachedLevels(symbol) == levels
      ensures forall s :: s != symbol ==> CachedLevels(s) == old(CachedLevels(s))
    {
      if df.None? {
        if symbol in supportLevels {
          return supportLevels[symbol];
        }
        return MockLevels(now);
      }
      var potential := FindCandidates(df.value, minTouches);
      var filtered := FilterCloseLevels(potential);
      levels := SortBy(filtered, StrengthKey);
      supportLevels := supportLevels[symbol := levels];
      lastUpdate := lastUpdate[symbol := now];
    }

    /** detect_support_levels as written. Each candidate's last test is
        formatted with `isoformat`, but the table's timestamps are numpy
        values, which have no such method, so the first candidate raises.
        None stands for that error: nothing is returned and neither cache
        changes. Every candidate has a last test (CandidatesTested), so a
        table yields a result only when it has no candidate at all. */
    method DetectSupportLevelsAsWritten(symbol: string, df: Option<Frame>, now: int) returns (levels: Option<seq<Level>>)
      requires df.Some? ==> Scorable(df.value, minTouches)
      modifies this`supportLevels, this`lastUpdate
      ensures df.None? ==> supportLevels == old(supportLevels) && lastUpdate == old(lastUpdate)
      ensures df.None? && symbol in supportLevels ==> levels == Some(supportLevels[symbol])
      ensures df.None? && symbol !in supportLevels ==> levels == Some(MockLevels(now))
      ensures df.Some? && Candidates(df.value, minTouches, ScanEnd(df.value)) != [] ==>
        levels.None? && supportLevels == old(supportLevels) && lastUpdate == old(lastUpdate)
      ensures df.Some? && Candidates(df.value, minTouches, ScanEnd(df.value)) == [] ==>
        && levels == Some(Detected(df.value, minTouches, minDistancePercent)) && levels == Some([])
        && supportLevels == old(supportLevels)[symbol := []] && lastUpdate == old(lastUpdate)[symbol := now]
    {
      if df.None? {
        var cached := DetectSupportLevels(symbol, None, now);
        return Some(cached);
      }
      var raised := FindCandidatesAsWritten(df.value, minTouches);
      if raised {
        return None;
      }
      // Without a raise the scan found no candidate.
      var potential: seq<Level> := [];
      var filtered := FilterCloseLevels(potential);
      var sorted := SortBy(filtered, StrengthKey);
      supportLevels := supportLevels[symbol := sorted];
      lastUpdate := lastUpdate[symbol := now];
      return Some(sorted);
    }

    /** _filter_close_levels: keeps the first level, then each level at
        least the minimum separation away from all kept so far. */
    method FilterCloseLevels(supports: seq<Level>) returns (filtered: seq<Level>)
      ensures filtered == Filtered(supports, minDistancePercent)
      ensures supports == [] <==> filtered == []
      ensures supports != [] ==> filtered[0] == supports[0]
      ensures Subsequence(filtered, supports)
      ensures supports != [] ==> forall i, j :: 0 <= i < j < |filtered| ==>
        Abs(filtered[i].price - filtered[j].price) >= MinSeparation(supports, minDistancePercent)
    {
      if supports == [] {
        return [];
      }
      filtered := [supports[0]];
      var minDistance := MinSeparation(supports, minDistancePercent);
      var i := 1;
      while i < |supports|
        invariant 1 <= i <= |supports|
        invariant filtered == Kept(supports[..i], minDistance)
      {
        var support := supports[i];
        if FarFromAll(support, filtered, minDistance) {
          filtered := filtered + [support];
        }
        assert supports[..i + 1][..i] == supports[..i];
        i := i + 1;
      }
      assert supports[..i] == supports;
      KeptFirst(supports, minDistance);
      KeptSubsequence(supports, minDistance);
      KeptSeparated(supports, minDistance);
    }

    /** get_cached_levels: the stored levels of a symbol, or none for a
        symbol never detected. */
    function CachedLevels(symbol: string): (r: seq<Level>)
      reads this
      ensures symbol in supportLevels ==> r == supportLevels[symbol]
      ensures symbol !in supportLevels ==> r == []
    {
      if symbol in supportLevels then supportLevels[symbol] else []
    }
  }

  /** On the flat table the as-written detection raises and caches nothing. */
  method FlatTableRaisesAsWritten(now: int) returns (levels: Option<seq<Level>>)
    ensures levels.None?
  {
    var detector := new SupportDetector(3, 0.5);
    FlatTableHasCandidates();
    levels := detector.DetectSupportLevelsAsWritten("BTCUSDT", Some(FlatTable()), now);
  }

  /** On the flat table the corrected detection reports a level. */
  lemma FlatTableDetectedNonEmpty()
    ensures Scorable(FlatTable(), 3) && Detected(FlatTable(), 3, 0.5) != []
  {
    FlatTableHasCandidates();
    var c := Candidates(FlatTable(), 3, ScanEnd(FlatTable()));
    KeptFirst(c, MinSeparation(c, 0.5));
    SortByCorrect(Filtered(c, 0.5), StrengthKey);
  }

  /** On the flat table the corrected detection reports a level and caches
      exactly what it reports. */
  method FlatTableDetected(now: int) returns (levels: seq<Level>, cached: seq<Level>)
    ensures levels != [] && cached == levels
  {
    var detector := new SupportDetector(3, 0.5);
    FlatTableDetectedNonEmpty();
    levels := detector.DetectSupportLevels("BTCUSDT", Some(FlatTable()), now);
    cached := detector.CachedLevels("BTCUSDT");
  }
}

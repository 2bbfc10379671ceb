/** The dashboard's support-level engine (frontend/static/js/support.js): the
    single `supportState` record, the per-level distance and activity
    analytics, the sorted view handed to the card renderer, the active-level
    badge and the relative-time label. Rendering is reduced to the value the
    renderer is given. */
module SupportEngine {
  import opened Domain
  import opened Sequences
  import ChartOverlay

  /** supportState.activeThreshold: a level within this many percent of the
      price is active. It is never changed. */
  const ActiveThreshold: real := 3.0

  /** Signed percentage from the current price to a level (positive above). */
  function RawDistance(levelPrice: real, current: real): real
    requires current != 0.0
  {
    (levelPrice - current) / current * 100.0
  }

  /** One level after calculateDistances: distance rounded to two decimals,
      activity decided on the unrounded distance. */
  function WithDistance(l: Level, current: real): Level
    requires current != 0.0
  {
    var raw := RawDistance(l.price, current);
    l.(distance := Some(Round2(raw)), isActive := Abs(raw) <= ActiveThreshold)
  }

  function Annotated(ls: seq<Level>, current: real): (r: seq<Level>)
    requires current != 0.0
    ensures |r| == |ls|
    ensures forall i :: 0 <= i < |ls| ==> r[i] == WithDistance(ls[i], current)
  {
    seq(|ls|, i requires 0 <= i < |ls| => WithDistance(ls[i], current))
  }

  /** Every annotated level keeps its price, strength, touches and last test,
      carries the rounded distance, and is active exactly when the unrounded
      distance is within the threshold. */
  lemma AnnotatedLevels(ls: seq<Level>, current: real)
    requires current != 0.0
    ensures forall i :: 0 <= i < |ls| ==>
      var r := Annotated(ls, current)[i];
      && r.price == ls[i].price && r.strength == ls[i].strength
      && r.touches == ls[i].touches && r.lastTest == ls[i].lastTest
      && r.distance == Some(Round2((ls[i].price - current) / current * 100.0))
      && (r.isActive <==> -3.0 <= (ls[i].price - current) / current * 100.0 <= 3.0)
  {
  }

  /** An active level never shows a rounded distance beyond the threshold. */
  lemma ActiveMeansRoundedWithinThreshold(l: Level, current: real)
    requires current != 0.0
    requires WithDistance(l, current).isActive
    ensures Abs(WithDistance(l, current).distance.value) <= ActiveThreshold
  {
    Round2Within(RawDistance(l.price, current), -300, 300);
  }

  /** The converse fails: activity is decided before rounding, so a level
      0.004 % beyond the threshold shows a distance of exactly 3.00 and is
      still inactive. */
  lemma ActiveUsesUnroundedDistance()
    ensures var l := WithDistance(Level(103.004, 50.0, 3, None, None, false), 100.0);
      l.distance == Some(3.0) && !l.isActive
  {
    var raw := RawDistance(103.004, 100.0);
    assert raw == 3.004;
    assert (raw * 100.0 + 0.5).Floor == 300;
  }

  /** The sort orders selectable in the dropdown; any other value leaves the
      levels in their stored order. */
  datatype SortKind = ByStrength | ByPrice | ByDistance | ByRecent | Unrecognised

  function SortKindOf(value: string): SortKind
  {
    if value == "strength" then ByStrength
    else if value == "price" then ByPrice
    else if value == "distance" then ByDistance
    else if value == "recent" then ByRecent
    else Unrecognised
  }

  /** Milliseconds of the last test, with a never-tested level at the epoch. */
  function LastTestMillis(l: Level): int
  {
    match l.lastTest
    case None => 0
    case Some(t) => t
  }

  // Each comparator of the source, as an ascending sort key.
  function PriceKey(l: Level): real { -l.price }
  function DistanceKey(l: Level): real
  {
    match l.distance
    case None => 0.0
    case Some(d) => Abs(d)
  }
  function RecentKey(l: Level): real { -(LastTestMillis(l) as real) }

  function KeyOf(kind: SortKind): Level -> real
  {
    match kind
    case ByStrength => StrengthKey
    case ByPrice => PriceKey
    case ByDistance => DistanceKey
    case ByRecent => RecentKey
    case Unrecognised => (l: Level) => 0.0
  }

  /** Sorting by distance is well defined when every level has a distance,
      or when none has (every comparison is then NaN, which counts as equal). */
  predicate DistancesUniform(ls: seq<Level>)
  {
    (forall i :: 0 <= i < |ls| ==> ls[i].distance.Some?) ||
    (forall i :: 0 <= i < |ls| ==> ls[i].distance.None?)
  }

  /** What ascending order by each comparator's key means for the levels. */
  lemma SortedByKindMeans(r: seq<Level>, kind: SortKind)
    requires kind != Unrecognised && SortedBy(r, KeyOf(kind))
    ensures kind == ByStrength ==> forall i, j :: 0 <= i < j < |r| ==> r[i].strength >= r[j].strength
    ensures kind == ByPrice ==> forall i, j :: 0 <= i < j < |r| ==> r[i].price >= r[j].price
    ensures kind == ByDistance && (forall i :: 0 <= i < |r| ==> r[i].distance.Some?) ==>
      forall i, j :: 0 <= i < j < |r| ==> Abs(r[i].distance.value) <= Abs(r[j].distance.value)
    ensures kind == ByRecent ==> forall i, j :: 0 <= i < j < |r| ==> LastTestMillis(r[i]) >= LastTestMillis(r[j])
  {
    var key := KeyOf(kind);
    forall i, j | 0 <= i < j < |r| ensures key(r[i]) <= key(r[j]) { }
  }

  /** The view sortAndRenderSupportLevels hands to the renderer: a stably
      sorted copy of the levels. */
  function SortLevels(levels: seq<Level>, sortType: string): (r: seq<Level>)
    requires SortKindOf(sortType) == ByDistance ==> DistancesUniform(levels)
    ensures multiset(r) == multiset(levels) && |r| == |levels|
    ensures SortKindOf(sortType) == ByStrength ==>
      forall i, j :: 0 <= i < j < |r| ==> r[i].strength >= r[j].strength
    ensures SortKindOf(sortType) == ByPrice ==>
      forall i, j :: 0 <= i < j < |r| ==> r[i].price >= r[j].price
    ensures SortKindOf(sortType) == ByDistance && (forall i :: 0 <= i < |levels| ==> levels[i].distance.Some?) ==>
      && (forall i :: 0 <= i < |r| ==> r[i].distance.Some?)
      && forall i, j :: 0 <= i < j < |r| ==> Abs(r[i].distance.value) <= Abs(r[j].distance.value)
    ensures SortKindOf(sortType) == ByDistance && (forall i :: 0 <= i < |levels| ==> levels[i].distance.None?) ==>
      r == levels
    ensures SortKindOf(sortType) == ByRecent ==>
      forall i, j :: 0 <= i < j < |r| ==> LastTestMillis(r[i]) >= LastTestMillis(r[j])
    ensures SortKindOf(sortType) == Unrecognised ==> r == levels
    ensures SortKindOf(sortType) != Unrecognised ==>
      forall k :: WithKey(r, KeyOf(SortKindOf(sortType)), k) == WithKey(levels, KeyOf(SortKindOf(sortType)), k)
  {
    var kind := SortKindOf(sortType);
    if kind == Unrecognised then levels
    else
      var key := KeyOf(kind);
      SortByCorrect(levels, key);
      var r := SortBy(levels, key);
      assert kind == ByDistance && (forall i :: 0 <= i < |levels| ==> levels[i].distance.None?) ==> r == levels by {
        if kind == ByDistance && (forall i :: 0 <= i < |levels| ==> levels[i].distance.None?) {
          SortByConstantKey(levels, key, 0.0);
        }
      }
      assert kind == ByDistance && (forall i :: 0 <= i < |levels| ==> levels[i].distance.Some?) ==>
        forall i :: 0 <= i < |r| ==> r[i].distance.Some? by {
        if kind == ByDistance {
          forall i | 0 <= i < |r| ensures (forall i :: 0 <= i < |levels| ==> levels[i].distance.Some?) ==> r[i].distance.Some? {
            assert r[i] in multiset(levels);
          }
        }
      }
      SortedByKindMeans(r, kind);
      r
  }

  /** The number of levels with isActive set. */
  function CountActive(ls: seq<Level>): (n: nat)
    ensures n <= |ls|
  {
    if ls == [] then 0
    else (if ls[0].isActive then 1 else 0) + CountActive(ls[1..])
  }

  /** The count is zero exactly when no level is active, and the full length
      exactly when every level is. */
  lemma {:induction false} CountActiveExtremes(ls: seq<Level>)
    ensures CountActive(ls) == 0 <==> forall i :: 0 <= i < |ls| ==> !ls[i].isActive
    ensures CountActive(ls) == |ls| <==> forall i :: 0 <= i < |ls| ==> ls[i].isActive
  {
    if ls != [] {
      CountActiveExtremes(ls[1..]);
      assert forall i :: 1 <= i < |ls| ==> ls[i] == ls[1..][i - 1];
    }
  }

  lemma {:induction false} CountActiveAppend(a: seq<Level>, b: seq<Level>)
    ensures CountActive(a + b) == CountActive(a) + CountActive(b)
  {
    if a == [] {
      assert a + b == b;
    } else {
      CountActiveAppend(a[1..], b);
      assert (a + b)[0] == a[0];
      assert (a + b)[1..] == a[1..] + b;
    }
  }

  lemma {:induction false} CountActiveRemove(b: seq<Level>, m: nat)
    requires m < |b|
    ensures CountActive(b) == (if b[m].isActive then 1 else 0) + CountActive(b[..m] + b[m + 1..])
  {
    var p, q := b[..m], b[m + 1..];
    assert b == p + ([b[m]] + q);
    assert [b[m]][1..] == [];
    CountActiveAppend(p, [b[m]] + q);
    CountActiveAppend([b[m]], q);
    CountActiveAppend(p, q);
  }

  lemma MultisetRemove<T>(a: seq<T>, b: seq<T>, m: nat)
    requires a != [] && m < |b| && b[m] == a[0]
    requires multiset(a) == multiset(b)
    ensures multiset(a[1..]) == multiset(b[..m] + b[m + 1..])
  {
    var p, q := b[..m], b[m + 1..];
    assert b == p + [b[m]] + q;
    assert a == [a[0]] + a[1..];
    calc {
      multiset(a[1..]);
      multiset(a) - multiset{a[0]};
      multiset(b) - multiset{b[m]};
      multiset(p + [b[m]] + q) - multiset{b[m]};
      multiset(p) + multiset(q);
      multiset(p + q);
    }
  }

  /** The count depends only on which levels there are, not on their
      order: the sorted view has the same number of active levels. */
  lemma {:induction false} CountActivePermutation(a: seq<Level>, b: seq<Level>)
    requires multiset(a) == multiset(b)
    ensures CountActive(a) == CountActive(b)
    decreases |a|
  {
    if a == [] {
      assert |multiset(b)| == 0;
    } else {
      assert a[0] in multiset(b);
      var m :| 0 <= m < |b| && b[m] == a[0];
      MultisetRemove(a, b, m);
      CountActivePermutation(a[1..], b[..m] + b[m + 1..]);
      CountActiveRemove(b, m);
    }
  }

  /** The badge colour of the active count. */
  datatype Badge = Gray | Blue | Green

  function BadgeFor(count: nat): (b: Badge)
    ensures b == Gray <==> count == 0
    ensures b == Blue <==> 1 <= count <= 2
    ensures b == Green <==> count >= 3
  {
    if count == 0 then Gray else if count >= 3 then Green else Blue
  }

  /** What the card area shows after an update. */
  datatype Display =
    | EmptyView
    | LevelsView(cards: seq<Level>, activeCount: nat, badge: Badge)

  /** formatTimeAgo's units, largest first, with their length in seconds. */
  datatype TimeUnit = Year | Month | Week | Day | Hour | Minute | Second

  function UnitSeconds(u: TimeUnit): (s: int)
    ensures s >= 1
  {
    match u
    case Year => 31536000
    case Month => 2592000
    case Week => 604800
    case Day => 86400
    case Hour => 3600
    case Minute => 60
    case Second => 1
  }

  const Units: seq<TimeUnit> := [Year, Month, Week, Day, Hour, Minute, Second]

  /** A last-test value: falsy, a string Date cannot parse, or a time in
      milliseconds. */
  datatype Stamp = Missing | Unparseable | At(millis: int)

  datatype TimeAgo = Never | InvalidDate | Ago(count: int, unit: TimeUnit) | JustNow

  /** Whole seconds elapsed, rounded down (Dafny's division rounds down for a
      positive divisor, as Math.floor does). */
  function ElapsedSeconds(stamp: int, now: int): int
  {
    (now - stamp) / 1000
  }

  lemma DivAtLeastOne(x: int, d: int)
    requires d >= 1
    ensures x / d >= 1 <==> x >= d
  {
  }

  /** Position of a unit in Units. */
  function Rank(u: TimeUnit): (k: nat)
    ensures k < |Units| && Units[k] == u
  {
    match u
    case Year => 0
    case Month => 1
    case Week => 2
    case Day => 3
    case Hour => 4
    case Minute => 5
    case Second => 6
  }

  /** Units is ordered from the longest to the shortest. */
  lemma RankOrder(u: TimeUnit, v: TimeUnit)
    ensures UnitSeconds(v) > UnitSeconds(u) <==> Rank(v) < Rank(u)
  {
  }

  /** formatTimeAgo: the first unit, from years down to seconds, of which at
      least one whole unit has elapsed — that is, the largest unit not
      longer than the elapsed time — and "Just now" when less than a second
      (or a negative time) has elapsed. */
  method FormatTimeAgo(timestamp: Stamp, now: int) returns (r: TimeAgo)
    ensures r == Never <==> timestamp == Missing
    ensures r == InvalidDate <==> timestamp == Unparseable
    ensures timestamp.At? ==> (r == JustNow <==> ElapsedSeconds(timestamp.millis, now) < 1)
    ensures r.Ago? ==> timestamp.At?
    ensures r.Ago? && timestamp.At? ==>
      var diff := ElapsedSeconds(timestamp.millis, now);
      && r.count == diff / UnitSeconds(r.unit)
      && 1 <= r.count
      && UnitSeconds(r.unit) <= diff
      && forall u :: UnitSeconds(u) > UnitSeconds(r.unit) ==> diff < UnitSeconds(u)
  {
    if timestamp.Missing? {
      return Never;
    }
    if timestamp.Unparseable? {
      return InvalidDate;
    }
    var diff := ElapsedSeconds(timestamp.millis, now);
    var i := 0;
    while i < |Units|
      invariant 0 <= i <= |Units|
      invariant forall j :: 0 <= j < i ==> diff < UnitSeconds(Units[j])
    {
      var interval := diff / UnitSeconds(Units[i]);
      DivAtLeastOne(diff, UnitSeconds(Units[i]));
      if interval >= 1 {
        var u := Units[i];
        assert Rank(u) == i;
        forall v: TimeUnit | UnitSeconds(v) > UnitSeconds(u) ensures diff < UnitSeconds(v) {
          RankOrder(u, v);
        }
        return Ago(interval, u);
      }
      i := i + 1;
    }
    assert diff < UnitSeconds(Units[6]);
    return JustNow;
  }

  class SupportState {
    var levels: seq<Level>
    var sortType: string
    var currentPrice: real
    var visibleOnChart: bool

    constructor ()
      ensures levels == [] && sortType == "strength" && currentPrice == 0.0 && visibleOnChart
    {
      levels := [];
      sortType := "strength";
      currentPrice := 0.0;
      visibleOnChart := true;
    }

    /** calculateDistances: annotates every stored level, in place, against
        the stored price. */
    method CalculateDistances()
      requires currentPrice != 0.0
      modifies this`levels
      ensures levels == Annotated(old(levels), currentPrice)
    {
      var i := 0;
      while i < |levels|
        invariant 0 <= i <= |levels| == |old(levels)|
        invariant forall j :: 0 <= j < i ==> levels[j] == WithDistance(old(levels)[j], currentPrice)
        invariant forall j :: i <= j < |levels| ==> levels[j] == old(levels)[j]
      {
        levels := levels[i := WithDistance(levels[i], currentPrice)];
        i := i + 1;
      }
    }

    /** updateSupportLevels: a missing or non-array list shows the empty
        state and changes nothing. Otherwise the list replaces the stored one
        as it is; a truthy price is stored and every level annotated against
        it; an empty list shows the empty state; a non-empty one shows the
        sorted cards with the active count and badge and, when supports are
        visible on the chart, redraws the chart's bands from the levels. */
    method UpdateSupportLevels(input: Option<seq<Level>>, price: Option<real>, chart: ChartOverlay.Chart)
        returns (view: Display)
      requires chart.Valid()
      requires input.Some? && SortKindOf(sortType) == ByDistance && !Truthy(price) ==>
        DistancesUniform(input.value)
      modifies this`levels, this`currentPrice, chart`traces, chart`supports
      ensures chart.Valid()
      ensures sortType == old(sortType) && visibleOnChart == old(visibleOnChart)
      ensures chart.present == old(chart.present) && chart.showSupports == old(chart.showSupports)
      ensures chart.price == old(chart.price) && chart.xRange == old(chart.xRange)
      ensures chart.showVolume == old(chart.showVolume)
      ensures input.None? ==>
        view == EmptyView && levels == old(levels) && currentPrice == old(currentPrice)
      ensures input.Some? ==>
        && currentPrice == (if Truthy(price) then price.value else old(currentPrice))
        && levels == (if Truthy(price) then Annotated(input.value, price.value) else input.value)
      ensures input.Some? && levels != [] ==>
        view == LevelsView(SortLevels(levels, sortType), CountActive(levels), BadgeFor(CountActive(levels)))
      ensures input.None? || levels == [] ==> view == EmptyView
      ensures input.Some? && levels != [] && visibleOnChart && old(chart.present) && old(chart.showSupports) ==>
        chart.traces == ChartOverlay.Redraw(old(chart.traces), levels) && chart.supports == levels
      ensures !(input.Some? && levels != [] && visibleOnChart && old(chart.present) && old(chart.showSupports)) ==>
        chart.traces == old(chart.traces) && chart.supports == old(chart.supports)
    {
      if input.None? {
        return EmptyView;
      }
      levels := input.value;
      if Truthy(price) {
        currentPrice := price.value;
        CalculateDistances();
        assert forall i :: 0 <= i < |levels| ==> levels[i].distance.Some?;
      }
      if |levels| == 0 {
        return EmptyView;
      }
      var cards := SortLevels(levels, sortType);
      var count := CountActive(levels);
      view := LevelsView(cards, count, BadgeFor(count));
      if visibleOnChart {
        chart.UpdateChartSupports(Some(levels));
      }
    }

    /** The sort dropdown: records the new order and re-sorts the stored
        levels; the price and every distance and activity flag stay as they
        were. */
    method ChangeSortType(value: string) returns (cards: seq<Level>)
      requires SortKindOf(value) == ByDistance ==> DistancesUniform(levels)
      modifies this`sortType
      ensures sortType == value
      ensures cards == SortLevels(levels, value)
    {
      sortType := value;
      cards := SortLevels(levels, sortType);
    }

    /** toggleSupportsVisibility as written: showing redraws through
        updateChartSupports, hiding goes through hideChartSupports, which
        also switches the chart's own band setting off. */
    method ToggleSupportsVisibility(visible: bool, chart: ChartOverlay.Chart)
      requires chart.Valid()
      modifies this`visibleOnChart, chart`traces, chart`supports, chart`showSupports
      ensures chart.Valid() && visibleOnChart == visible
      ensures chart.present == old(chart.present) && chart.price == old(chart.price)
      ensures chart.xRange == old(chart.xRange) && chart.showVolume == old(chart.showVolume)
      ensures visible ==> chart.showSupports == old(chart.showSupports)
      ensures visible && old(chart.present) && old(chart.showSupports) ==>
        chart.traces == ChartOverlay.Redraw(old(chart.traces), levels) && chart.supports == levels
      ensures !(visible && old(chart.present) && old(chart.showSupports)) ==>
        chart.supports == old(chart.supports)
      ensures visible && !(old(chart.present) && old(chart.showSupports)) ==>
        chart.traces == old(chart.traces)
      ensures !visible ==> !chart.showSupports
      ensures !visible && old(chart.present) ==> chart.traces == old(chart.traces)[..2]
      ensures !visible && !old(chart.present) ==> chart.traces == old(chart.traces)
    {
      visibleOnChart := visible;
      if visible {
        chart.UpdateChartSupports(Some(levels));
      } else {
        chart.HideChartSupports();
      }
    }

    /** Hiding and then showing the supports through the as-written toggle
        leaves the chart without any band, although supports are visible
        again and there are levels to draw. */
    method HideThenShowAsWritten(chart: ChartOverlay.Chart)
      requires chart.Valid() && chart.present && levels != []
      modifies this`visibleOnChart, chart`traces, chart`supports, chart`showSupports
      ensures visibleOnChart && chart.present
      ensures chart.traces == old(chart.traces)[..2]
      ensures |chart.traces| == 2 < 2 + |levels|
    {
      ToggleSupportsVisibility(false, chart);
      ToggleSupportsVisibility(true, chart);
    }

    /** toggleSupportsVisibility as evidently intended: showing switches the
        chart's band setting back on before redrawing. */
    method ToggleSupportsVisibilityFixed(visible: bool, chart: ChartOverlay.Chart)
      requires chart.Valid()
      modifies this`visibleOnChart, chart`traces, chart`supports, chart`showSupports
      ensures chart.Valid() && visibleOnChart == visible
      ensures chart.present == old(chart.present) && chart.price == old(chart.price)
      ensures chart.xRange == old(chart.xRange) && chart.showVolume == old(chart.showVolume)
      ensures chart.showSupports == visible
      ensures visible && old(chart.present) ==>
        chart.traces == ChartOverlay.Redraw(old(chart.traces), levels) && chart.supports == levels
      ensures !(visible && old(chart.present)) ==> chart.supports == old(chart.supports)
      ensures !visible && old(chart.present) ==> chart.traces == old(chart.traces)[..2]
      ensures !old(chart.present) ==> chart.traces == old(chart.traces)
    {
      visibleOnChart := visible;
      if visible {
        chart.showSupports := true;
        chart.UpdateChartSupports(Some(levels));
      } else {
        chart.HideChartSupports();
      }
    }

    /** With the corrected toggle, hiding and then showing draws exactly one
        band per stored level again. */
    method HideThenShowFixed(chart: ChartOverlay.Chart)
      requires chart.Valid() && chart.present
      modifies this`visibleOnChart, chart`traces, chart`supports, chart`showSupports
      ensures visibleOnChart && chart.present && chart.showSupports
      ensures |chart.traces| == 2 + |levels|
      ensures chart.traces[..2] == old(chart.traces)[..2]
      ensures forall i :: 0 <= i < |levels| ==>
        chart.traces[2 + i].Band? && chart.traces[2 + i].y == [levels[i].price, levels[i].price]
    {
      ToggleSupportsVisibilityFixed(false, chart);
      ghost var hidden := chart.traces;
      ToggleSupportsVisibilityFixed(true, chart);
      ChartOverlay.RedrawShape(hidden, levels);
    }
  }

  /** The scenario of a price of 100 with levels at 103 (strength 90) and 95
      (strength 40): distances 3.00 and -5.00, only the first active, and the
      first ahead of the second both by distance and by strength. */
  lemma TwoLevelScenario()
    ensures var ls := Annotated([Level(103.0, 90.0, 0, None, None, false),
                                 Level(95.0, 40.0, 0, None, None, false)], 100.0);
      && ls[0].distance == Some(3.0) && ls[0].isActive
      && ls[1].distance == Some(-5.0) && !ls[1].isActive
      && SortLevels(ls, "distance") == ls
      && SortLevels(ls, "strength") == ls
      && CountActive(ls) == 1 && BadgeFor(CountActive(ls)) == Blue
  {
    var ls := Annotated([Level(103.0, 90.0, 0, None, None, false),
                         Level(95.0, 40.0, 0, None, None, false)], 100.0);
    assert RawDistance(103.0, 100.0) == 3.0;
    assert RawDistance(95.0, 100.0) == -5.0;
    Round2OfCents(300);
    Round2OfCents(500);
    Round2Odd(5.0);
    assert ls[0].distance == Some(3.0) && ls[1].distance == Some(-5.0);
    assert ls[1..] == [ls[1]];
    assert SortBy(ls[1..], DistanceKey) == [ls[1]];
    assert SortBy(ls[1..], StrengthKey) == [ls[1]];
    assert [ls[0]] + [ls[1]] == ls;
  }
}

/** The backend's support service (backend/services/support_service.py): a
    15-minute refresh clock per symbol in front of the detector, the
    distance of each level from the current price, the filter of levels near
    the price, and invalidation of the refresh clock. Clock readings are
    integer microseconds passed in as `now`. */
module SupportServicing {
  import opened Domain
  import opened Sequences
  import opened SupportDetection

  /** The refresh interval: 15 minutes. */
  const UpdateInterval: int := 15 * 60 * 1000000

  /** The default of max_distance, in percent. */
  const DefaultMaxDistance: real := 5.0

  /** Signed percentage from a level up to the price (positive when the
      level is below the price), with two decimals. */
  function BackendDistance(levelPrice: real, currentPrice: real): real
    requires currentPrice != 0.0
  {
    Round2((currentPrice - levelPrice) / currentPrice * 100.0)
  }

  /** The levels after calculate_distance_to_supports. */
  function WithDistances(levels: seq<Level>, currentPrice: real): (r: seq<Level>)
    requires currentPrice != 0.0
  {
    seq(|levels|, i requires 0 <= i < |levels| =>
      levels[i].(distance := Some(BackendDistance(levels[i].price, currentPrice))))
  }

  /** The filter test of get_active_supports. */
  function Within(maxDistance: real): Level -> bool
  {
    (l: Level) => l.distance.Some? && Abs(l.distance.value) <= maxDistance
  }

  /** What get_active_supports returns for the levels served: nothing
      without levels or without a truthy price, otherwise the levels, with
      distances, that lie within `maxDistance`, in order. */
  function ActiveWithin(levels: seq<Level>, currentPrice: Option<real>, maxDistance: real): seq<Level>
  {
    if levels == [] || !Truthy(currentPrice) then []
    else Filter(WithDistances(levels, currentPrice.value), Within(maxDistance))
  }

  /** The active levels are exactly the levels, annotated with their
      distance, whose distance is within the bound, kept in their order. */
  lemma ActiveWithinExact(levels: seq<Level>, currentPrice: Option<real>, maxDistance: real)
    ensures levels == [] || !Truthy(currentPrice) ==> ActiveWithin(levels, currentPrice, maxDistance) == []
    ensures levels != [] && Truthy(currentPrice) ==>
      var all := WithDistances(levels, currentPrice.value);
      var r := ActiveWithin(levels, currentPrice, maxDistance);
      && Subsequence(r, all)
      && (forall k :: 0 <= k < |r| ==> r[k].distance.Some? && Abs(r[k].distance.value) <= maxDistance)
      && (forall k :: 0 <= k < |levels| && Abs(BackendDistance(levels[k].price, currentPrice.value)) <= maxDistance ==>
            all[k] in r)
  {
    if levels != [] && Truthy(currentPrice) {
      var all := WithDistances(levels, currentPrice.value);
      var r := ActiveWithin(levels, currentPrice, maxDistance);
      FilterSubsequence(all, Within(maxDistance));
      forall k | 0 <= k < |r| ensures r[k].distance.Some? && Abs(r[k].distance.value) <= maxDistance {
        assert Within(maxDistance)(r[k]);
      }
      forall k | 0 <= k < |levels| && Abs(BackendDistance(levels[k].price, currentPrice.value)) <= maxDistance
        ensures all[k] in r
      {
        assert Within(maxDistance)(all[k]);
      }
    }
  }

  /** The backend's distance is the browser's with the opposite sign: the
      same two-decimal magnitude, measured from the level to the price
      instead of from the price to the level. */
  lemma BackendDistanceOpposesBrowser(levelPrice: real, currentPrice: real)
    requires currentPrice != 0.0
    ensures BackendDistance(levelPrice, currentPrice) == -Round2((levelPrice - currentPrice) / currentPrice * 100.0)
  {
    var x := (levelPrice - currentPrice) / currentPrice * 100.0;
    assert (currentPrice - levelPrice) / currentPrice * 100.0 == -x;
    Round2Odd(x);
  }

  /** The service: the detector it asks, and the time each symbol was last
      refreshed. */
  class SupportService {
    const detector: SupportDetector
    var lastUpdate: map<string, int>

    constructor (detector: SupportDetector)
      ensures this.detector == detector && lastUpdate == map[]
    {
      this.detector := detector;
      lastUpdate := map[];
    }

    /** The symbol was refreshed less than the interval before `now`. */
    predicate Fresh(symbol: string, now: int)
      reads this
    {
      symbol in lastUpdate && now - lastUpdate[symbol] < UpdateInterval
    }

    /** The levels get_support_levels serves: the detector's cache while
        fresh and not forced (nothing when the detector holds nothing);
        otherwise what the detector returns without a table, which is its
        cached list or the demonstration levels. */
    function Served(symbol: string, forceUpdate: bool, now: int): seq<Level>
      reads this, detector
    {
      if !forceUpdate && Fresh(symbol, now) then detector.CachedLevels(symbol)
      else if symbol in detector.supportLevels then detector.supportLevels[symbol]
      else MockLevels(now)
    }

    /** get_support_levels: serves the levels; a refresh (forced or due)
        stamps the symbol with `now`, a cache hit leaves the clock alone. The
        detector's own cache is never changed, since no table is passed. */
    method GetSupportLevels(symbol: string, forceUpdate: bool, now: int) returns (levels: seq<Level>)
      modifies this`lastUpdate, detector`supportLevels, detector`lastUpdate
      ensures levels == old(Served(symbol, forceUpdate, now))
      ensures detector.supportLevels == old(detector.supportLevels)
      ensures detector.lastUpdate == old(detector.lastUpdate)
      ensures detector.minTouches == old(detector.minTouches)
      ensures detector.minDistancePercent == old(detector.minDistancePercent)
      ensures !forceUpdate && old(Fresh(symbol, now)) ==> lastUpdate == old(lastUpdate)
      ensures forceUpdate || !old(Fresh(symbol, now)) ==> lastUpdate == old(lastUpdate)[symbol := now]
    {
      if !forceUpdate && symbol in lastUpdate {
        var timeSinceUpdate := now - lastUpdate[symbol];
        if timeSinceUpdate < UpdateInterval {
          return detector.CachedLevels(symbol);
        }
      }
      levels := detector.DetectSupportLevels(symbol, None, now);
      lastUpdate := lastUpdate[symbol := now];
    }

    /** should_update_supports: exactly when get_support_levels would not be
        served from the cache. */
    function ShouldUpdateSupports(symbol: string, now: int): (r: bool)
      reads this
      ensures r <==> !Fresh(symbol, now)
    {
      if symbol !in lastUpdate then true
      else now - lastUpdate[symbol] >= UpdateInterval
    }

    /** calculate_distance_to_supports: every level gets its distance from
        the price; nothing else about the levels changes. */
    method CalculateDistanceToSupports(currentPrice: real, supportLevels: seq<Level>) returns (r: seq<Level>)
      requires currentPrice != 0.0
      ensures |r| == |supportLevels|
      ensures forall i :: 0 <= i < |r| ==>
        && r[i].distance == Some(BackendDistance(supportLevels[i].price, currentPrice))
        && r[i].(distance := None) == supportLevels[i].(distance := None)
      ensures r == WithDistances(supportLevels, currentPrice)
    {
      r := supportLevels;
      var i := 0;
      while i < |r|
        invariant 0 <= i <= |r| == |supportLevels|
        invariant forall j :: 0 <= j < i ==>
          r[j] == supportLevels[j].(distance := Some(BackendDistance(supportLevels[j].price, currentPrice)))
        invariant forall j :: i <= j < |r| ==> r[j] == supportLevels[j]
      {
        var distance := (currentPrice - r[i].price) / currentPrice * 100.0;
        r := r[i := r[i].(distance := Some(Round2(distance)))];
        i := i + 1;
      }
    }

    /** get_active_supports, with the current price as a parameter: serves
        the levels as get_support_levels does, then keeps those within
        `maxDistance` of the price. */
    method GetActiveSupports(symbol: string, maxDistance: real, currentPrice: Option<real>, now: int)
        returns (r: seq<Level>)
      modifies this`lastUpdate, detector`supportLevels, detector`lastUpdate
      ensures r == ActiveWithin(old(Served(symbol, false, now)), currentPrice, maxDistance)
      ensures detector.supportLevels == old(detector.supportLevels)
      ensures detector.lastUpdate == old(detector.lastUpdate)
      ensures detector.minTouches == old(detector.minTouches)
      ensures detector.minDistancePercent == old(detector.minDistancePercent)
      ensures old(Fresh(symbol, now)) ==> lastUpdate == old(lastUpdate)
      ensures !old(Fresh(symbol, now)) ==> lastUpdate == old(lastUpdate)[symbol := now]
    {
      var levels := GetSupportLevels(symbol, false, now);
      if levels == [] || !Truthy(currentPrice) {
        return [];
      }
      var levelsWithDistance := CalculateDistanceToSupports(currentPrice.value, levels);
      r := Filter(levelsWithDistance, Within(maxDistance));
    }

    /** invalidate_cache: a non-empty symbol loses its refresh time; no
        symbol, or the empty one, clears every refresh time. The detector's
        cache is not touched. */
    method InvalidateCache(symbol: Option<string>)
      modifies this`lastUpdate
      ensures symbol.Some? && symbol.value != "" ==> lastUpdate == old(lastUpdate) - {symbol.value}
      ensures !(symbol.Some? && symbol.value != "") ==> lastUpdate == map[]
      ensures forall s, now :: s in old(lastUpdate) && s !in lastUpdate ==> ShouldUpdateSupports(s, now)
    {
      if symbol.Some? && symbol.value != "" {
        lastUpdate := lastUpdate - {symbol.value};
      } else {
        lastUpdate := map[];
      }
    }
  }

  /** Without a table the detector never caches its demonstration levels,
      so a new service serves them on the first request and then, for the
      next 15 minutes, an empty list. */
  method DemonstrationLevelsNotCached(now: int, later: int) returns (first: seq<Level>, second: seq<Level>)
    requires now <= later < now + UpdateInterval
    ensures first == MockLevels(now) && |first| == 3
    ensures second == []
  {
    var detector := new SupportDetector(3, 0.5);
    var service := new SupportService(detector);
    first := service.GetSupportLevels("BTCUSDT", false, now);
    second := service.GetSupportLevels("BTCUSDT", false, later);
  }
}

/** The backend's price service (backend/services/price_service.py): a
    five-minute cache of processed candle histories keyed by symbol and
    interval, the volume profile computed for each history, and prefix-based
    invalidation of the cache. The exchange's reply is a parameter
    (`response`), and clock readings are integer microseconds passed in as
    `now`. */
module PriceServicing {
  import opened Domain
  import opened Sequences

  /** The cache timeout: 5 minutes. */
  const CacheTimeout: int := 5 * 60 * 1000000

  /** The number of bins of a volume profile. */
  const DefaultBins: nat := 50

  /** The cache key "{symbol}_{interval}". */
  function CacheKey(symbol: string, interval: string): (r: string)
    ensures symbol + "_" <= r && |r| == |symbol| + 1 + |interval|
  {
    symbol + "_" + interval
  }

  /** A string without the separator; exchange symbols are of this form. */
  predicate NoSeparator(s: string)
  {
    '_' !in s
  }

  /** For separator-free symbols, a key starts with "{symbol}_" exactly when
      it was made for that symbol. */
  lemma SymbolKeyPrefix(symbol: string, s: string, interval: string)
    requires NoSeparator(symbol) && NoSeparator(s)
    ensures symbol + "_" <= CacheKey(s, interval) <==> s == symbol
  {
    var p := symbol + "_";
    var key := CacheKey(s, interval);
    if s == symbol {
      assert key == p + interval;
    } else if p <= key {
      if |s| < |symbol| {
        PrefixAgrees(p, key, |s|);
        assert false;
      } else if |s| > |symbol| {
        PrefixAgrees(p, key, |symbol|);
        assert false;
      } else {
        PrefixAgrees(p, key, |symbol|);
        assert false;
      }
    }
  }

  /** A prefix agrees with the longer string at each of its positions. */
  lemma PrefixAgrees(p: string, key: string, i: int)
    ensures p <= key && 0 <= i <= |p| ==> p[..i] == key[..i]
    ensures p <= key && 0 <= i < |p| ==> p[i] == key[i]
  {
  }

  // ---------------------------------------------------------------------
  // Volume profile
  // ---------------------------------------------------------------------

  /** One bin of a volume profile: its lower price and its volume. */
  datatype Bin = Bin(priceLevel: real, volume: real)

  function PriceLevelOf(b: Bin): real { b.priceLevel }

  /** A processed history: the candles and their volume profile. */
  datatype History = History(price: seq<Candle>, volumeProfile: seq<Bin>)

  /** The candle's range meets the bin [from, from + size]. */
  predicate Overlaps(c: Candle, from: real, size: real)
  {
    c.low <= from + size && c.high >= from
  }

  /** The summed volume of the candles whose range meets the bin. */
  function BinVolume(candles: seq<Candle>, from: real, size: real): real
  {
    if candles == [] then 0.0
    else (if Overlaps(candles[0], from, size) then candles[0].volume else 0.0) + BinVolume(candles[1..], from, size)
  }

  /** A bin with positive volume is met by a candle with positive volume. */
  lemma {:induction false} BinVolumeWitness(candles: seq<Candle>, from: real, size: real)
    requires BinVolume(candles, from, size) > 0.0
    ensures exists i :: 0 <= i < |candles| && Overlaps(candles[i], from, size) && candles[i].volume > 0.0
  {
    var c := candles[0];
    if Overlaps(c, from, size) && c.volume > 0.0 {
      assert Overlaps(candles[0], from, size) && candles[0].volume > 0.0;
    } else {
      BinVolumeWitness(candles[1..], from, size);
      var i :| 0 <= i < |candles[1..]| && Overlaps(candles[1..][i], from, size) && candles[1..][i].volume > 0.0;
      assert candles[i + 1] == candles[1..][i];
    }
  }

  function Lows(candles: seq<Candle>): (r: seq<real>)
    ensures |r| == |candles| && forall i :: 0 <= i < |r| ==> r[i] == candles[i].low
  {
    seq(|candles|, i requires 0 <= i < |candles| => candles[i].low)
  }

  function Highs(candles: seq<Candle>): (r: seq<real>)
    ensures |r| == |candles| && forall i :: 0 <= i < |r| ==> r[i] == candles[i].high
  {
    seq(|candles|, i requires 0 <= i < |candles| => candles[i].high)
  }

  /** The lowest low, where the bins start. */
  function ProfileBase(candles: seq<Candle>): real
    requires candles != []
  {
    Min(Lows(candles))
  }

  /** The width of a bin: the full price range split in `numBins`. */
  function BinSize(candles: seq<Candle>, numBins: nat): real
    requires candles != [] && numBins > 0
  {
    (Max(Highs(candles)) - Min(Lows(candles))) / (numBins as real)
  }

  /** The lower price of bin `k`: the walk adds one bin width per step. */
  function BinStart(base: real, size: real, k: nat): real
  {
    if k == 0 then base else BinStart(base, size, k - 1) + size
  }

  /** Step `k` starts `k` bin widths above the base. */
  lemma {:induction false} BinStartClosedForm(base: real, size: real, k: nat)
    ensures BinStart(base, size, k) == base + (k as real) * size
  {
    if k > 0 {
      BinStartClosedForm(base, size, k - 1);
      assert (k as real) * size == ((k - 1) as real) * size + size;
    }
  }

  /** With a positive width the steps rise strictly. */
  lemma {:induction false} BinStartRises(base: real, size: real, i: nat, j: nat)
    requires size > 0.0 && i < j
    ensures BinStart(base, size, i) < BinStart(base, size, j)
    decreases j
  {
    if i < j - 1 {
      BinStartRises(base, size, i, j - 1);
    }
  }

  /** With no width every step starts at the base. */
  lemma {:induction false} BinStartFlat(base: real, k: nat)
    ensures BinStart(base, 0.0, k) == base
  {
    if k > 0 {
      BinStartFlat(base, k - 1);
    }
  }

  /** A bin is kept when its volume is positive. */
  function KeepBin(candles: seq<Candle>, base: real, size: real): nat -> bool
  {
    (k: nat) => BinVolume(candles, BinStart(base, size, k), size) > 0.0
  }

  function MakeBin(candles: seq<Candle>, base: real, size: real): nat -> Bin
  {
    (k: nat) => Bin(BinStart(base, size, k), BinVolume(candles, BinStart(base, size, k), size))
  }

  /** The volume profile: the bins, from the lowest low upwards, that carry
      volume. No candles, or no bins, give no profile. */
  function VolumeProfile(candles: seq<Candle>, numBins: nat): seq<Bin>
  {
    if candles == [] || numBins == 0 then []
    else
      var base := ProfileBase(candles);
      var size := BinSize(candles, numBins);
      Scan(0, numBins, KeepBin(candles, base, size), MakeBin(candles, base, size))
  }

  /** _calculate_volume_profile: walks the bins from the lowest low upwards,
      one bin width at a time, and records every bin with positive volume.
      With no candles the pandas minimum and maximum are undefined and no
      bin carries volume; that case is decided up front here. */
  method CalculateVolumeProfile(candles: seq<Candle>, numBins: nat) returns (profile: seq<Bin>)
    ensures profile == VolumeProfile(candles, numBins)
  {
    profile := [];
    if candles == [] || numBins == 0 {
      return;
    }
    var base := Min(Lows(candles));
    var binSize := (Max(Highs(candles)) - base) / (numBins as real);
    var currentPrice := base;
    var k := 0;
    while k < numBins
      invariant k <= numBins
      invariant currentPrice == BinStart(base, binSize, k)
      invariant profile == Scan(0, k, KeepBin(candles, base, binSize), MakeBin(candles, base, binSize))
    {
      var volume := BinVolume(candles, currentPrice, binSize);
      if volume > 0.0 {
        profile := profile + [Bin(currentPrice, volume)];
      }
      currentPrice := currentPrice + binSize;
      k := k + 1;
    }
  }

  /** `b` is the bin of step `k`: its start and the volume met there. */
  predicate BinOfStep(candles: seq<Candle>, base: real, size: real, k: nat, b: Bin)
  {
    b.priceLevel == BinStart(base, size, k) && b.volume == BinVolume(candles, BinStart(base, size, k), size)
  }

  /** The bins of a walk of `numBins` steps from `base` in steps of `size`
      that carry volume. */
  function Walk(candles: seq<Candle>, base: real, size: real, numBins: nat): seq<Bin>
  {
    Scan(0, numBins, KeepBin(candles, base, size), MakeBin(candles, base, size))
  }

  /** A walk holds at most one bin per step. */
  lemma WalkLength(candles: seq<Candle>, base: real, size: real, numBins: nat)
    ensures |Walk(candles, base, size, numBins)| <= numBins
  {
    ScanLength(0, numBins, KeepBin(candles, base, size), MakeBin(candles, base, size));
  }

  /** Each bin of a walk is the bin of a step with positive volume. */
  lemma WalkSound(candles: seq<Candle>, base: real, size: real, numBins: nat)
    ensures forall b :: b in Walk(candles, base, size, numBins) ==>
      b.volume > 0.0 && exists k: nat :: k < numBins && BinOfStep(candles, base, size, k, b)
  {
    var keep := KeepBin(candles, base, size);
    var build := MakeBin(candles, base, size);
    var p := Walk(candles, base, size, numBins);
    ScanSound(0, numBins, keep, build);
    forall b | b in p
      ensures b.volume > 0.0 && exists k: nat :: k < numBins && BinOfStep(candles, base, size, k, b)
    {
      var m :| 0 <= m < |p| && p[m] == b;
      var k: nat :| 0 <= k < numBins && keep(k) && p[m] == build(k);
      assert BinOfStep(candles, base, size, k, b);
    }
  }

  /** Every step with positive volume has its bin in the walk. */
  lemma WalkComplete(candles: seq<Candle>, base: real, size: real, numBins: nat)
    ensures forall k: nat :: k < numBins && BinVolume(candles, BinStart(base, size, k), size) > 0.0 ==>
      Bin(BinStart(base, size, k), BinVolume(candles, BinStart(base, size, k), size)) in Walk(candles, base, size, numBins)
  {
    var keep := KeepBin(candles, base, size);
    var build := MakeBin(candles, base, size);
    ScanComplete(0, numBins, keep, build);
    forall k: nat | k < numBins && BinVolume(candles, BinStart(base, size, k), size) > 0.0
      ensures Bin(BinStart(base, size, k), BinVolume(candles, BinStart(base, size, k), size)) in Walk(candles, base, size, numBins)
    {
      assert keep(k);
    }
  }

  /** With a positive width the bins of a walk rise strictly. */
  lemma WalkRises(candles: seq<Candle>, base: real, size: real, numBins: nat)
    requires size > 0.0
    ensures StrictlyIncreasingBy(Walk(candles, base, size, numBins), PriceLevelOf)
  {
    var build := MakeBin(candles, base, size);
    forall i: nat, j: nat | i < j < numBins ensures PriceLevelOf(build(i)) < PriceLevelOf(build(j)) {
      BinStartRises(base, size, i, j);
    }
    ScanIncreasing(0, numBins, KeepBin(candles, base, size), build, PriceLevelOf);
  }

  /** What the volume profile holds: at most one bin per step, each bin
      built at a step with positive volume, every such step present, and
      the price levels strictly rising when the range is not flat. */
  lemma VolumeProfileBins(candles: seq<Candle>, numBins: nat)
    requires candles != [] && numBins > 0
    ensures var p := VolumeProfile(candles, numBins);
      var base := ProfileBase(candles);
      var size := BinSize(candles, numBins);
      && |p| <= numBins
      && (forall b :: b in p ==> b.volume > 0.0 && exists k: nat :: k < numBins && BinOfStep(candles, base, size, k, b))
      && (forall k: nat :: k < numBins && BinVolume(candles, BinStart(base, size, k), size) > 0.0 ==>
            Bin(BinStart(base, size, k), BinVolume(candles, BinStart(base, size, k), size)) in p)
      && (size > 0.0 ==> StrictlyIncreasingBy(p, PriceLevelOf))
  {
    var base := ProfileBase(candles);
    var size := BinSize(candles, numBins);
    assert VolumeProfile(candles, numBins) == Walk(candles, base, size, numBins);
    WalkLength(candles, base, size, numBins);
    WalkSound(candles, base, size, numBins);
    WalkComplete(candles, base, size, numBins);
    if size > 0.0 {
      WalkRises(candles, base, size, numBins);
    }
  }

  /** Every bin of the profile is met by some candle carrying volume. */
  lemma VolumeProfileTouched(candles: seq<Candle>, numBins: nat)
    requires candles != [] && numBins > 0
    ensures forall b :: b in VolumeProfile(candles, numBins) ==>
      exists i :: 0 <= i < |candles| && Overlaps(candles[i], b.priceLevel, BinSize(candles, numBins))
        && candles[i].volume > 0.0
  {
    VolumeProfileBins(candles, numBins);
    var size := BinSize(candles, numBins);
    forall b | b in VolumeProfile(candles, numBins)
      ensures exists i :: 0 <= i < |candles| && Overlaps(candles[i], b.priceLevel, size) && candles[i].volume > 0.0
    {
      BinVolumeWitness(candles, b.priceLevel, size);
    }
  }

  /** A flat range (highest high equal to lowest low) makes every step the
      same bin: the profile is empty or holds that bin `numBins` times. */
  lemma FlatRangeRepeatsBin(candles: seq<Candle>, numBins: nat)
    requires candles != [] && numBins > 0
    requires Max(Highs(candles)) == Min(Lows(candles))
    ensures var p := VolumeProfile(candles, numBins);
      p == [] || (|p| == numBins && forall m :: 0 <= m < |p| ==> p[m] == Bin(ProfileBase(candles), p[m].volume) && p[m] == p[0])
  {
    var base := ProfileBase(candles);
    var size := BinSize(candles, numBins);
    assert size == 0.0;
    forall k: nat ensures BinStart(base, size, k) == base {
      BinStartFlat(base, k);
    }
    ScanUniform(0, numBins, KeepBin(candles, base, size), MakeBin(candles, base, size));
  }

  /** _process_historical_data: the candles and their 50-bin profile. */
  method ProcessHistoricalData(candles: seq<Candle>) returns (h: History)
    ensures h.price == candles
    ensures h.volumeProfile == VolumeProfile(candles, DefaultBins)
  {
    var profile := CalculateVolumeProfile(candles, DefaultBins);
    h := History(candles, profile);
  }

  /** The entries of `m` whose key does not start with `prefix`. */
  function WithoutPrefix<V>(m: map<string, V>, prefix: string): map<string, V>
  {
    map k | k in m && !(prefix <= k) :: m[k]
  }

  /** Removing the keys that start with a symbol removes the key of every
      interval of that symbol and keeps every other entry as it was. */
  lemma WithoutPrefixDropsSymbol<V>(m: map<string, V>, symbol: string)
    ensures forall interval :: CacheKey(symbol, interval) !in WithoutPrefix(m, symbol)
    ensures forall k :: k in WithoutPrefix(m, symbol) ==> k in m && WithoutPrefix(m, symbol)[k] == m[k]
  {
    forall interval ensures CacheKey(symbol, interval) !in WithoutPrefix(m, symbol) {
      assert symbol <= symbol + "_" <= CacheKey(symbol, interval);
    }
  }

  /** Removing the keys that start with "{symbol}_" removes exactly the
      keys of that symbol among separator-free symbols. */
  lemma WithoutSymbolKeysExact<V>(m: map<string, V>, symbol: string)
    requires NoSeparator(symbol)
    ensures forall s, interval :: NoSeparator(s) ==>
      (CacheKey(s, interval) in WithoutPrefix(m, symbol + "_") <==> CacheKey(s, interval) in m && s != symbol)
  {
    forall s, interval | NoSeparator(s)
      ensures CacheKey(s, interval) in WithoutPrefix(m, symbol + "_") <==> CacheKey(s, interval) in m && s != symbol
    {
      SymbolKeyPrefix(symbol, s, interval);
    }
  }

  /** The service's caches: processed histories and the time each key was
      stored. */
  class PriceService {
    var historicalCache: map<string, History>
    var lastUpdate: map<string, int>

    /** Both caches hold the same keys: they are written and cleared
        together. */
    ghost predicate Valid()
      reads this
    {
      historicalCache.Keys == lastUpdate.Keys
    }

    constructor ()
      ensures Valid() && historicalCache == map[] && lastUpdate == map[]
    {
      historicalCache := map[];
      lastUpdate := map[];
    }

    /** The key is cached and younger than the timeout at `now`. */
    predicate Hit(key: string, now: int)
      reads this
    {
      key in historicalCache && key in lastUpdate && now - lastUpdate[key] < CacheTimeout
    }

    /** get_historical_data: a fresh cache entry is returned as stored;
        otherwise the exchange's reply is processed, stored and stamped
        `now`, and a missing reply gives nothing with the caches unchanged. */
    method GetHistoricalData(symbol: string, interval: string, response: Option<seq<Candle>>, now: int)
        returns (r: Option<History>)
      requires Valid()
      modifies this`historicalCache, this`lastUpdate
      ensures Valid()
      ensures var key := CacheKey(symbol, interval);
        && (old(Hit(key, now)) ==>
              r == Some(old(historicalCache)[key])
              && historicalCache == old(historicalCache) && lastUpdate == old(lastUpdate))
        && (!old(Hit(key, now)) && response.None? ==>
              r == None && historicalCache == old(historicalCache) && lastUpdate == old(lastUpdate))
        && (!old(Hit(key, now)) && response.Some? ==>
              r == Some(History(response.value, VolumeProfile(response.value, DefaultBins)))
              && historicalCache == old(historicalCache)[key := r.value]
              && lastUpdate == old(lastUpdate)[key := now])
      ensures r.Some? ==> Hit(CacheKey(symbol, interval), now) && historicalCache[CacheKey(symbol, interval)] == r.value
    {
      var cacheKey := CacheKey(symbol, interval);
      if cacheKey in historicalCache && cacheKey in lastUpdate {
        var last := lastUpdate[cacheKey];
        if now - last < CacheTimeout {
          return Some(historicalCache[cacheKey]);
        }
      }
      if response.None? {
        return None;
      }
      var processed := ProcessHistoricalData(response.value);
      historicalCache := historicalCache[cacheKey := processed];
      lastUpdate := lastUpdate[cacheKey := now];
      r := Some(processed);
    }

    /** Drops, from both caches, every key that starts with `prefix`. */
    method RemoveKeysStartingWith(prefix: string)
      requires Valid()
      modifies this`historicalCache, this`lastUpdate
      ensures Valid()
      ensures historicalCache == WithoutPrefix(old(historicalCache), prefix)
      ensures lastUpdate == WithoutPrefix(old(lastUpdate), prefix)
    {
      ghost var cache0 := historicalCache;
      ghost var stamps0 := lastUpdate;
      var keysToRemove := set k | k in historicalCache && prefix <= k;
      assert historicalCache == map k | k in cache0 && (k in keysToRemove || !(prefix <= k)) :: cache0[k];
      assert lastUpdate == map k | k in stamps0 && (k in keysToRemove || !(prefix <= k)) :: stamps0[k];
      while keysToRemove != {}
        invariant keysToRemove <= cache0.Keys == stamps0.Keys
        invariant historicalCache == map k | k in cache0 && (k in keysToRemove || !(prefix <= k)) :: cache0[k]
        invariant lastUpdate == map k | k in stamps0 && (k in keysToRemove || !(prefix <= k)) :: stamps0[k]
        decreases keysToRemove
      {
        var key :| key in keysToRemove;
        historicalCache := historicalCache - {key};
        lastUpdate := lastUpdate - {key};
        keysToRemove := keysToRemove - {key};
      }
    }

    /** invalidate_cache as written: a non-empty symbol drops every key that
        starts with the symbol itself, so "BTCUSD" also drops the keys of
        "BTCUSDT"; no symbol, or the empty one, clears both caches. */
    method InvalidateCache(symbol: Option<string>)
      requires Valid()
      modifies this`historicalCache, this`lastUpdate
      ensures Valid()
      ensures symbol.Some? && symbol.value != "" ==>
        historicalCache == WithoutPrefix(old(historicalCache), symbol.value)
        && lastUpdate == WithoutPrefix(old(lastUpdate), symbol.value)
      ensures !(symbol.Some? && symbol.value != "") ==> historicalCache == map[] && lastUpdate == map[]
    {
      if symbol.Some? && symbol.value != "" {
        RemoveKeysStartingWith(symbol.value);
      } else {
        historicalCache := map[];
        lastUpdate := map[];
      }
    }

    /** invalidate_cache as intended: a non-empty symbol drops the keys
        "{symbol}_…" and only those. */
    method InvalidateCacheFixed(symbol: Option<string>)
      requires Valid()
      modifies this`historicalCache, this`lastUpdate
      ensures Valid()
      ensures symbol.Some? && symbol.value != "" ==>
        historicalCache == WithoutPrefix(old(historicalCache), symbol.value + "_")
        && lastUpdate == WithoutPrefix(old(lastUpdate), symbol.value + "_")
      ensures !(symbol.Some? && symbol.value != "") ==> historicalCache == map[] && lastUpdate == map[]
    {
      if symbol.Some? && symbol.value != "" {
        RemoveKeysStartingWith(symbol.value + "_");
      } else {
        historicalCache := map[];
        lastUpdate := map[];
      }
    }
  }

  /** Invalidating "BTCUSD" as written forces a refetch of "BTCUSDT": with
      no reply from the exchange the request for "BTCUSDT" then gives
      nothing, although it was cached a moment before. */
  method InvalidationOverreachesAsWritten(candles: seq<Candle>, now: int) returns (before: Option<History>, after: Option<History>)
    ensures before.Some? && before.value.price == candles
    ensures after == None
  {
    var service := new PriceService();
    before := service.GetHistoricalData("BTCUSDT", "1h", Some(candles), now);
    service.InvalidateCache(Some("BTCUSD"));
    after := service.GetHistoricalData("BTCUSDT", "1h", None, now);
  }

  /** With the fix, invalidating "BTCUSD" keeps the "BTCUSDT" entry, which
      is then served from the cache. */
  method InvalidationFixedKeepsOtherSymbol(candles: seq<Candle>, now: int) returns (before: Option<History>, after: Option<History>)
    ensures before.Some? && before.value.price == candles
    ensures after == before
  {
    var service := new PriceService();
    before := service.GetHistoricalData("BTCUSDT", "1h", Some(candles), now);
    service.InvalidateCacheFixed(Some("BTCUSD"));
    SymbolKeyPrefix("BTCUSD", "BTCUSDT", "1h");
    after := service.GetHistoricalData("BTCUSDT", "1h", None, now);
  }
}

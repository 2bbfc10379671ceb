# Crypto support tracker — a verified model of its support-level core

The tracker is a dashboard that shows live candles for a cryptocurrency pair,
their volume, and horizontal "support level" bands. This project models the
parts of it that hold its data-transformation rules, and proves properties
about them in Dafny.

Browser side:

- `support.js`: the `supportState` record.
  - Each level's distance from the price and whether the level is active.
  - The sorted card view and the active-level badge.
  - The "time ago" label.
  - The visibility toggle.
- `chart.js`: the chart's trace list.
  - Price candles, volume bars and one band per support level.
  - How band redraws, band stripping, live-candle appends and full reloads change it.

Backend side:

- `support_detector.py`:
  - local minima of the candle lows;
  - touch counting;
  - the three-factor strength score;
  - the greedy minimum-separation filter;
  - the strongest-first order;
  - the per-symbol cache.
- `support_service.py`:
  - a 15-minute refresh clock in front of the detector;
  - backend distances;
  - the near-price filter.
- `price_service.py`:
  - a 5-minute cache of processed candle histories;
  - the 50-bin volume profile;
  - prefix-based cache invalidation.

Modules:

- `Domain` (domain.dfy): candles, level records and two-decimal rounding.
- `Sequences` (sequences.dfy): shared sequence algebra.
  - A stable sort, with proofs that it is sorted, a permutation and stable.
  - Subsequences, filters, minimum, maximum and sum.
  - A generic index scan.
- `ChartOverlay` (chart_overlay.dfy): `chart.js`.
- `SupportEngine` (support_engine.dfy): `support.js`.
- `SupportDetection` (support_detector.dfy).
- `SupportServicing` (support_service.dfy).
- `PriceServicing` (price_service.dfy).

The form follows the source:

- Objects whose fields change become classes with `modifies` frames:
  - `Chart` (`chartState`);
  - `SupportState` (`supportState`);
  - `SupportDetector`;
  - `SupportService`;
  - `PriceService`.
- Loops become methods with loop invariants, each proved against a specification function:
  - the local-minimum scan;
  - the filter pass;
  - the distance passes;
  - the volume-profile walk;
  - key removal;
  - the unit search of `formatTimeAgo`;
  - the band redraw.
- Pure computations become functions and lemmas.

Times are integers. The browser uses milliseconds and the backend
microseconds. The current time is always a parameter (`now`). So is
every other outside input: the exchange's reply to a history request, and
the current price the support service asks for.

## Model

| member | source | states |
|---|---|---|
| Domain.Round2 | frontend/static/js/support.js:74 | two-decimal rounding: the result is within half a cent of the value and keeps its sign |
| Domain.Round2Odd | backend/services/support_service.py:39-40 | rounding commutes with negation (used to relate the two sides' distance signs) |
| Sequences.SortByCorrect | backend/utils/support_detector.py:74 | the stable sort used for every ordering is sorted by its key, is a permutation of its input, and keeps equal-key elements in input order |
| ChartOverlay.BaseTraces | frontend/static/js/chart.js:195-197 | stripping bands keeps exactly the traces named Price or Volume, in order, and every one of them |
| ChartOverlay.Bands | frontend/static/js/chart.js:208-221 | one band per level, in the levels' order, each built from its level |
| ChartOverlay.BaseTracesIdempotent | frontend/static/js/chart.js:368-370 | stripping bands twice equals stripping once |
| ChartOverlay.BaseTracesOfWellFormed | frontend/static/js/chart.js:195-197 | on a chart's trace list (price, volume, then bands) stripping leaves the first two traces |
| ChartOverlay.RedrawShape | frontend/static/js/chart.js:190-224 | a redraw keeps price and volume traces unchanged, adds one band per level in order spanning the first and last price time, at the level's price, width 3 when active and 2 otherwise, and leaves a well-formed trace list |
| ChartOverlay.RedrawIdempotent | frontend/static/js/chart.js:190-224 | redrawing the same levels twice gives the same traces as once |
| ChartOverlay.StripAfterRedraw | frontend/static/js/chart.js:358-376 | hiding bands after a redraw restores the stripped original: base trace data survive any mix of redraws and hides |
| ChartOverlay.Window | frontend/static/js/chart.js:171-183 | past 500 points the x-axis range becomes the last 500 points' first and last time; otherwise it is unchanged |
| ChartOverlay.WindowSlides | frontend/static/js/chart.js:171-183 | from 500 points on, every appended point slides the range by one point: it starts one stored point later and ends at the new point, whatever range was set before |
| ChartOverlay.MaxFractionDigits | frontend/static/js/chart.js:416-435 | 2 digits at or above 1000 and for a missing price, 4 in [1, 1000), 8 below 1, each case if and only if |
| ChartOverlay.MaxFractionDigitsAntitone | frontend/static/js/chart.js:416-435 | a higher price never gets more fraction digits |
| ChartOverlay.Chart.constructor | frontend/static/js/chart.js:7-20 | no chart plotted, no data, volume and supports shown |
| ChartOverlay.Chart.UpdateChartData | frontend/static/js/chart.js:273-283 | each of price and supports is replaced only by an array, otherwise kept |
| ChartOverlay.Chart.InitializeChart | frontend/static/js/chart.js:23-136 | stores the data (empty price when none), plots price then volume traces then one fixed-style band per stored level spanning the price times (now when there are none) |
| ChartOverlay.Chart.UpdateChart | frontend/static/js/chart.js:139-187 | appends the candle to the price trace and, when volume is shown, to the volume trace; bands untouched; x range moved to the last 500 points past 500; nothing without a chart or data |
| ChartOverlay.AppendBands | frontend/static/js/chart.js:208-221 | the loop appends exactly one band per level, in the levels' order, after the traces already kept, which it leaves in place |
| ChartOverlay.Chart.UpdateChartSupports | frontend/static/js/chart.js:190-228 | without chart, levels or band setting nothing changes; otherwise stores the levels and the trace list becomes the redraw of the old one |
| ChartOverlay.Chart.ToggleChartSupports | frontend/static/js/chart.js:358-376 | records the setting; on redraws the stored levels, off strips to the first two traces |
| ChartOverlay.Chart.HideChartSupports | frontend/static/js/chart.js:438-440 | strips every band and switches the band setting off |
| ChartOverlay.Chart.ToggleChartVolume | frontend/static/js/chart.js:326-338 | records the volume setting when a chart exists |
| ChartOverlay.Chart.UpdateFullChart | frontend/static/js/chart.js:231-270 | replaces the price trace (and the volume trace when shown) with the stored price list, then redraws bands when the payload has supports and bands are on; nothing without a chart or data |
| SupportEngine.Annotated | frontend/static/js/support.js:70-79 | every level annotated, same length and order |
| SupportEngine.AnnotatedLevels | frontend/static/js/support.js:70-79 | each annotated level keeps price, strength, touches and last test, carries the rounded signed percentage to the price, and is active if and only if the unrounded percentage is within 3 |
| SupportEngine.ActiveMeansRoundedWithinThreshold | frontend/static/js/support.js:73-77 | an active level never shows a rounded distance beyond 3 % |
| SupportEngine.ActiveUsesUnroundedDistance | frontend/static/js/support.js:73-77 | a level 3.004 % above the price shows 3.00 and is inactive (the converse of the previous row fails) |
| SupportEngine.SortLevels | frontend/static/js/support.js:82-105 | the sorted view is a permutation of the levels, ordered by strength, price, absolute distance or last test time as selected (a never-tested level counts as tested at the epoch), stable within equal keys; an unknown order or all-missing distances leaves the order unchanged |
| SupportEngine.CountActive | frontend/static/js/support.js:207 | the count of active levels is at most the number of levels |
| SupportEngine.CountActiveExtremes | frontend/static/js/support.js:207 | the count is 0 if and only if no level is active, and the full length if and only if all are |
| SupportEngine.CountActivePermutation | frontend/static/js/support.js:207 | the count depends only on which levels there are, so the sorted view has the same count |
| SupportEngine.BadgeFor | frontend/static/js/support.js:211-220 | gray if and only if 0 active, blue if and only if 1 or 2, green if and only if 3 or more |
| SupportEngine.UnitSeconds | frontend/static/js/support.js:235-243 | every unit lasts at least one second |
| SupportEngine.FormatTimeAgo | frontend/static/js/support.js:226-253 | "Never" if and only if no timestamp, "Invalid date" if and only if unparseable, "Just now" if and only if less than a second elapsed, else the largest unit not longer than the elapsed time with the floor count |
| SupportEngine.SupportState.constructor | frontend/static/js/support.js:7-13 | no levels, strength order, price 0, supports visible |
| SupportEngine.SupportState.CalculateDistances | frontend/static/js/support.js:70-79 | the stored levels become their annotation against the stored price |
| SupportEngine.SupportState.UpdateSupportLevels | frontend/static/js/support.js:43-67 | missing list: empty view, nothing changed; otherwise the list replaces the stored one, annotated only when a truthy price arrives; empty list: empty view; else the sorted cards, active count and badge, and when visible the chart's bands redrawn from the levels; the chart's other state (presence, band and volume settings, price list, x-range) is unchanged |
| SupportEngine.SupportState.ChangeSortType | frontend/static/js/support.js:24-28 | records the order and returns the levels sorted by it |
| SupportEngine.SupportState.ToggleSupportsVisibility | frontend/static/js/support.js:263-271 | as written: showing redraws and stores the levels only if a chart exists and its band setting is still on, and otherwise changes neither the traces nor the stored levels; hiding strips bands from a plotted chart (no chart: traces unchanged), keeps the stored levels and switches the chart's band setting off; the chart's price list, x-range and volume setting never change |
| SupportEngine.SupportState.HideThenShowAsWritten | frontend/static/js/support.js:263-271 | hide then show leaves only price and volume traces although supports are visible and levels exist |
| SupportEngine.SupportState.ToggleSupportsVisibilityFixed | frontend/static/js/support.js:263-271 | corrected toggle: the chart's band setting follows `visible`; with a chart, showing redraws and stores the levels and hiding strips the bands; hiding, or having no chart, leaves the stored levels as they were, and without a chart the traces too; the chart's price list, x-range and volume setting never change |
| SupportEngine.SupportState.HideThenShowFixed | frontend/static/js/support.js:263-271 | with the corrected toggle, hide then show draws exactly one band per stored level at its price |
| SupportEngine.TwoLevelScenario | frontend/static/js/support.js:70-105 | price 100, levels 103 and 95: distances 3.00 and -5.00, only the first active, badge blue, and the first level first by distance and by strength |
| SupportDetection.IsLocalMinimum | backend/utils/support_detector.py:82-86 | true if and only if the price is at most every price in the window before and the window from it |
| SupportDetection.CountTouches | backend/utils/support_detector.py:88-93 | at most one touch per price |
| SupportDetection.CountTouchesIsCardinality | backend/utils/support_detector.py:88-93 | the touch count is the number of positions inside the ±0.1 % band |
| SupportDetection.LevelTouchesItself | backend/utils/support_detector.py:88-93 | a non-negative low touches its own level, so every level has a touch |
| SupportDetection.LastTouch | backend/utils/support_detector.py:145-154 | none if and only if no price is in the band; otherwise an in-band position after which no price is in the band |
| SupportDetection.FindLastTest | backend/utils/support_detector.py:145-154 | none if and only if untouched; otherwise the timestamp of the last in-band price |
| SupportDetection.LastTestIffTouched | backend/utils/support_detector.py:145-154 | a level has a last test if and only if it has at least one touch |
| SupportDetection.TouchFactor | backend/utils/support_detector.py:109 | between 0 and 1, equal to 1 if and only if touches reach the minimum |
| SupportDetection.VolumeScore | backend/utils/support_detector.py:116-120 | never above 1 |
| SupportDetection.VolumeScoreNonNegative | backend/utils/support_detector.py:116-120 | non-negative with non-negative volumes |
| SupportDetection.RecencyScore | backend/utils/support_detector.py:122-127 | at most 1 for a positive level, exactly 1 when the price at the index is the level |
| SupportDetection.CandidateStrengthRange | backend/utils/support_detector.py:95-114 | a candidate at a positive low with enough touches scores between 70 and 100 |
| SupportDetection.CandidatesSound | backend/utils/support_detector.py:54-68 | every candidate is the record of a qualifying local minimum of the scan range |
| SupportDetection.CandidatesComplete | backend/utils/support_detector.py:54-68 | every qualifying local minimum of the scan range yields a candidate |
| SupportDetection.CandidateOfIndex | backend/utils/support_detector.py:56-68 | one turn of the scan: a record exactly when the index's low is a local minimum touched at least min_touches times, and then the record the specification builds for it |
| SupportDetection.FindCandidates | backend/utils/support_detector.py:51-68 | the scan loop yields exactly the candidates of the scan range, in index order |
| SupportDetection.FindCandidatesAsWritten | backend/utils/support_detector.py:54-68 | as written: the scan raises exactly when the table has a candidate |
| SupportDetection.CandidatesTested | backend/utils/support_detector.py:58-61 | every candidate has a last test, since its low touches its own band at least min_touches >= 1 times |
| SupportDetection.FlatTableHasCandidates | backend/utils/support_detector.py:54-68 | a 41-candle table with every low at 100 and every volume at 1 is scorable with min_touches 3 and yields a candidate |
| SupportDetection.KeptFirst | backend/utils/support_detector.py:131-134 | the filter is empty if and only if its input is, and keeps the first level |
| SupportDetection.KeptSubsequence | backend/utils/support_detector.py:139-141 | the filter keeps a subsequence, in order |
| SupportDetection.KeptSeparated | backend/utils/support_detector.py:139-141 | kept levels are pairwise at least the minimum distance apart |
| SupportDetection.KeptMaximal | backend/utils/support_detector.py:139-141 | every dropped level is closer than the minimum distance to a kept one |
| SupportDetection.DetectedSound | backend/utils/support_detector.py:55-74 | every detected level is the record of a qualifying local minimum, and strengths never increase along the result |
| SupportDetection.DetectedSeparated | backend/utils/support_detector.py:129-143 | detected levels are pairwise at least the minimum separation apart |
| SupportDetection.DetectedCovers | backend/utils/support_detector.py:70-74 | every candidate is detected or closer than the minimum separation to a detected level |
| SupportDetection.DetectedStrengthRange | backend/utils/support_detector.py:95-114 | with positive lows and non-negative volumes every detected strength is within [70, 100] |
| SupportDetection.MockLevels | backend/utils/support_detector.py:24-43 | three demonstration levels, strictly decreasing in strength and price, each tested no later than now |
| SupportDetection.SupportDetector.constructor | backend/utils/support_detector.py:7-11 | stores both thresholds; empty caches |
| SupportDetection.SupportDetector.DetectSupportLevels | backend/utils/support_detector.py:13-80 | no table: the cached list or the demonstration levels, cache untouched; a table: the detected levels, which become the symbol's cache entry stamped now, so that get_cached_levels then returns exactly them; every other symbol's cached list is unchanged |
| SupportDetection.SupportDetector.DetectSupportLevelsAsWritten | backend/utils/support_detector.py:13-80 | as written: a table with any candidate raises at the first one (no result, neither cache changed); a table without candidates caches and returns the empty list; without a table as the corrected method |
| SupportDetection.FlatTableRaisesAsWritten | backend/utils/support_detector.py:61-67 | on the 41-candle flat table the as-written detection raises |
| SupportDetection.FlatTableDetected | backend/utils/support_detector.py:71-80 | on the same table the corrected detection reports a level, and get_cached_levels returns exactly what it reported |
| SupportDetection.SupportDetector.FilterCloseLevels | backend/utils/support_detector.py:129-143 | the greedy filter: empty if and only if input empty, first level kept, an ordered subsequence, pairwise separated |
| SupportDetection.SupportDetector.CachedLevels | backend/utils/support_detector.py:156-158 | the stored list of the symbol, or none; its partner is DetectSupportLevels, whose contract makes it return exactly the list a detection with a table stored |
| SupportServicing.ActiveWithinExact | backend/services/support_service.py:43-57 | no levels or no truthy price: nothing; otherwise an ordered subsequence of the levels with distances, every element within the bound, every level within the bound present |
| SupportServicing.BackendDistanceOpposesBrowser | backend/services/support_service.py:39-40 | the backend distance is the browser's distance negated |
| SupportServicing.SupportService.constructor | backend/services/support_service.py:6-9 | the given detector, no refresh times |
| SupportServicing.SupportService.GetSupportLevels | backend/services/support_service.py:11-25 | fresh and not forced: the detector's cached list, clock unchanged; otherwise the detector's answer without a table, symbol stamped now; neither the detector's cache, its detection times nor its thresholds change |
| SupportServicing.SupportService.ShouldUpdateSupports | backend/services/support_service.py:27-33 | true if and only if the symbol is not fresh |
| SupportServicing.SupportService.CalculateDistanceToSupports | backend/services/support_service.py:35-41 | same length; every level gets its rounded distance from the price and nothing else changes |
| SupportServicing.SupportService.GetActiveSupports | backend/services/support_service.py:43-57 | the levels get_support_levels serves, filtered to those within the bound, with the same clock effect; the detector's cache, detection times and thresholds do not change |
| SupportServicing.SupportService.InvalidateCache | backend/services/support_service.py:59-64 | a non-empty symbol loses its refresh time, otherwise all do; every invalidated symbol then needs an update |
| SupportServicing.DemonstrationLevelsNotCached | backend/services/support_service.py:11-25 | a new service serves the three demonstration levels, then an empty list for the next 15 minutes |
| PriceServicing.CacheKey | backend/services/price_service.py:21 | the key starts with the symbol followed by "_" |
| PriceServicing.SymbolKeyPrefix | backend/services/price_service.py:21 | for symbols without "_", a key starts with "symbol_" if and only if it was made for that symbol |
| PriceServicing.BinVolumeWitness | backend/services/price_service.py:68-70 | a bin with positive volume is met by a candle with positive volume |
| PriceServicing.BinStartClosedForm | backend/services/price_service.py:65-78 | step k of the walk starts k bin widths above the lowest low |
| PriceServicing.CalculateVolumeProfile | backend/services/price_service.py:58-80 | the walk's result equals the volume-profile specification |
| PriceServicing.VolumeProfileBins | backend/services/price_service.py:58-80 | at most one bin per step; each bin has positive volume and is the bin of some step; every step with positive volume is present; levels strictly rise when the range is not flat |
| PriceServicing.VolumeProfileTouched | backend/services/price_service.py:68-72 | every bin is met by a candle carrying volume |
| PriceServicing.FlatRangeRepeatsBin | backend/services/price_service.py:61-78 | with a flat range the profile is empty or one bin repeated 50 times at the lowest low |
| PriceServicing.ProcessHistoricalData | backend/services/price_service.py:44-56 | the candles and their 50-bin profile |
| PriceServicing.WithoutPrefixDropsSymbol | backend/services/price_service.py:82-89 | prefix removal drops the key of every interval of the symbol and keeps other entries unchanged |
| PriceServicing.WithoutSymbolKeysExact | backend/services/price_service.py:82-89 | removing "symbol_" keys drops exactly that symbol's keys among symbols without "_" |
| PriceServicing.PriceService.constructor | backend/services/price_service.py:7-12 | both caches empty and in step |
| PriceServicing.PriceService.GetHistoricalData | backend/services/price_service.py:18-42 | a fresh entry is returned as stored; otherwise no reply gives nothing with caches unchanged, and a reply is processed, stored and stamped now; any result is then a fresh entry |
| PriceServicing.PriceService.RemoveKeysStartingWith | backend/services/price_service.py:85-89 | both caches lose exactly the keys with the prefix |
| PriceServicing.PriceService.InvalidateCache | backend/services/price_service.py:82-92 | as written: a non-empty symbol removes every key starting with the symbol; otherwise both caches are cleared |
| PriceServicing.PriceService.InvalidateCacheFixed | backend/services/price_service.py:82-92 | corrected: a non-empty symbol removes only the keys starting with "symbol_" |
| PriceServicing.InvalidationOverreachesAsWritten | backend/services/price_service.py:85-86 | invalidating "BTCUSD" drops the cached "BTCUSDT" history |
| PriceServicing.InvalidationFixedKeepsOtherSymbol | backend/services/price_service.py:85-86 | with the fix, invalidating "BTCUSD" keeps "BTCUSDT" cached |

Two behaviours of the code worth stating, which the model follows:

- Activity is decided on the unrounded distance, not the rounded one
  (`ActiveUsesUnroundedDistance`).
- An update without a truthy price stores the new levels as they come. Their
  distances are not recomputed against the stored price, so they can be
  missing or stale.

## Left out

- DOM rendering: cards, classes, statistics, loading and empty indicators. The model keeps only the values handed to the renderer, such as the sorted cards, the active count and the badge.
- Timeframe buttons (`changeTimeframe`), the volume trace's `visible` restyle, and the toggle-button dots: presentation only.
- Plotly's calls are reduced to their effect on the trace list. Errors a chart call throws (caught and logged in the source) are not modelled.
- Sockets, `websocket.js`, `app.py`, `run.py` and `binance_client.py` are not part of this model. The exchange's history reply and the current price are parameters.
- `PriceService.get_current_price` and the unused `_price_cache`: a pass-through to the exchange client, and a field nothing reads.
- `SupportService.get_active_supports` calls `self._get_current_price`, which `support_service.py` does not define. The model takes the price as a parameter.
- Domain.Round2: models Python's `round(x, 2)` with the same halves-away-from-zero rule as `toFixed(2)`. Python rounds halves to even, and both round binary floating-point values. Reals are exact here, so accumulated float error (including the repeated `current_price += bin_size`) is not modelled.
- SupportDetection.Scorable: requires that qualifying lows are non-zero, volumes do not sum to zero, and at least one touch is required. The source divides by each of these. A zero mean volume (support_detector.py:119) or a zero low (:126) divides numpy floats and gives NaN or infinity. `min_touches = 0` divides a Python int at :109 and raises ZeroDivisionError.
- SupportServicing.SupportService.CalculateDistanceToSupports: requires a non-zero price. With a price of 0.0 the source raises ZeroDivisionError (support_service.py:39); the browser's distances likewise require a non-zero price.
- The ISO string form of `last_test` and of candle timestamps: times stay integers. The `isoformat` call on a table's timestamp fails in the source; that is the third row under Findings. A last-test time of exactly 0 is treated as a time, not as falsy.
- `calculate_distance_to_supports` mutates the dicts it is given, which in the source are the detector's cached dicts. The model works on values, so that aliasing is not captured.
- Sorting by distance when only some levels have a distance: JavaScript compares NaN there, and the resulting order depends on the engine. The model requires all levels or none to have one.
- Concurrency: the backend's background refresh thread is not modelled.
- ChartOverlay.Chart.UpdateFullChart: a payload whose `supports` is truthy but not an array is modelled as keeping the stored levels. The source passes it to `updateChartSupports`, which stores it (chart.js:200) before `forEach` throws and the error is caught, so a later redraw from the stored levels throws again. Nothing in the repository sends such a payload.

## Findings

| source | as written | input that shows it | evidently intended | confidence | as-written member | corrected member |
|---|---|---|---|---|---|---|
| frontend/static/js/support.js:263-271 | hiding calls `hideChartSupports`, which sets the chart's `showSupports` to false; showing calls `updateChartSupports`, which returns early while `showSupports` is false | with a plotted chart and stored levels, `toggleSupportsVisibility(false)` then `toggleSupportsVisibility(true)` | the bands are drawn again when supports are made visible | not executed; high | SupportEngine.SupportState.HideThenShowAsWritten | SupportEngine.SupportState.HideThenShowFixed |
| backend/services/price_service.py:85-86 | keys are removed when they start with the symbol itself | cache "BTCUSDT_1h", then `invalidate_cache("BTCUSD")` | only the symbol's own keys ("BTCUSD_…") are removed | not executed; medium | PriceServicing.InvalidationOverreachesAsWritten | PriceServicing.InvalidationFixedKeepsOtherSymbol |
| backend/utils/support_detector.py:61-67 | `last_test` is an element of `df['timestamp'].values`, a numpy scalar, and `last_test.isoformat()` is called on it; numpy scalars have no `isoformat`, so the first candidate raises AttributeError and nothing is cached | a table of 41 candles with every low 100 and every volume 1, with `min_touches` 3 | each candidate's last test is formatted (for example through `pd.Timestamp(last_test).isoformat()`) and the detection is returned and cached | not executed; medium | SupportDetection.FlatTableRaisesAsWritten | SupportDetection.FlatTableDetected |

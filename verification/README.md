# Forex CHoCH detector: a Dafny model of the pattern pipeline

This project models the pattern-detection core of `forex-choch-detector`, a
Python service that watches a tick stream for trading symbols and reports
"Change of Character" (CHoCH) reversals and price-band ("box region") hits. The
core has three pure, sequential pieces, each modelled as immutable datatypes and
pure step functions:

- **Swing extractor** (`SwingEngine`, `swing_engine.dfy`). It scans a bar
  sequence and appends swing highs and swing lows. A bar is a swing high when
  its high beats every bar within `depth` bars on each side by more than
  `tolerance`; swing lows are the mirror case. A new point that is a
  near-copy of the previous point of its kind is dropped. Each call rescans
  from `depth` bars before where the previous call ended.
- **Trend / CHoCH detector** (`ChochDetector`, `choch_detector.dfy`). It
  aggregates ticks into one-minute bars per symbol, keeping at most 1000 bars
  (a backtest installs its bars as given, without the cap).
  It runs the swing engine over them and drives a BULLISH / BEARISH / SIDEWAYS
  trend machine that emits a CHoCH when the latest two swing highs (or lows)
  reverse the trend. It also has a `backtest` entry point.
- **Box-region tracker** (`BoxRegion`, `box_region.dfy`). It keeps per-symbol
  inclusive price bands with sorted bounds. It classifies a tick's mid price
  `(bid+ask)/2` against the active bands, counts hits and reports statistics.

`common.dfy` (module `Common`) holds `Option` and small max/min/abs helpers.
`market.dfy` (module `Market`) holds the `Bar` and `Tick` records, the
minute-bucket function and the mid price.

Modelling choices:

- Prices are exact `real`s instead of IEEE doubles. The window test's
  `high - tolerance` / `low + tolerance`, the dedup test's price difference
  and the midpoint `(bid+ask)/2` are computed without rounding.
- Timestamps are `int` seconds. A bar's time is the start of its minute,
  `(t / 60) * 60`. Dafny's division by the positive constant 60 floors, as
  pandas' `floor('T')` does.
- Region ids, creation times, hit times and CHoCH detection times come from
  the caller instead of `uuid4()` / `datetime.now()`.
- A swing point's timestamp is the bar's time instead of its ISO string.
- The two callbacks (`on_choch`, `on_region_hit`) are modelled as returned
  lists. `Step.emitted` holds the events appended to the history; `on_choch`,
  when set, receives each one's direction, price, timestamp and confidence.
  `Checked.notices` is what `on_region_hit`, when set, receives: one notice per hit
  region in insertion order.
- The source reads `swing_depth` from its configuration and builds the swing
  engine from that same value. The model reads the depth from the engine.

Behaviour of the source that the model keeps on purpose:

- **One shared swing engine.** A single engine serves every symbol. Its point
  lists and `lastProcessed` are global: a call for one symbol can append to
  the lists another symbol reads, and can move `lastProcessed` backwards.
- **SIDEWAYS is terminal.** No rule leaves SIDEWAYS, and an unseen symbol is
  SIDEWAYS. `FreshDetectorNeverEmits` proves that a detector built from
  scratch never emits a CHoCH, whatever ticks and backtests it gets.
- **Backtest never emits.** `backtest` resets the trend, clears the history
  and runs the swing engine, but never applies the CHoCH rule. Its result is
  always empty.
- **Out-of-order ticks open a new bar.** A tick whose bucket differs from the
  last bar's opens a new bar, even when its bucket is earlier. The buffer is
  therefore time-ordered only while ticks arrive in time order;
  `UpdateBarsInTimeOrder` proves that case.
- **BOS is a no-op.** The BOS check has an empty body, so every emitted event
  is a CHoCH.
- **A missing bid or ask in the detector.** Reading it raises `KeyError`
  after the symbol's empty bar buffer has been created. The surrounding
  `try` swallows the error. `ProcessTick` models exactly that: the symbol
  gets an (unchanged or empty) buffer and nothing else happens.

## Model

| member | source | states |
|---|---|---|
| `SwingEngine.NewEngine` | forex-choch-detector/src/pattern/swing_engine.py:29-35 | A new engine keeps the given depth and tolerance, has no swing points and has processed nothing. |
| `SwingEngine.IsSwingHigh` | forex-choch-detector/src/pattern/swing_engine.py:78-90 | The two-loop scan with early exit returns true exactly when every bar in `[i-depth, i)` and `(i, i+depth]` has a high below the candidate's high minus `tolerance`. |
| `SwingEngine.IsSwingLow` | forex-choch-detector/src/pattern/swing_engine.py:92-104 | The mirror scan returns true exactly when every neighbour in the same window has a low above the candidate's low plus `tolerance`. |
| `SwingEngine.NoSwingNearSwing` | forex-choch-detector/src/pattern/swing_engine.py:78-104 | With `tolerance >= 0`, no other swing point of the same kind lies within `depth` bars of a swing point, because the two windows would each need to beat the other. |
| `SwingEngine.AppendUnlessDuplicate` | forex-choch-detector/src/pattern/swing_engine.py:106-118 | The list only grows, by at most the new point. Afterwards the new point or a near-copy of it (price differing by less than `tolerance`, index by less than `depth`) is in the list. The deduplication law is preserved. With positive thresholds the new point is a near-copy of the new last point. |
| `SwingEngine.CheckSwingAt` | forex-choch-detector/src/pattern/swing_engine.py:51-76 | Checking one candidate only appends, at most one point per list, and keeps the parameters and `lastProcessed`. |
| `SwingEngine.CheckSwingAtAppends` | forex-choch-detector/src/pattern/swing_engine.py:51-76 | A point appended for index `i` is bar `i`'s high (low), and bar `i` passes the window test with a full window. A swing bar's point is appended exactly when it is not a near-copy of the LAST point of its list; either way it ends up covered by the list. |
| `SwingEngine.Scan` | forex-choch-detector/src/pattern/swing_engine.py:45-46 | Scanning `[i, end)` only appends to the two lists, and keeps the parameters and `lastProcessed`. |
| `SwingEngine.ScanFresh` | forex-choch-detector/src/pattern/swing_engine.py:45-46 | The points a scan of `[i, end)` appends are swing points of `bars` priced at their bar's high (low), with indices strictly increasing inside `[i, end)`. |
| `SwingEngine.ProcessCandles` | forex-choch-detector/src/pattern/swing_engine.py:37-49 | With fewer than `2*depth+1` bars the engine is returned unchanged. Otherwise `lastProcessed` becomes `len - depth`. Both lists are extended append-only: the lists before the call are prefixes of the lists after it. |
| `SwingEngine.ProcessCandlesFresh` | forex-choch-detector/src/pattern/swing_engine.py:42-76 | Every appended point is a swing point of the bars, priced at its bar's high (low). Its index lies in `[max(0, lastProcessed-depth), len-depth)` and has a full window, so `depth <= i`. Indices increase strictly. |
| `SwingEngine.ClearSwings` | forex-choch-detector/src/pattern/swing_engine.py:120-124 | Clearing gives back the initial engine with the same parameters: empty lists, `lastProcessed = -1`, so the next scan starts at index 0. |
| `SwingEngine.ScanKeepsValid` | forex-choch-detector/src/pattern/swing_engine.py:45-46 | Scanning any range preserves the deduplication law on both lists. |
| `SwingEngine.ProcessCandlesKeepsValid` | forex-choch-detector/src/pattern/swing_engine.py:106-118 | Dedup law: if no two consecutive points of a kind have both price difference below `tolerance` and index difference below `depth`, the same holds after a call. |
| `SwingEngine.ScanCovers` | forex-choch-detector/src/pattern/swing_engine.py:45-46 | A swing high (low) at an index the scan visits is in the result list, or a near-copy of it is. |
| `SwingEngine.ProcessCandlesCovers` | forex-choch-detector/src/pattern/swing_engine.py:42-46 | Nothing in the scanned range is missed: every swing point from `max(0, lastProcessed-depth)` on is recorded, or is a near-duplicate of a recorded point. |
| `SwingEngine.ClearRestartsScan` | forex-choch-detector/src/pattern/swing_engine.py:120-124 | After `clear_swings`, the next call covers every swing point of the whole bar sequence. |
| `SwingEngine.ScanOfDuplicatesIsIdentity` | forex-choch-detector/src/pattern/swing_engine.py:106-118 | A scan that only meets near-copies of the current last points leaves the engine unchanged. |
| `SwingEngine.ScanLeavesTailDuplicates` | forex-choch-detector/src/pattern/swing_engine.py:42-46 | With positive `tolerance` and `depth`, if every swing point in `[end - depth, i)` is already a near-copy of the last point of its list, then after scanning `[i, end)` every swing point in `[end - depth, end)` is. |
| `SwingEngine.ProcessCandlesIdempotent` | forex-choch-detector/src/pattern/swing_engine.py:42-48 | With positive thresholds, and for an engine whose `lastProcessed` is at most `len - depth`, running the incremental scan twice on the same bars equals running it once. The rescanned `depth`-bar overlap never adds a point. |
| `Market.BarTime` | forex-choch-detector/src/pattern/choch_detector.py:72-73 | A tick's bar time is the multiple of 60 seconds at most 59 seconds before it. |
| `Market.MidPrice` | forex-choch-detector/src/pattern/choch_detector.py:71 | The mid price exists exactly when both bid and ask are present, and then lies halfway between them. |
| `Market.BarTimeMonotone` | forex-choch-detector/src/pattern/choch_detector.py:72-73 | A later tick never falls in an earlier minute bucket. |
| `ChochDetector.NewDetector` | forex-choch-detector/src/pattern/choch_detector.py:43-55 | A new detector has no bars, no trends (every symbol is SIDEWAYS), no history, and a fresh shared engine built with the given depth and tolerance, whose first scan starts at 0. |
| `ChochDetector.MergeTick` | forex-choch-detector/src/pattern/choch_detector.py:75-79 | A tick in the open bucket keeps `open` and the time. `high` becomes the larger of the old high and `mid`, and `low` the smaller. `close` becomes `mid` and the volume grows by the tick's volume. A well-formed bar stays well formed. |
| `ChochDetector.OpenBar` | forex-choch-detector/src/pattern/choch_detector.py:80-88 | A new bucket's bar has open, high, low and close all equal to `mid`, the tick's volume and the bucket time, and is well formed. |
| `ChochDetector.CapBars` | forex-choch-detector/src/pattern/choch_detector.py:90-91 | The buffer never exceeds 1000 bars and is always a suffix of its input, so the most recent bars are kept. Inputs of at most 1000 bars are untouched. |
| `ChochDetector.UpdateBars` | forex-choch-detector/src/pattern/choch_detector.py:65-91 | Same bucket: the last bar is merged, the earlier bars are kept and the bar count is unchanged (capped at 1000). New bucket: exactly one bar `open=high=low=close=mid` is appended, with volume defaulting to 1 at the caller. The result is cut to the most recent 1000. |
| `ChochDetector.UpdateBarsKeepsWellFormed` | forex-choch-detector/src/pattern/choch_detector.py:75-88 | If every bar has `low <= open, close <= high`, that still holds after aggregating a tick. |
| `ChochDetector.UpdateBarsKeepsOrder` | forex-choch-detector/src/pattern/choch_detector.py:72-88 | For ticks that never go back to an earlier bucket, bars stay strictly ordered by bucket time, one per bucket. The last bar is in the tick's bucket. |
| `ChochDetector.UpdateBarsInTimeOrder` | forex-choch-detector/src/pattern/choch_detector.py:72-88 | A tick no older than the one behind the newest bar keeps the buffer strictly ordered, one bar per bucket, with the newest bar in the tick's bucket. |
| `ChochDetector.ReversalOf` | forex-choch-detector/src/pattern/choch_detector.py:106-122 | The CHoCH rule needs at least 2 swing highs and 2 swing lows. From BEARISH it fires exactly when the latest high exceeds the previous one, giving BULLISH at the latest high's price with the last two highs. From BULLISH it fires exactly when the latest low is below the previous one, giving BEARISH. From SIDEWAYS it never fires. |
| `ChochDetector.ChochEvent` | forex-choch-detector/src/pattern/choch_detector.py:128-139 | The emitted event is a CHOCH for the symbol with confidence 0.8, carrying the reversal's direction, price and swing points. |
| `ChochDetector.DetectChoch` | forex-choch-detector/src/pattern/choch_detector.py:106-140 | An event is emitted exactly when `ReversalOf` finds a reversal for the symbol's current trend, and it is that reversal's CHOCH event (direction, price, the two swing points, confidence 0.8). The history gains the event and the symbol's trend becomes its direction. Without a reversal nothing changes. |
| `ChochDetector.AnalyzePatterns` | forex-choch-detector/src/pattern/choch_detector.py:93-126 | With an unknown symbol or fewer than `4*depth` bars, nothing changes and nothing is emitted. Otherwise the one shared engine advances to `ProcessCandles(engine, bars)`, and an event fires exactly when `ReversalOf` fires on the engine's lists for this symbol's trend. At most one event, always a CHOCH (BOS never fires). Other symbols' trends are untouched. |
| `ChochDetector.ProcessTick` | forex-choch-detector/src/pattern/choch_detector.py:57-104 | A tick with bid and ask updates only this symbol's bars, by `UpdateBars` with volume defaulting to 1. Once the updated buffer has `4*depth` bars, the shared engine advances over it and an event fires exactly when `ReversalOf` fires; below that the engine is untouched. A tick missing bid or ask leaves engine, trends and history alone but gives the symbol a buffer. History grows by exactly the emitted events, at most one, and never from SIDEWAYS. |
| `ChochDetector.Backtest` | forex-choch-detector/src/pattern/choch_detector.py:150-157 | Backtest installs the bars, sets the symbol to SIDEWAYS and clears the history. It advances the shared swing engine over the bars and returns an empty event list. |
| `ChochDetector.ApplyKeepsQuiet` | forex-choch-detector/src/pattern/choch_detector.py:111-122 | One tick or backtest on a detector where every trend is SIDEWAYS and the history is empty emits nothing, and leaves it in that state. |
| `ChochDetector.QuietIsForever` | forex-choch-detector/src/pattern/choch_detector.py:111-122 | Any run of ticks and backtests from such a quiet detector emits nothing and ends quiet. |
| `ChochDetector.FreshDetectorNeverEmits` | forex-choch-detector/src/pattern/choch_detector.py:43-55 | A detector as constructed (no trends, empty history) never emits a CHoCH and keeps an empty history, whatever it is fed. |
| `ChochDetector.ApplyKeepsEngineValid` | forex-choch-detector/src/pattern/choch_detector.py:93-102 | A tick or a backtest, on any symbol, keeps the dedup law on the one swing engine all symbols share. |
| `ChochDetector.RunKeepsEngineValid` | forex-choch-detector/src/pattern/choch_detector.py:150-157 | The dedup law on the shared engine survives any interleaving of ticks and backtests across symbols. |
| `ChochDetector.FreshDetectorKeepsDedupLaw` | forex-choch-detector/src/pattern/choch_detector.py:43-55 | Starting from a detector as constructed, the shared engine satisfies the dedup law after any run. |
| `BoxRegion.NewManager` | forex-choch-detector/src/region/box_region.py:42-46 | A new manager lists no region for any symbol and has empty statistics. |
| `BoxRegion.NewRegion` | forex-choch-detector/src/region/box_region.py:54-61 | The stored bounds are the two given bounds in sorted order, so `lower <= upper`. A new region carries the given id, symbol, name, region type and creation time, is active, has 0 hits and no last hit. |
| `BoxRegion.AddRegion` | forex-choch-detector/src/region/box_region.py:48-65 | Exactly one region is appended to that symbol's list (created if absent), and its id is returned. Every other symbol's list is unchanged. |
| `BoxRegion.AddRegionOrderIndependent` | forex-choch-detector/src/region/box_region.py:54-61 | Adding with `(a, b)` and with `(b, a)` gives identical managers. |
| `BoxRegion.AddedRegionContains` | forex-choch-detector/src/region/box_region.py:27-29 | An added region contains exactly the prices between its two given bounds, both ends included. |
| `BoxRegion.ContainsPriceClosed` | forex-choch-detector/src/region/box_region.py:27-29 | A band contains both of its bounds and no price outside them. |
| `BoxRegion.ActiveOnly` | forex-choch-detector/src/region/box_region.py:73-74 | The filter keeps exactly the active regions and is no longer than its input. |
| `BoxRegion.ActiveOnlyAppend` | forex-choch-detector/src/region/box_region.py:73-74 | Filtering distributes over concatenation, so the active regions keep their insertion order. |
| `BoxRegion.GetRegions` | forex-choch-detector/src/region/box_region.py:67-75 | An unknown symbol gives `[]`. Without `active_only` the full list comes back. With it, exactly the active regions, in insertion order and with multiplicity (`ActiveOnly`). |
| `BoxRegion.Statistics` | forex-choch-detector/src/region/box_region.py:77-86 | There is one entry per known symbol. `total_regions` is the list length, `active_regions` is the number of active regions (at most the total), and `total_hits` is the sum of the hit counts. |
| `BoxRegion.TotalHitsAppend` | forex-choch-detector/src/region/box_region.py:84 | The hit total of two lists joined is the sum of their totals. |
| `BoxRegion.HitAll` | forex-choch-detector/src/region/box_region.py:98-109 | A sweep keeps the number of regions. It raises the hit total by exactly the number of notices, and every notice carries the symbol, the mid price and a positive count. |
| `BoxRegion.HitAllElementwise` | forex-choch-detector/src/region/box_region.py:98-101 | Each active region containing the price gets `hit_count + 1` and the hit time, with nothing else changed. Every other region is left as it was, and with no hit there is no notice. |
| `BoxRegion.HitAllAppend` | forex-choch-detector/src/region/box_region.py:98-109 | A sweep of `a + b` is the sweep of `a` followed by the sweep of `b`, so notices come in insertion order. |
| `BoxRegion.HitAllSingle` | forex-choch-detector/src/region/box_region.py:103-109 | A region yields exactly one notice, with its id, name, the price and its updated count, when it is hit, and none otherwise. |
| `BoxRegion.CheckRegions` | forex-choch-detector/src/region/box_region.py:88-109 | An unknown symbol, or a tick without bid or ask, changes nothing and reports nothing. Otherwise only that symbol's active regions containing `(bid+ask)/2` gain exactly one hit, other symbols are untouched, and the notices are exactly those of `HitAll`: one per hit region in insertion order. |
| `BoxRegion.SweepKeepsActiveCount` | forex-choch-detector/src/region/box_region.py:98-101 | A sweep never changes how many regions are active. |
| `BoxRegion.CheckRegionsStatistics` | forex-choch-detector/src/region/box_region.py:77-101 | After a check, the symbol's `total_hits` grows by the number of notices. Its region and active counts stay the same, and so does every other symbol's statistics. |
| `BoxRegion.EurUsdHitExample` | forex-choch-detector/tests/test_basic.py:55-72 | The band 1.0800–1.0850 on EUR/USD and a tick with bid 1.0824 and ask 1.0826 give exactly one hit notice, at price 1.0825 with count 1. |

## Left out

- The orchestrator (`src/core/orchestrator.py`) is left out. It handles task
  lifecycle, reconnect backoff, heartbeat and notification fan-out, all of
  which is concurrency and I/O plumbing.
- The feed adapters (`src/data_feed/`) are left out. They do network
  streaming and simulated random ticks.
- The notifiers (`src/notifier/`) are left out. They make HTTP calls, log and
  rate-limit by wall clock.
- Configuration loading and validation (`src/core/config.py`) is left out.
  The model accepts any `depth: nat` and `tolerance: real`, where the source
  restricts them to 3–20 and 0.0001–0.01. Properties that need a positive
  tolerance and depth say so in their own preconditions.
- The CLI (`src/cli/main.py`) and `demo.py` are left out. They are
  typer/rich front ends and pandas/numpy random data.
- `min_swing_size` is left out. It is stored but never used in detection.
- Logging (`structlog`) is left out, and so are region and event `metadata`.
  Region metadata is an opaque dictionary, and event metadata is always empty.
- The unused `on_region_break` handler and `hit_history` list are left out.
  The source never writes to them.
- `BoxRegion.get_statistics` for a single region (hit count, last hit, active
  flag) is left out. It only returns three fields as they are.
- Handler exceptions are left out: handlers are assumed to return normally.
  In the source, an `on_choch` that raises leaves the event in the history
  without switching the trend. An `on_region_hit` that raises stops the sweep
  before the remaining regions.
- The detector's other exception paths are left out: a tick with bid and ask
  but no `timestamp` key (a `KeyError` after the empty buffer is created,
  swallowed like the missing bid/ask case), an unparseable timestamp, and bid
  or ask values that are not numbers. Timestamps are
  integers here. Only a missing bid or ask is modelled.
- Asynchronous execution is left out: each modelled call runs to completion.
- IEEE double rounding is left out: the window test (`high - tolerance`,
  `low + tolerance`), the dedup test (`abs(new - last) < tolerance`) and the
  mid price are exact here. Results can therefore differ from the source's
  exactly at a tolerance gap or a band boundary. For example,
  `abs(1.0835 - 1.0825)` is just below 0.001 in doubles, so the source drops
  the point as a duplicate where the model keeps it.

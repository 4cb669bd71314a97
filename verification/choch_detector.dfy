/**
 * The trend / CHoCH ("change of character") detector: aggregates ticks into
 * one-minute bars per symbol, runs the swing extractor over them, and drives a
 * three-state trend machine that emits a CHoCH event when the two latest swing
 * highs (or lows) reverse the current trend.
 *
 * One swing engine serves every symbol, as in the source: its point lists and
 * scan position are shared, not kept per symbol.
 */
module ChochDetector {
  import opened Common
  import opened Market
  import opened SwingEngine

  datatype Trend = Bullish | Bearish | Sideways

  /** BOS is a declared kind; no rule ever produces it. */
  datatype PatternKind = Choch | Bos

  /** A detected pattern; `timestamp` is the detection time, supplied by the caller's clock. */
  datatype PatternEvent = PatternEvent(
    kind: PatternKind,
    symbol: string,
    direction: Trend,
    price: real,
    timestamp: int,
    confidence: real,
    swingPoints: seq<SwingPoint>)

  /** The fixed placeholder confidence of every CHoCH event. */
  const ChochConfidence: real := 0.8

  /** The bar buffer keeps at most this many bars per symbol. */
  const MaxBars: nat := 1000

  /**
   * The detector's state: the shared swing engine, per-symbol bars and trends
   * (a symbol absent from `trends` is SIDEWAYS), and the event history.
   */
  datatype Detector = Detector(
    engine: Engine,
    bars: map<string, seq<Bar>>,
    trends: map<string, Trend>,
    history: seq<PatternEvent>)

  /** The next detector, and the events handed to the CHoCH handler on the way. */
  datatype Step = Step(detector: Detector, emitted: seq<PatternEvent>)

  /** A detector as constructed: no bars, no trends, no history, and a fresh shared engine. */
  function NewDetector(depth: nat, tolerance: real): (r: Detector)
    ensures r.bars == map[] && r.trends == map[] && r.history == []
    ensures r.engine == NewEngine(depth, tolerance)
    ensures r.engine.highs == [] && r.engine.lows == [] && ScanStart(r.engine) == 0
    ensures forall s :: TrendOf(r, s) == Sideways && BarsOf(r, s) == []
  {
    Detector(NewEngine(depth, tolerance), map[], map[], [])
  }

  function TrendOf(d: Detector, symbol: string): Trend {
    if symbol in d.trends then d.trends[symbol] else Sideways
  }

  function BarsOf(d: Detector, symbol: string): seq<Bar> {
    if symbol in d.bars then d.bars[symbol] else []
  }

  // ---------------------------------------------------------------------------
  // Tick-to-bar aggregation

  /** Folds a tick at price `mid` into the bar of its own bucket. */
  function MergeTick(b: Bar, mid: real, volume: real): (r: Bar)
    ensures r.open == b.open && r.time == b.time
    ensures r.high >= b.high && r.high >= mid && (r.high == b.high || r.high == mid)
    ensures r.low <= b.low && r.low <= mid && (r.low == b.low || r.low == mid)
    ensures r.close == mid && r.volume == b.volume + volume
    ensures WellFormedBar(b) ==> WellFormedBar(r)
  {
    Bar(b.open, MaxReal(b.high, mid), MinReal(b.low, mid), mid, b.volume + volume, b.time)
  }

  /** The bar a tick opens in a new bucket: every price is `mid`. */
  function OpenBar(mid: real, volume: real, time: int): (r: Bar)
    ensures r.open == mid && r.high == mid && r.low == mid && r.close == mid
    ensures r.volume == volume && r.time == time
    ensures WellFormedBar(r)
  {
    Bar(mid, mid, mid, mid, volume, time)
  }

  /** Keeps the most recent `MaxBars` bars (pandas' `tail(1000)` once over the bound). */
  function CapBars(bars: seq<Bar>): (r: seq<Bar>)
    ensures |r| <= MaxBars
    ensures |bars| <= MaxBars ==> r == bars
    ensures |bars| > MaxBars ==> |r| == MaxBars
    ensures r == bars[|bars| - |r|..]
  {
    if |bars| > MaxBars then bars[|bars| - MaxBars..] else bars
  }

  /**
   * Folds one tick (mid price, time in seconds, volume) into a symbol's bars:
   * a tick in the last bar's bucket updates that bar, any other tick opens a
   * new bar; then the buffer is cut back to the most recent `MaxBars`.
   */
  function UpdateBars(bars: seq<Bar>, mid: real, t: int, volume: real): (r: seq<Bar>)
    ensures 0 < |r| <= MaxBars
    ensures |bars| > 0 && Last(bars).time == BarTime(t) ==>
      && Last(r) == MergeTick(Last(bars), mid, volume)
      && |r| == (if |bars| > MaxBars then MaxBars else |bars|)
      && r[..|r| - 1] == bars[|bars| - |r|..|bars| - 1]
    ensures !(|bars| > 0 && Last(bars).time == BarTime(t)) ==>
      && Last(r) == OpenBar(mid, volume, BarTime(t))
      && |r| == (if |bars| >= MaxBars then MaxBars else |bars| + 1)
      && r[..|r| - 1] == bars[|bars| - (|r| - 1)..]
  {
    var bt := BarTime(t);
    var updated :=
      if |bars| > 0 && Last(bars).time == bt then bars[..|bars| - 1] + [MergeTick(Last(bars), mid, volume)]
      else bars + [OpenBar(mid, volume, bt)];
    CapBars(updated)
  }

  /** Aggregation keeps every bar well formed. */
  lemma UpdateBarsKeepsWellFormed(bars: seq<Bar>, mid: real, t: int, volume: real)
    requires forall k | 0 <= k < |bars| :: WellFormedBar(bars[k])
    ensures var r := UpdateBars(bars, mid, t, volume);
      forall k | 0 <= k < |r| :: WellFormedBar(r[k])
  {
    var r := UpdateBars(bars, mid, t, volume);
    forall k | 0 <= k < |r|
      ensures WellFormedBar(r[k])
    {
      if k < |r| - 1 {
        assert r[k] == r[..|r| - 1][k];
      }
    }
  }

  /**
   * Ticks that never go back to an earlier bucket keep one bar per bucket in
   * time order, the last one in the tick's bucket.
   */
  lemma UpdateBarsKeepsOrder(bars: seq<Bar>, mid: real, t: int, volume: real)
    requires StrictlyOrdered(bars)
    requires |bars| > 0 ==> Last(bars).time <= BarTime(t)
    ensures StrictlyOrdered(UpdateBars(bars, mid, t, volume))
    ensures Last(UpdateBars(bars, mid, t, volume)).time == BarTime(t)
  {
    var r := UpdateBars(bars, mid, t, volume);
    var off := UpdateBarsOlder(bars, mid, t, volume);
    OrderedAfterRun(bars, r, off, BarTime(t));
  }

  /**
   * A run of strictly ordered bars followed by one bar of a later bucket than
   * all of them is strictly ordered.
   */
  lemma OrderedAfterRun(bars: seq<Bar>, r: seq<Bar>, off: nat, bt: int)
    requires StrictlyOrdered(bars)
    requires 0 < |r| && off + |r| - 1 <= |bars|
    requires forall k | 0 <= k < |r| - 1 :: r[k] == bars[off + k]
    requires Last(r).time == bt
    requires |bars| > 0 ==> Last(bars).time <= bt
    requires off + |r| - 1 == |bars| && |bars| > 0 ==> Last(bars).time < bt
    ensures StrictlyOrdered(r)
  {
    forall k | 0 <= k < |r| - 1
      ensures r[k].time < bt
    {
      if off + k < |bars| - 1 {
        assert bars[off + k].time < Last(bars).time;
      }
    }
    forall i, j | 0 <= i < j < |r|
      ensures r[i].time < r[j].time
    {
      if j < |r| - 1 {
        assert r[i] == bars[off + i] && r[j] == bars[off + j];
      }
    }
  }

  /**
   * All but the newest of the updated bars are a run of the old bars starting
   * at `off`; the newest old bar is among them only if its bucket differs from the tick's.
   */
  lemma UpdateBarsOlder(bars: seq<Bar>, mid: real, t: int, volume: real) returns (off: nat)
    ensures var r := UpdateBars(bars, mid, t, volume);
      && off + |r| - 1 <= |bars|
      && (off + |r| - 1 == |bars| ==> !(|bars| > 0 && Last(bars).time == BarTime(t)))
      && (forall k | 0 <= k < |r| - 1 :: r[k] == bars[off + k])
  {
    var r := UpdateBars(bars, mid, t, volume);
    off := if |bars| > 0 && Last(bars).time == BarTime(t) then |bars| - |r| else |bars| - (|r| - 1);
    forall k | 0 <= k < |r| - 1
      ensures r[k] == bars[off + k]
    {
      assert r[k] == r[..|r| - 1][k];
    }
  }

  /**
   * A tick no older than the one that opened or last updated the newest bar
   * keeps the buffer in strict bucket order.
   */
  lemma UpdateBarsInTimeOrder(bars: seq<Bar>, mid: real, s: int, t: int, volume: real)
    requires StrictlyOrdered(bars)
    requires |bars| > 0 ==> Last(bars).time == BarTime(s)
    requires s <= t
    ensures StrictlyOrdered(UpdateBars(bars, mid, t, volume))
    ensures Last(UpdateBars(bars, mid, t, volume)).time == BarTime(t)
  {
    BarTimeMonotone(s, t);
    UpdateBarsKeepsOrder(bars, mid, t, volume);
  }

  // ---------------------------------------------------------------------------
  // The trend machine

  /** A confirmed reversal: the new direction, its price and the two swing points behind it. */
  datatype Reversal = Reversal(direction: Trend, price: real, points: seq<SwingPoint>)

  /**
   * The CHoCH rule. With at least two swing highs and two swing lows: from
   * BEARISH, a latest high above the previous one turns the trend BULLISH;
   * from BULLISH, a latest low below the previous one turns it BEARISH.
   * SIDEWAYS has no way out.
   */
  function ReversalOf(trend: Trend, highs: seq<SwingPoint>, lows: seq<SwingPoint>): (r: Option<Reversal>)
    ensures trend == Sideways ==> r == None
    ensures r.Some? ==> |highs| >= 2 && |lows| >= 2 && r.value.direction != trend && r.value.direction != Sideways
    ensures r.Some? && trend == Bearish ==>
      && r.value.direction == Bullish
      && r.value.points == [highs[|highs| - 2], Last(highs)]
      && r.value.price == Last(highs).price > highs[|highs| - 2].price
    ensures r.Some? && trend == Bullish ==>
      && r.value.direction == Bearish
      && r.value.points == [lows[|lows| - 2], Last(lows)]
      && r.value.price == Last(lows).price < lows[|lows| - 2].price
    ensures |highs| >= 2 && |lows| >= 2 && trend == Bearish && Last(highs).price > highs[|highs| - 2].price ==> r.Some?
    ensures |highs| >= 2 && |lows| >= 2 && trend == Bullish && Last(lows).price < lows[|lows| - 2].price ==> r.Some?
  {
    if |highs| < 2 || |lows| < 2 then
      None
    else
      match trend
      case Bearish =>
        var recent := highs[|highs| - 2..];
        if recent[1].price > recent[0].price then Some(Reversal(Bullish, recent[1].price, recent)) else None
      case Bullish =>
        var recent := lows[|lows| - 2..];
        if recent[1].price < recent[0].price then Some(Reversal(Bearish, recent[1].price, recent)) else None
      case Sideways =>
        None
  }

  /** The CHoCH event for a reversal on `symbol`, detected at time `now`. */
  function ChochEvent(symbol: string, rev: Reversal, now: int): (r: PatternEvent)
    ensures r.kind == Choch && r.confidence == ChochConfidence
    ensures r.symbol == symbol && r.timestamp == now
    ensures r.direction == rev.direction && r.price == rev.price && r.swingPoints == rev.points
  {
    PatternEvent(Choch, symbol, rev.direction, rev.price, now, ChochConfidence, rev.points)
  }

  /** Applies the CHoCH rule: on a reversal, records the event and switches the symbol's trend. */
  function DetectChoch(d: Detector, symbol: string, highs: seq<SwingPoint>, lows: seq<SwingPoint>, now: int): (r: Step)
    ensures r.detector.engine == d.engine && r.detector.bars == d.bars
    ensures r.detector.history == d.history + r.emitted && |r.emitted| <= 1
    ensures r.emitted == [] ==> r.detector == d
    ensures r.emitted != [] ==>
      && r.emitted[0].kind == Choch && r.emitted[0].symbol == symbol && r.emitted[0].timestamp == now
      && r.emitted[0].confidence == ChochConfidence
      && r.emitted[0].direction != TrendOf(d, symbol)
      && r.detector.trends == d.trends[symbol := r.emitted[0].direction]
    ensures TrendOf(d, symbol) == Sideways ==> r.emitted == []
    ensures r.emitted != [] <==> ReversalOf(TrendOf(d, symbol), highs, lows).Some?
    ensures r.emitted != [] ==> r.emitted[0] == ChochEvent(symbol, ReversalOf(TrendOf(d, symbol), highs, lows).value, now)
  {
    match ReversalOf(TrendOf(d, symbol), highs, lows)
    case None => Step(d, [])
    case Some(rev) =>
      var ev := ChochEvent(symbol, rev, now);
      Step(d.(history := d.history + [ev], trends := d.trends[symbol := rev.direction]), [ev])
  }

  /**
   * Runs the shared swing engine over the symbol's bars and applies the CHoCH
   * rule; nothing happens while the symbol has fewer than `4*depth` bars. The
   * BOS check that follows in the source has an empty body.
   */
  function AnalyzePatterns(d: Detector, symbol: string, now: int): (r: Step)
    ensures symbol !in d.bars || |d.bars[symbol]| < 4 * d.engine.depth ==> r == Step(d, [])
    ensures r.detector.bars == d.bars
    ensures r.detector.history == d.history + r.emitted && |r.emitted| <= 1
    ensures forall ev | ev in r.emitted ::
      ev.kind == Choch && ev.symbol == symbol && ev.confidence == ChochConfidence && ev.timestamp == now
    ensures forall s | s != symbol :: TrendOf(r.detector, s) == TrendOf(d, s)
    ensures r.emitted == [] ==> TrendOf(r.detector, symbol) == TrendOf(d, symbol)
    ensures r.emitted != [] ==>
      TrendOf(r.detector, symbol) == r.emitted[0].direction != TrendOf(d, symbol)
    ensures TrendOf(d, symbol) == Sideways ==> r.emitted == []
    ensures symbol in d.bars && |d.bars[symbol]| >= 4 * d.engine.depth ==>
      && r.detector.engine == ProcessCandles(d.engine, d.bars[symbol])
      && (r.emitted != [] <==> ReversalOf(TrendOf(d, symbol), r.detector.engine.highs, r.detector.engine.lows).Some?)
      && (r.emitted != [] ==>
            r.emitted[0] == ChochEvent(symbol, ReversalOf(TrendOf(d, symbol), r.detector.engine.highs, r.detector.engine.lows).value, now))
  {
    if symbol !in d.bars || |d.bars[symbol]| < 4 * d.engine.depth then
      Step(d, [])
    else
      var e := ProcessCandles(d.engine, d.bars[symbol]);
      DetectChoch(d.(engine := e), symbol, e.highs, e.lows, now)
  }

  /**
   * Handles one tick for `symbol` at clock value `now`. A tick without bid or
   * ask fails before any bar changes (the symbol still gets an empty buffer if
   * it had none); otherwise the tick is folded into the bars and analysed.
   */
  function ProcessTick(d: Detector, symbol: string, tick: Tick, now: int): (r: Step)
    ensures symbol in r.detector.bars
    ensures forall s | s != symbol :: s in r.detector.bars <==> s in d.bars
    ensures forall s | s != symbol && s in d.bars :: r.detector.bars[s] == d.bars[s]
    ensures MidPrice(tick).Some? ==>
      r.detector.bars[symbol] == UpdateBars(BarsOf(d, symbol), MidPrice(tick).value, tick.timestamp, tick.volume.GetOr(1.0))
    ensures MidPrice(tick).None? ==> r.detector.bars[symbol] == BarsOf(d, symbol) && r.emitted == []
    ensures MidPrice(tick).None? ==> r.detector.engine == d.engine && r.detector.trends == d.trends
    ensures MidPrice(tick).Some? && |r.detector.bars[symbol]| < 4 * d.engine.depth ==>
      r.detector.engine == d.engine && r.emitted == []
    ensures MidPrice(tick).Some? && |r.detector.bars[symbol]| >= 4 * d.engine.depth ==>
      && r.detector.engine == ProcessCandles(d.engine, r.detector.bars[symbol])
      && (r.emitted != [] <==> ReversalOf(TrendOf(d, symbol), r.detector.engine.highs, r.detector.engine.lows).Some?)
      && (r.emitted != [] ==>
            r.emitted[0] == ChochEvent(symbol, ReversalOf(TrendOf(d, symbol), r.detector.engine.highs, r.detector.engine.lows).value, now))
    ensures r.detector.history == d.history + r.emitted && |r.emitted| <= 1
    ensures forall ev | ev in r.emitted ::
      ev.kind == Choch && ev.symbol == symbol && ev.confidence == ChochConfidence && ev.timestamp == now
    ensures forall s | s != symbol :: TrendOf(r.detector, s) == TrendOf(d, s)
    ensures r.emitted == [] ==> TrendOf(r.detector, symbol) == TrendOf(d, symbol)
    ensures r.emitted != [] ==>
      TrendOf(r.detector, symbol) == r.emitted[0].direction != TrendOf(d, symbol)
    ensures TrendOf(d, symbol) == Sideways ==> r.emitted == []
  {
    var current := BarsOf(d, symbol);
    match MidPrice(tick)
    case None =>
      Step(d.(bars := d.bars[symbol := current]), [])
    case Some(mid) =>
      var updated := UpdateBars(current, mid, tick.timestamp, tick.volume.GetOr(1.0));
      var d1 := d.(bars := d.bars[symbol := updated]);
      assert d1.bars[symbol] == updated && d1.engine == d.engine && TrendOf(d1, symbol) == TrendOf(d, symbol);
      AnalyzePatterns(d1, symbol, now)
  }

  /**
   * Offline replay: installs `bars` for the symbol, resets its trend to
   * SIDEWAYS, clears the history and runs the shared swing engine. The CHoCH
   * rule is never applied, so the returned events are always empty.
   */
  function Backtest(d: Detector, symbol: string, bars: seq<Bar>): (r: Step)
    ensures r.emitted == [] && r.detector.history == []
    ensures TrendOf(r.detector, symbol) == Sideways
    ensures forall s | s != symbol :: TrendOf(r.detector, s) == TrendOf(d, s)
    ensures r.detector.bars == d.bars[symbol := bars]
    ensures r.detector.engine == ProcessCandles(d.engine, bars)
  {
    var d1 := Detector(ProcessCandles(d.engine, bars), d.bars[symbol := bars], d.trends[symbol := Sideways], []);
    Step(d1, d1.history)
  }

  // ---------------------------------------------------------------------------
  // Runs of operations

  datatype Op = TickOp(symbol: string, tick: Tick, now: int) | BacktestOp(symbol: string, bars: seq<Bar>)

  function Apply(d: Detector, op: Op): Step {
    match op
    case TickOp(symbol, tick, now) => ProcessTick(d, symbol, tick, now)
    case BacktestOp(symbol, bars) => Backtest(d, symbol, bars)
  }

  /** Applies `ops` in order, collecting every emitted event. */
  function Run(d: Detector, ops: seq<Op>): Step
    decreases |ops|
  {
    if |ops| == 0 then
      Step(d, [])
    else
      var first := Apply(d, ops[0]);
      var rest := Run(first.detector, ops[1..]);
      Step(rest.detector, first.emitted + rest.emitted)
  }

  /** Every known symbol is SIDEWAYS and no event has been recorded. */
  predicate Quiet(d: Detector) {
    d.history == [] && forall s | s in d.trends :: d.trends[s] == Sideways
  }

  /** One tick or backtest leaves a quiet detector quiet and emits nothing. */
  lemma ApplyKeepsQuiet(d: Detector, op: Op)
    requires Quiet(d)
    ensures Apply(d, op).emitted == []
    ensures Quiet(Apply(d, op).detector)
  {
    var r := Apply(d, op);
    forall s | s in r.detector.trends
      ensures r.detector.trends[s] == Sideways
    {
      assert r.detector.trends[s] == TrendOf(r.detector, s);
    }
  }

  /** No run of ticks and backtests leads out of a quiet state, and a quiet detector emits nothing. */
  lemma {:induction false} QuietIsForever(d: Detector, ops: seq<Op>)
    requires Quiet(d)
    ensures Run(d, ops).emitted == []
    ensures Quiet(Run(d, ops).detector)
    decreases |ops|
  {
    if |ops| > 0 {
      var first := Apply(d, ops[0]);
      ApplyKeepsQuiet(d, ops[0]);
      QuietIsForever(first.detector, ops[1..]);
    }
  }

  /**
   * A freshly built detector never emits a CHoCH, whatever ticks and
   * backtests it is fed: every symbol starts SIDEWAYS and stays there.
   */
  lemma FreshDetectorNeverEmits(depth: nat, tolerance: real, ops: seq<Op>)
    ensures Run(NewDetector(depth, tolerance), ops).emitted == []
    ensures Run(NewDetector(depth, tolerance), ops).detector.history == []
  {
    QuietIsForever(NewDetector(depth, tolerance), ops);
  }

  /** One tick or backtest keeps the deduplication law on the shared swing engine. */
  lemma ApplyKeepsEngineValid(d: Detector, op: Op)
    requires Valid(d.engine)
    ensures Valid(Apply(d, op).detector.engine)
  {
    match op
    case TickOp(symbol, tick, now) =>
      if MidPrice(tick).Some? {
        var mid := MidPrice(tick).value;
        ProcessCandlesKeepsValid(d.engine, UpdateBars(BarsOf(d, symbol), mid, tick.timestamp, tick.volume.GetOr(1.0)));
      }
    case BacktestOp(symbol, bars) =>
      ProcessCandlesKeepsValid(d.engine, bars);
  }

  /**
   * The deduplication law holds of the shared engine after any run of ticks
   * and backtests, on every symbol's behalf, starting from a fresh detector.
   */
  lemma {:induction false} RunKeepsEngineValid(d: Detector, ops: seq<Op>)
    requires Valid(d.engine)
    ensures Valid(Run(d, ops).detector.engine)
    decreases |ops|
  {
    if |ops| > 0 {
      ApplyKeepsEngineValid(d, ops[0]);
      RunKeepsEngineValid(Apply(d, ops[0]).detector, ops[1..]);
    }
  }

  lemma FreshDetectorKeepsDedupLaw(depth: nat, tolerance: real, ops: seq<Op>)
    ensures Valid(Run(NewDetector(depth, tolerance), ops).detector.engine)
  {
    RunKeepsEngineValid(NewDetector(depth, tolerance), ops);
  }
}

/**
 * Market data shared by the swing extractor, the trend detector and the
 * region tracker: one OHLCV bar per one-minute bucket, and the raw bid/ask tick.
 */
module Market {
  import opened Common

  /** Length of one bar bucket, in seconds (pandas' `floor('T')`). */
  const BucketSeconds: int := 60

  /** One OHLCV bar; `time` is the start of its one-minute bucket, in seconds. */
  datatype Bar = Bar(open: real, high: real, low: real, close: real, volume: real, time: int)

  /**
   * A price observation. `bid`, `ask` and `volume` are keys the feed may leave
   * out of its dictionary, so each is optional; `timestamp` is in seconds.
   */
  datatype Tick = Tick(bid: Option<real>, ask: Option<real>, volume: Option<real>, timestamp: int)

  /** The start of the minute bucket holding `t` (floor to a multiple of 60, also for negative `t`). */
  function BarTime(t: int): (r: int)
    ensures r <= t < r + BucketSeconds
    ensures r % BucketSeconds == 0
  {
    (t / BucketSeconds) * BucketSeconds
  }

  /** The mid price `(bid + ask) / 2`, or `None` when either side is missing. */
  function MidPrice(tick: Tick): (r: Option<real>)
    ensures r.Some? <==> tick.bid.Some? && tick.ask.Some?
    ensures r.Some? ==>
      && MinReal(tick.bid.value, tick.ask.value) <= r.value <= MaxReal(tick.bid.value, tick.ask.value)
      && r.value - tick.bid.value == tick.ask.value - r.value
  {
    if tick.bid.Some? && tick.ask.Some? then Some((tick.bid.value + tick.ask.value) / 2.0) else None
  }

  /** A bar whose extremes bracket its open and its close. */
  predicate WellFormedBar(b: Bar) {
    b.low <= b.open <= b.high && b.low <= b.close <= b.high
  }

  /** Bars strictly ordered by bucket time: one bar per bucket, oldest first. */
  predicate StrictlyOrdered(bars: seq<Bar>) {
    forall i, j | 0 <= i < j < |bars| :: bars[i].time < bars[j].time
  }

  /** A later tick never falls in an earlier bucket. */
  lemma BarTimeMonotone(s: int, t: int)
    requires s <= t
    ensures BarTime(s) <= BarTime(t)
  {
  }
}

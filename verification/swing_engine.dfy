/**
 * The swing extractor: scans an OHLC bar sequence and appends swing highs and
 * swing lows (strict local extrema over a symmetric window of `depth` bars,
 * with a `tolerance` dead band), suppressing near-duplicate consecutive points.
 * The engine is a value; every operation returns the next engine.
 */
module SwingEngine {
  import opened Common
  import opened Market

  datatype SwingKind = High | Low

  /** A detected extremum: `index` into the bar sequence it was found in. */
  datatype SwingPoint = SwingPoint(index: int, price: real, timestamp: int, kind: SwingKind, strength: real)

  /** The strength every detected swing point is created with. */
  const DetectedStrength: real := 0.5

  /**
   * The extractor's state: its two parameters, the two append-only point lists,
   * and the end of the last scanned range (`-1` before the first scan).
   */
  datatype Engine = Engine(depth: nat, tolerance: real, highs: seq<SwingPoint>, lows: seq<SwingPoint>, lastProcessed: int)

  /** An engine as constructed: no swing points yet, nothing processed. */
  function NewEngine(depth: nat, tolerance: real): (r: Engine)
    ensures r.depth == depth && r.tolerance == tolerance
    ensures r.highs == [] && r.lows == [] && r.lastProcessed < 0
  {
    Engine(depth, tolerance, [], [], -1)
  }

  // ---------------------------------------------------------------------------
  // Window dominance

  /** Bar `i` has a full window and its high beats every neighbour's high by more than `tol`. */
  predicate IsSwingHighAt(bars: seq<Bar>, i: int, depth: nat, tol: real) {
    && depth <= i < |bars| - depth
    && forall j | i - depth <= j <= i + depth && j != i :: bars[j].high < bars[i].high - tol
  }

  /** Bar `i` has a full window and its low undercuts every neighbour's low by more than `tol`. */
  predicate IsSwingLowAt(bars: seq<Bar>, i: int, depth: nat, tol: real) {
    && depth <= i < |bars| - depth
    && forall j | i - depth <= j <= i + depth && j != i :: bars[j].low > bars[i].low + tol
  }

  predicate IsSwingAt(bars: seq<Bar>, i: int, kind: SwingKind, depth: nat, tol: real) {
    match kind
    case High => IsSwingHighAt(bars, i, depth, tol)
    case Low => IsSwingLowAt(bars, i, depth, tol)
  }

  /** The point the extractor creates for bar `i`: its high or its low, at strength 0.5. */
  function PointAt(bars: seq<Bar>, i: int, kind: SwingKind): SwingPoint
    requires 0 <= i < |bars|
  {
    var price := match kind case High => bars[i].high case Low => bars[i].low;
    SwingPoint(i, price, bars[i].time, kind, DetectedStrength)
  }

  /**
   * The scan the source performs for a swing high: the left half of the window,
   * then the right half, stopping at the first neighbour that is too high.
   */
  method IsSwingHigh(bars: seq<Bar>, index: int, depth: nat, tol: real) returns (b: bool)
    requires depth <= index < |bars| - depth
    ensures b <==> IsSwingHighAt(bars, index, depth, tol)
  {
    var current := bars[index].high;
    var i := index - depth;
    while i < index
      invariant index - depth <= i <= index
      invariant forall j | index - depth <= j < i :: bars[j].high < current - tol
    {
      if bars[i].high >= current - tol {
        return false;
      }
      i := i + 1;
    }
    i := index + 1;
    while i < index + depth + 1
      invariant index + 1 <= i <= index + depth + 1
      invariant forall j | index + 1 <= j < i :: bars[j].high < current - tol
    {
      if bars[i].high >= current - tol {
        return false;
      }
      i := i + 1;
    }
    return true;
  }

  /** The mirror scan for a swing low. */
  method IsSwingLow(bars: seq<Bar>, index: int, depth: nat, tol: real) returns (b: bool)
    requires depth <= index < |bars| - depth
    ensures b <==> IsSwingLowAt(bars, index, depth, tol)
  {
    var current := bars[index].low;
    var i := index - depth;
    while i < index
      invariant index - depth <= i <= index
      invariant forall j | index - depth <= j < i :: bars[j].low > current + tol
    {
      if bars[i].low <= current + tol {
        return false;
      }
      i := i + 1;
    }
    i := index + 1;
    while i < index + depth + 1
      invariant index + 1 <= i <= index + depth + 1
      invariant forall j | index + 1 <= j < i :: bars[j].low > current + tol
    {
      if bars[i].low <= current + tol {
        return false;
      }
      i := i + 1;
    }
    return true;
  }

  /** No second swing point of the same kind lies inside the window of a swing point. */
  lemma NoSwingNearSwing(bars: seq<Bar>, i: int, j: int, kind: SwingKind, depth: nat, tol: real)
    requires tol >= 0.0
    requires IsSwingAt(bars, i, kind, depth, tol)
    requires i != j && AbsInt(i - j) <= depth
    ensures !IsSwingAt(bars, j, kind, depth, tol)
  {
    match kind
    case High => assert bars[j].high < bars[i].high - tol;
    case Low => assert bars[j].low > bars[i].low + tol;
  }

  // ---------------------------------------------------------------------------
  // Deduplication

  /** Both the price and the index of `a` and `b` differ by less than the thresholds. */
  predicate Near(a: SwingPoint, b: SwingPoint, depth: nat, tol: real) {
    AbsReal(a.price - b.price) < tol && AbsInt(a.index - b.index) < depth
  }

  /** `p` is a near-copy of the most recent point of `existing`. */
  predicate IsDuplicate(p: SwingPoint, existing: seq<SwingPoint>, depth: nat, tol: real) {
    |existing| > 0 && Near(p, Last(existing), depth, tol)
  }

  /** The deduplication law: no two consecutive points are near-copies of each other. */
  predicate DedupLaw(pts: seq<SwingPoint>, depth: nat, tol: real) {
    forall k | 0 < k < |pts| :: !Near(pts[k], pts[k - 1], depth, tol)
  }

  /** Some point of `pts` is `p` itself or a near-copy of it. */
  predicate Covered(pts: seq<SwingPoint>, p: SwingPoint, depth: nat, tol: real) {
    exists k | 0 <= k < |pts| :: pts[k] == p || Near(pts[k], p, depth, tol)
  }

  /** Appends `p` unless it is a near-copy of the current last point. */
  function AppendUnlessDuplicate(pts: seq<SwingPoint>, p: SwingPoint, depth: nat, tol: real): (r: seq<SwingPoint>)
    ensures pts <= r && |r| <= |pts| + 1
    ensures |r| == |pts| + 1 ==> Last(r) == p
    ensures Covered(r, p, depth, tol)
    ensures DedupLaw(pts, depth, tol) ==> DedupLaw(r, depth, tol)
    ensures 0.0 < tol && 0 < depth ==> IsDuplicate(p, r, depth, tol)
  {
    if IsDuplicate(p, pts, depth, tol) then
      assert Near(pts[|pts| - 1], p, depth, tol);
      pts
    else
      var r := pts + [p];
      assert r[|pts|] == p;
      r
  }

  lemma CoveredGrows(pts: seq<SwingPoint>, more: seq<SwingPoint>, p: SwingPoint, depth: nat, tol: real)
    requires pts <= more
    requires Covered(pts, p, depth, tol)
    ensures Covered(more, p, depth, tol)
  {
    var k :| 0 <= k < |pts| && (pts[k] == p || Near(pts[k], p, depth, tol));
    assert more[k] == pts[k];
  }

  // ---------------------------------------------------------------------------
  // Scanning

  /**
   * The points of `pts` from position `from` on are swing points of `kind`
   * detected in `bars`, with indices strictly increasing inside `[lo, hi)`.
   */
  predicate FreshPoints(pts: seq<SwingPoint>, from: nat, bars: seq<Bar>, kind: SwingKind, depth: nat, tol: real, lo: int, hi: int)
    requires from <= |pts|
  {
    && (forall k | from <= k < |pts| ::
          && lo <= pts[k].index < hi
          && IsSwingAt(bars, pts[k].index, kind, depth, tol)
          && pts[k] == PointAt(bars, pts[k].index, kind))
    && (forall k, m | from <= k < m < |pts| :: pts[k].index < pts[m].index)
  }

  /** Examines bar `i` as a candidate swing high and swing low, appending what survives deduplication. */
  function CheckSwingAt(e: Engine, bars: seq<Bar>, i: int): (r: Engine)
    ensures r.depth == e.depth && r.tolerance == e.tolerance && r.lastProcessed == e.lastProcessed
    ensures e.highs <= r.highs && |r.highs| <= |e.highs| + 1
    ensures e.lows <= r.lows && |r.lows| <= |e.lows| + 1
  {
    if i < e.depth || i >= |bars| - e.depth then
      e
    else
      var e1 :=
        if IsSwingHighAt(bars, i, e.depth, e.tolerance) then
          e.(highs := AppendUnlessDuplicate(e.highs, PointAt(bars, i, High), e.depth, e.tolerance))
        else e;
      if IsSwingLowAt(bars, i, e.depth, e.tolerance) then
        e1.(lows := AppendUnlessDuplicate(e1.lows, PointAt(bars, i, Low), e.depth, e.tolerance))
      else e1
  }

  /**
   * What one candidate check appends: only bar `i`'s own high (low), only when
   * bar `i` passes the window test; and a swing bar always ends up covered.
   */
  lemma CheckSwingAtAppends(e: Engine, bars: seq<Bar>, i: int)
    ensures var r := CheckSwingAt(e, bars, i);
      && (|r.highs| == |e.highs| + 1 ==> IsSwingHighAt(bars, i, e.depth, e.tolerance) && Last(r.highs) == PointAt(bars, i, High))
      && (|r.lows| == |e.lows| + 1 ==> IsSwingLowAt(bars, i, e.depth, e.tolerance) && Last(r.lows) == PointAt(bars, i, Low))
      && (IsSwingHighAt(bars, i, e.depth, e.tolerance) ==> Covered(r.highs, PointAt(bars, i, High), e.depth, e.tolerance))
      && (IsSwingLowAt(bars, i, e.depth, e.tolerance) ==> Covered(r.lows, PointAt(bars, i, Low), e.depth, e.tolerance))
      && (IsSwingHighAt(bars, i, e.depth, e.tolerance) ==>
            (|r.highs| == |e.highs| + 1 <==> !IsDuplicate(PointAt(bars, i, High), e.highs, e.depth, e.tolerance)))
      && (IsSwingLowAt(bars, i, e.depth, e.tolerance) ==>
            (|r.lows| == |e.lows| + 1 <==> !IsDuplicate(PointAt(bars, i, Low), e.lows, e.depth, e.tolerance)))
  {
  }

  /** The source's `for i in range(i, end)` loop over `CheckSwingAt`. */
  function Scan(e: Engine, bars: seq<Bar>, i: int, end: int): (r: Engine)
    ensures r.depth == e.depth && r.tolerance == e.tolerance && r.lastProcessed == e.lastProcessed
    ensures e.highs <= r.highs && e.lows <= r.lows
    decreases end - i
  {
    if i >= end then e else Scan(CheckSwingAt(e, bars, i), bars, i + 1, end)
  }

  /**
   * Everything a scan of `[i, end)` appends is a swing point of `bars` priced
   * at its bar's high (low), with indices strictly increasing inside the range.
   */
  lemma {:induction false} ScanFresh(e: Engine, bars: seq<Bar>, i: int, end: int)
    ensures FreshPoints(Scan(e, bars, i, end).highs, |e.highs|, bars, High, e.depth, e.tolerance, i, end)
    ensures FreshPoints(Scan(e, bars, i, end).lows, |e.lows|, bars, Low, e.depth, e.tolerance, i, end)
    decreases end - i
  {
    if i < end {
      var e1 := CheckSwingAt(e, bars, i);
      CheckSwingAtAppends(e, bars, i);
      ScanFresh(e1, bars, i + 1, end);
      var r := Scan(e1, bars, i + 1, end);
      if |e1.highs| == |e.highs| + 1 {
        assert r.highs[|e.highs|] == e1.highs[|e.highs|];
      }
      if |e1.lows| == |e.lows| + 1 {
        assert r.lows[|e.lows|] == e1.lows[|e.lows|];
      }
    }
  }

  /** Where the next scan starts: `depth` bars before the end of the previous one, never below 0. */
  function ScanStart(e: Engine): int {
    MaxInt(0, e.lastProcessed - e.depth)
  }

  /**
   * Scans the bars not yet confirmed plus an overlap of `depth` bars, then
   * records the end of the scanned range. With fewer than `2*depth+1` bars
   * no window is complete and the engine is returned as it is.
   */
  function ProcessCandles(e: Engine, bars: seq<Bar>): (r: Engine)
    ensures |bars| < 2 * e.depth + 1 ==> r == e
    ensures |bars| >= 2 * e.depth + 1 ==> r.lastProcessed == |bars| - e.depth
    ensures r.depth == e.depth && r.tolerance == e.tolerance
    ensures e.highs <= r.highs && e.lows <= r.lows
  {
    if |bars| < 2 * e.depth + 1 then
      e
    else
      var end := |bars| - e.depth;
      Scan(e, bars, ScanStart(e), end).(lastProcessed := end)
  }

  /** Empties both point lists and forgets how far the bars were scanned. */
  function ClearSwings(e: Engine): (r: Engine)
    ensures r == NewEngine(e.depth, e.tolerance)
    ensures ScanStart(r) == 0
  {
    e.(highs := [], lows := [], lastProcessed := -1)
  }

  // ---------------------------------------------------------------------------
  // Properties of the scan

  /**
   * Every point a call appends is a swing point of `bars` (so its window is
   * complete), priced at its bar's high (low), with indices strictly
   * increasing inside `[max(0, lastProcessed - depth), len - depth)`.
   */
  lemma ProcessCandlesFresh(e: Engine, bars: seq<Bar>)
    ensures var r := ProcessCandles(e, bars);
      && FreshPoints(r.highs, |e.highs|, bars, High, e.depth, e.tolerance, ScanStart(e), |bars| - e.depth)
      && FreshPoints(r.lows, |e.lows|, bars, Low, e.depth, e.tolerance, ScanStart(e), |bars| - e.depth)
  {
    if |bars| >= 2 * e.depth + 1 {
      ScanFresh(e, bars, ScanStart(e), |bars| - e.depth);
    }
  }

  /** The engine invariant: both point lists obey the deduplication law. */
  predicate Valid(e: Engine) {
    DedupLaw(e.highs, e.depth, e.tolerance) && DedupLaw(e.lows, e.depth, e.tolerance)
  }

  lemma {:induction false} ScanKeepsValid(e: Engine, bars: seq<Bar>, i: int, end: int)
    requires Valid(e)
    ensures Valid(Scan(e, bars, i, end))
    decreases end - i
  {
    if i < end {
      var e1 := CheckSwingAt(e, bars, i);
      assert Valid(e1);
      ScanKeepsValid(e1, bars, i + 1, end);
    }
  }

  /** The deduplication law holds of every engine `ProcessCandles` returns from a valid one. */
  lemma ProcessCandlesKeepsValid(e: Engine, bars: seq<Bar>)
    requires Valid(e)
    ensures Valid(ProcessCandles(e, bars))
  {
    if |bars| >= 2 * e.depth + 1 {
      ScanKeepsValid(e, bars, ScanStart(e), |bars| - e.depth);
    }
  }

  /** A swing point at an index the scan visits ends up covered by the scan's result. */
  lemma {:induction false} ScanCovers(e: Engine, bars: seq<Bar>, i: int, end: int, j: int)
    requires i <= j < end && 0 <= j < |bars|
    ensures IsSwingHighAt(bars, j, e.depth, e.tolerance) ==>
      Covered(Scan(e, bars, i, end).highs, PointAt(bars, j, High), e.depth, e.tolerance)
    ensures IsSwingLowAt(bars, j, e.depth, e.tolerance) ==>
      Covered(Scan(e, bars, i, end).lows, PointAt(bars, j, Low), e.depth, e.tolerance)
    decreases end - i
  {
    var e1 := CheckSwingAt(e, bars, i);
    var r := Scan(e1, bars, i + 1, end);
    if j == i {
      CheckSwingAtAppends(e, bars, i);
      if IsSwingHighAt(bars, i, e.depth, e.tolerance) {
        CoveredGrows(e1.highs, r.highs, PointAt(bars, i, High), e.depth, e.tolerance);
      }
      if IsSwingLowAt(bars, i, e.depth, e.tolerance) {
        CoveredGrows(e1.lows, r.lows, PointAt(bars, i, Low), e.depth, e.tolerance);
      }
    } else {
      ScanCovers(e1, bars, i + 1, end, j);
    }
  }

  /**
   * Nothing in the scanned range is missed: every swing high (low) there is in
   * the result, or a near-copy of it is.
   */
  lemma ProcessCandlesCovers(e: Engine, bars: seq<Bar>, j: int)
    requires |bars| >= 2 * e.depth + 1
    requires ScanStart(e) <= j
    requires 0 <= j < |bars|
    ensures IsSwingHighAt(bars, j, e.depth, e.tolerance) ==>
      Covered(ProcessCandles(e, bars).highs, PointAt(bars, j, High), e.depth, e.tolerance)
    ensures IsSwingLowAt(bars, j, e.depth, e.tolerance) ==>
      Covered(ProcessCandles(e, bars).lows, PointAt(bars, j, Low), e.depth, e.tolerance)
  {
    if j < |bars| - e.depth {
      ScanCovers(e, bars, ScanStart(e), |bars| - e.depth, j);
    }
  }

  /** After `ClearSwings` the next call rescans the whole sequence and finds every swing point. */
  lemma ClearRestartsScan(e: Engine, bars: seq<Bar>, j: int)
    requires |bars| >= 2 * e.depth + 1
    requires 0 <= j < |bars|
    ensures IsSwingHighAt(bars, j, e.depth, e.tolerance) ==>
      Covered(ProcessCandles(ClearSwings(e), bars).highs, PointAt(bars, j, High), e.depth, e.tolerance)
    ensures IsSwingLowAt(bars, j, e.depth, e.tolerance) ==>
      Covered(ProcessCandles(ClearSwings(e), bars).lows, PointAt(bars, j, Low), e.depth, e.tolerance)
  {
    ProcessCandlesCovers(ClearSwings(e), bars, j);
  }

  /**
   * Every swing point of `kind` at an index in `[lo, hi)` would be rejected as
   * a near-copy of the last point of `pts`.
   */
  predicate TailDuplicates(pts: seq<SwingPoint>, bars: seq<Bar>, kind: SwingKind, depth: nat, tol: real, lo: int, hi: int) {
    forall j | lo <= j < hi && 0 <= j < |bars| && IsSwingAt(bars, j, kind, depth, tol) ::
      IsDuplicate(PointAt(bars, j, kind), pts, depth, tol)
  }

  /** A scan that meets only near-copies of the current last points changes nothing. */
  lemma {:induction false} ScanOfDuplicatesIsIdentity(e: Engine, bars: seq<Bar>, i: int, end: int)
    requires TailDuplicates(e.highs, bars, High, e.depth, e.tolerance, i, end)
    requires TailDuplicates(e.lows, bars, Low, e.depth, e.tolerance, i, end)
    ensures Scan(e, bars, i, end) == e
    decreases end - i
  {
    if i < end {
      assert CheckSwingAt(e, bars, i) == e;
      ScanOfDuplicatesIsIdentity(e, bars, i + 1, end);
    }
  }

  /**
   * While scanning towards `end`, the last `depth` indices before `end` hold at
   * most one swing point of each kind, and once scanned it is (a near-copy of)
   * the last point of its list.
   */
  lemma {:induction false} ScanLeavesTailDuplicates(e: Engine, bars: seq<Bar>, i: int, end: int)
    requires 0.0 < e.tolerance && 0 < e.depth
    requires TailDuplicates(e.highs, bars, High, e.depth, e.tolerance, end - e.depth, i)
    requires TailDuplicates(e.lows, bars, Low, e.depth, e.tolerance, end - e.depth, i)
    ensures TailDuplicates(Scan(e, bars, i, end).highs, bars, High, e.depth, e.tolerance, end - e.depth, end)
    ensures TailDuplicates(Scan(e, bars, i, end).lows, bars, Low, e.depth, e.tolerance, end - e.depth, end)
    decreases end - i
  {
    if i < end {
      var e1 := CheckSwingAt(e, bars, i);
      CheckSwingAtAppends(e, bars, i);
      var w := end - e.depth;
      forall j | w <= j < i && 0 <= j < |bars| && IsSwingAt(bars, j, High, e.depth, e.tolerance)
        ensures IsDuplicate(PointAt(bars, j, High), e1.highs, e.depth, e.tolerance)
      {
        if IsSwingHighAt(bars, i, e.depth, e.tolerance) {
          NoSwingNearSwing(bars, i, j, High, e.depth, e.tolerance);
        } else {
          assert e1.highs == e.highs;
        }
      }
      forall j | w <= j < i && 0 <= j < |bars| && IsSwingAt(bars, j, Low, e.depth, e.tolerance)
        ensures IsDuplicate(PointAt(bars, j, Low), e1.lows, e.depth, e.tolerance)
      {
        if IsSwingLowAt(bars, i, e.depth, e.tolerance) {
          NoSwingNearSwing(bars, i, j, Low, e.depth, e.tolerance);
        } else {
          assert e1.lows == e.lows;
        }
      }
      ScanLeavesTailDuplicates(e1, bars, i + 1, end);
    }
  }

  /**
   * Processing the same bars twice adds nothing the first call did not: the
   * rescanned overlap only meets the points already recorded. It needs a
   * positive tolerance and depth, and an engine not already past these bars.
   */
  lemma ProcessCandlesIdempotent(e: Engine, bars: seq<Bar>)
    requires 0.0 < e.tolerance && 0 < e.depth
    requires e.lastProcessed <= |bars| - e.depth
    ensures ProcessCandles(ProcessCandles(e, bars), bars) == ProcessCandles(e, bars)
  {
    if |bars| >= 2 * e.depth + 1 {
      var end := |bars| - e.depth;
      var w := end - e.depth;
      assert ScanStart(e) <= w || w < 0;
      assert TailDuplicates(e.highs, bars, High, e.depth, e.tolerance, w, ScanStart(e));
      assert TailDuplicates(e.lows, bars, Low, e.depth, e.tolerance, w, ScanStart(e));
      var s := Scan(e, bars, ScanStart(e), end);
      ScanLeavesTailDuplicates(e, bars, ScanStart(e), end);
      var r1 := s.(lastProcessed := end);
      assert r1 == ProcessCandles(e, bars);
      assert ScanStart(r1) >= w;
      assert TailDuplicates(r1.highs, bars, High, e.depth, e.tolerance, ScanStart(r1), end);
      assert TailDuplicates(r1.lows, bars, Low, e.depth, e.tolerance, ScanStart(r1), end);
      ScanOfDuplicatesIsIdentity(r1, bars, ScanStart(r1), end);
      assert ProcessCandles(r1, bars) == Scan(r1, bars, ScanStart(r1), end).(lastProcessed := end);
    }
  }
}

/**
 * The box-region tracker: per-symbol inclusive price bands with normalised
 * bounds. A tick's mid price is classified against the symbol's active bands;
 * every band it falls in counts a hit and is reported, in insertion order.
 * Region ids and clock values come from the caller.
 */
module BoxRegion {
  import opened Common
  import opened Market

  datatype Region = Region(
    id: string,
    symbol: string,
    name: string,
    upper: real,
    lower: real,
    createdAt: int,
    isActive: bool,
    regionType: string,
    hitCount: nat,
    lastHit: Option<int>)

  /** What the hit handler receives for one hit region. */
  datatype HitNotice = HitNotice(symbol: string, regionId: string, regionName: string, price: real, hitCount: nat)

  /** Regions per symbol, each list in insertion order. */
  datatype Manager = Manager(regions: map<string, seq<Region>>)

  datatype Stats = Stats(totalRegions: nat, activeRegions: nat, totalHits: nat)

  /** The region type `add_region` uses unless told otherwise. */
  const DefaultRegionType: string := "static"

  /** A manager as constructed: no symbol has regions. */
  function NewManager(): (r: Manager)
    ensures forall s, active :: GetRegions(r, s, active) == []
    ensures Statistics(r) == map[]
  {
    Manager(map[])
  }

  /** The band is closed at both ends. */
  predicate ContainsPrice(r: Region, price: real) {
    r.lower <= price <= r.upper
  }

  /** Both bounds of a band are inside it, and nothing beyond them is. */
  lemma ContainsPriceClosed(r: Region, price: real)
    requires r.lower <= r.upper
    ensures ContainsPrice(r, r.lower) && ContainsPrice(r, r.upper)
    ensures price < r.lower || r.upper < price ==> !ContainsPrice(r, price)
  {
  }

  function RegionsOf(m: Manager, symbol: string): seq<Region> {
    if symbol in m.regions then m.regions[symbol] else []
  }

  // ---------------------------------------------------------------------------
  // Adding and listing

  datatype Added = Added(manager: Manager, id: string)

  /** The region `add_region` creates: bounds sorted, active, never hit. */
  function NewRegion(symbol: string, name: string, upper: real, lower: real, regionType: string, id: string, now: int): (r: Region)
    ensures r.lower <= r.upper
    ensures {r.lower, r.upper} == {lower, upper}
    ensures r.isActive && r.hitCount == 0 && r.lastHit == None
    ensures r.id == id && r.symbol == symbol && r.name == name && r.regionType == regionType && r.createdAt == now
  {
    Region(id, symbol, name, MaxReal(upper, lower), MinReal(upper, lower), now, true, regionType, 0, None)
  }

  /** Appends a new region to `symbol`'s list and returns its id; no other symbol changes. */
  function AddRegion(m: Manager, symbol: string, name: string, upper: real, lower: real, regionType: string, id: string, now: int): (r: Added)
    ensures r.id == id
    ensures symbol in r.manager.regions
    ensures r.manager.regions[symbol] == RegionsOf(m, symbol) + [NewRegion(symbol, name, upper, lower, regionType, id, now)]
    ensures r.manager.regions.Keys == m.regions.Keys + {symbol}
    ensures forall s | s in m.regions && s != symbol :: r.manager.regions[s] == m.regions[s]
  {
    var region := NewRegion(symbol, name, upper, lower, regionType, id, now);
    Added(Manager(m.regions[symbol := RegionsOf(m, symbol) + [region]]), region.id)
  }

  /** The stored band does not depend on the order the two bounds were given in. */
  lemma AddRegionOrderIndependent(m: Manager, symbol: string, name: string, a: real, b: real, regionType: string, id: string, now: int)
    ensures AddRegion(m, symbol, name, a, b, regionType, id, now) == AddRegion(m, symbol, name, b, a, regionType, id, now)
  {
    assert NewRegion(symbol, name, a, b, regionType, id, now) == NewRegion(symbol, name, b, a, regionType, id, now);
  }

  /** An added region contains exactly the prices between its two bounds, both included. */
  lemma AddedRegionContains(m: Manager, symbol: string, name: string, a: real, b: real, regionType: string, id: string, now: int, price: real)
    ensures var added := Last(AddRegion(m, symbol, name, a, b, regionType, id, now).manager.regions[symbol]);
      ContainsPrice(added, price) <==> (a <= price <= b || b <= price <= a)
  {
  }

  /** The active regions of `rs`, in their original order. */
  function ActiveOnly(rs: seq<Region>): (r: seq<Region>)
    ensures |r| <= |rs|
    ensures forall x :: x in r <==> x in rs && x.isActive
  {
    if |rs| == 0 then [] else (if rs[0].isActive then [rs[0]] else []) + ActiveOnly(rs[1..])
  }

  /** Filtering keeps insertion order: it distributes over concatenation. */
  lemma {:induction false} ActiveOnlyAppend(a: seq<Region>, b: seq<Region>)
    ensures ActiveOnly(a + b) == ActiveOnly(a) + ActiveOnly(b)
  {
    if |a| > 0 {
      assert (a + b)[1..] == a[1..] + b;
      ActiveOnlyAppend(a[1..], b);
    } else {
      assert a + b == b;
    }
  }

  /** A symbol's regions, or only its active ones; no regions for an unknown symbol. */
  function GetRegions(m: Manager, symbol: string, activeOnly: bool): (r: seq<Region>)
    ensures symbol !in m.regions ==> r == []
    ensures !activeOnly ==> r == RegionsOf(m, symbol)
    ensures activeOnly ==> forall x :: x in r <==> x in RegionsOf(m, symbol) && x.isActive
    ensures symbol in m.regions && activeOnly ==> r == ActiveOnly(m.regions[symbol])
  {
    if symbol !in m.regions then []
    else if activeOnly then ActiveOnly(m.regions[symbol])
    else m.regions[symbol]
  }

  // ---------------------------------------------------------------------------
  // Statistics

  function TotalHits(rs: seq<Region>): nat {
    if |rs| == 0 then 0 else rs[0].hitCount + TotalHits(rs[1..])
  }

  lemma {:induction false} TotalHitsAppend(a: seq<Region>, b: seq<Region>)
    ensures TotalHits(a + b) == TotalHits(a) + TotalHits(b)
  {
    if |a| > 0 {
      assert (a + b)[1..] == a[1..] + b;
      TotalHitsAppend(a[1..], b);
    } else {
      assert a + b == b;
    }
  }

  /** Counts, per symbol, of regions, active regions and hits, computed on demand. */
  function Statistics(m: Manager): (r: map<string, Stats>)
    ensures r.Keys == m.regions.Keys
    ensures forall s | s in r ::
      && r[s].totalRegions == |m.regions[s]|
      && r[s].activeRegions == |GetRegions(m, s, true)| <= r[s].totalRegions
      && r[s].totalHits == TotalHits(m.regions[s])
  {
    map s | s in m.regions :: Stats(|m.regions[s]|, |ActiveOnly(m.regions[s])|, TotalHits(m.regions[s]))
  }

  // ---------------------------------------------------------------------------
  // Hit detection

  /** The regions after a sweep, and the notices handed to the hit handler. */
  datatype Sweep = Sweep(regions: seq<Region>, notices: seq<HitNotice>)

  predicate IsHit(r: Region, price: real) {
    r.isActive && ContainsPrice(r, price)
  }

  /**
   * Visits the regions in order; each active region containing `price` counts
   * one more hit, remembers `now` and is reported with its new count.
   */
  function HitAll(rs: seq<Region>, symbol: string, price: real, now: int): (r: Sweep)
    ensures |r.regions| == |rs|
    ensures TotalHits(r.regions) == TotalHits(rs) + |r.notices|
    ensures forall n | n in r.notices :: n.symbol == symbol && n.price == price && n.hitCount > 0
  {
    if |rs| == 0 then
      Sweep([], [])
    else
      SweepFront(rs[0], HitAll(rs[1..], symbol, price, now), symbol, price, now)
  }

  /** Puts region `x` in front of the sweep of the regions after it. */
  function SweepFront(x: Region, rest: Sweep, symbol: string, price: real, now: int): Sweep {
    if IsHit(x, price) then
      var hit := x.(hitCount := x.hitCount + 1, lastHit := Some(now));
      Sweep([hit] + rest.regions, [HitNotice(symbol, hit.id, hit.name, price, hit.hitCount)] + rest.notices)
    else
      Sweep([x] + rest.regions, rest.notices)
  }

  /**
   * A sweep touches exactly the hit regions: one more hit and the time of this
   * one; every other region is left as it was, and with no hit there is no notice.
   */
  lemma {:induction false} HitAllElementwise(rs: seq<Region>, symbol: string, price: real, now: int)
    ensures var r := HitAll(rs, symbol, price, now);
      && (forall k | 0 <= k < |rs| && !IsHit(rs[k], price) :: r.regions[k] == rs[k])
      && (forall k | 0 <= k < |rs| && IsHit(rs[k], price) ::
            r.regions[k] == rs[k].(hitCount := rs[k].hitCount + 1, lastHit := Some(now)))
      && ((forall k | 0 <= k < |rs| :: !IsHit(rs[k], price)) ==> r.notices == [])
  {
    HitAllRegions(rs, symbol, price, now);
    HitAllQuiet(rs, symbol, price, now);
  }

  /** The region a sweep leaves at each position: counted once more if hit, else as it was. */
  function Touched(x: Region, price: real, now: int): Region {
    if IsHit(x, price) then x.(hitCount := x.hitCount + 1, lastHit := Some(now)) else x
  }

  lemma {:induction false} HitAllRegions(rs: seq<Region>, symbol: string, price: real, now: int)
    ensures var r := HitAll(rs, symbol, price, now);
      forall k | 0 <= k < |rs| :: r.regions[k] == Touched(rs[k], price, now)
  {
    if |rs| > 0 {
      var r := HitAll(rs, symbol, price, now);
      var rest := HitAll(rs[1..], symbol, price, now);
      HitAllRegions(rs[1..], symbol, price, now);
      assert r.regions == [Touched(rs[0], price, now)] + rest.regions;
      forall k | 1 <= k < |rs|
        ensures r.regions[k] == Touched(rs[k], price, now)
      {
        assert r.regions[k] == rest.regions[k - 1] && rs[k] == rs[1..][k - 1];
      }
    }
  }

  lemma {:induction false} HitAllQuiet(rs: seq<Region>, symbol: string, price: real, now: int)
    ensures (forall k | 0 <= k < |rs| :: !IsHit(rs[k], price)) ==> HitAll(rs, symbol, price, now).notices == []
  {
    if |rs| > 0 && forall k | 0 <= k < |rs| :: !IsHit(rs[k], price) {
      assert forall k | 0 <= k < |rs| - 1 :: rs[1..][k] == rs[k + 1];
      HitAllQuiet(rs[1..], symbol, price, now);
    }
  }

  /** Notices come out in insertion order: a sweep of `a + b` is the sweep of `a` followed by that of `b`. */
  lemma {:induction false} HitAllAppend(a: seq<Region>, b: seq<Region>, symbol: string, price: real, now: int)
    ensures HitAll(a + b, symbol, price, now).regions == HitAll(a, symbol, price, now).regions + HitAll(b, symbol, price, now).regions
    ensures HitAll(a + b, symbol, price, now).notices == HitAll(a, symbol, price, now).notices + HitAll(b, symbol, price, now).notices
  {
    if |a| > 0 {
      var ab := a + b;
      assert ab[1..] == a[1..] + b;
      HitAllAppend(a[1..], b, symbol, price, now);
      var ra := HitAll(a[1..], symbol, price, now);
      var rb := HitAll(b, symbol, price, now);
      SweepFrontConcat(a[0], ra, rb, symbol, price, now);
      assert HitAll(ab, symbol, price, now) == SweepFront(a[0], Sweep(ra.regions + rb.regions, ra.notices + rb.notices), symbol, price, now);
    } else {
      assert a + b == b;
    }
  }

  /** Putting a region in front commutes with appending a later sweep. */
  lemma SweepFrontConcat(x: Region, ra: Sweep, rb: Sweep, symbol: string, price: real, now: int)
    ensures var f := SweepFront(x, ra, symbol, price, now);
      SweepFront(x, Sweep(ra.regions + rb.regions, ra.notices + rb.notices), symbol, price, now)
        == Sweep(f.regions + rb.regions, f.notices + rb.notices)
  {
  }

  /** A single region yields one notice, carrying its updated count, exactly when it is hit. */
  lemma HitAllSingle(x: Region, symbol: string, price: real, now: int)
    ensures IsHit(x, price) ==>
      HitAll([x], symbol, price, now).notices == [HitNotice(symbol, x.id, x.name, price, x.hitCount + 1)]
    ensures !IsHit(x, price) ==> HitAll([x], symbol, price, now).notices == []
  {
    assert [x][1..] == [];
  }

  datatype Checked = Checked(manager: Manager, notices: seq<HitNotice>)

  /**
   * Classifies a tick's mid price `(bid+ask)/2` against `symbol`'s active
   * regions. An unknown symbol, or a tick without bid or ask, changes nothing.
   */
  function CheckRegions(m: Manager, symbol: string, tick: Tick, now: int): (r: Checked)
    ensures symbol !in m.regions || MidPrice(tick).None? ==> r == Checked(m, [])
    ensures r.manager.regions.Keys == m.regions.Keys
    ensures forall s | s in m.regions && s != symbol :: r.manager.regions[s] == m.regions[s]
    ensures symbol in m.regions && MidPrice(tick).Some? ==>
      var rs := m.regions[symbol];
      var price := MidPrice(tick).value;
      && |r.manager.regions[symbol]| == |rs|
      && (forall k | 0 <= k < |rs| && !IsHit(rs[k], price) :: r.manager.regions[symbol][k] == rs[k])
      && (forall k | 0 <= k < |rs| && IsHit(rs[k], price) ::
            r.manager.regions[symbol][k] == rs[k].(hitCount := rs[k].hitCount + 1, lastHit := Some(now)))
      && (forall n | n in r.notices :: n.symbol == symbol && n.price == price)
    ensures symbol in m.regions && MidPrice(tick).Some? ==>
      r.notices == HitAll(m.regions[symbol], symbol, MidPrice(tick).value, now).notices
  {
    if symbol !in m.regions then
      Checked(m, [])
    else
      match MidPrice(tick)
      case None => Checked(m, [])
      case Some(price) =>
        var sweep := HitAll(m.regions[symbol], symbol, price, now);
        HitAllElementwise(m.regions[symbol], symbol, price, now);
        Checked(Manager(m.regions[symbol := sweep.regions]), sweep.notices)
  }

  /**
   * A check adds one hit to the symbol's total per notice and leaves the
   * region and active counts, and every other symbol's statistics, as they were.
   */
  lemma CheckRegionsStatistics(m: Manager, symbol: string, tick: Tick, now: int)
    ensures var r := CheckRegions(m, symbol, tick, now);
      var before := Statistics(m);
      var after := Statistics(r.manager);
      && after.Keys == before.Keys
      && (forall s | s in before && s != symbol :: after[s] == before[s])
      && (symbol in before ==>
            && after[symbol].totalRegions == before[symbol].totalRegions
            && after[symbol].activeRegions == before[symbol].activeRegions
            && after[symbol].totalHits == before[symbol].totalHits + |r.notices|)
  {
    var r := CheckRegions(m, symbol, tick, now);
    if symbol in m.regions && MidPrice(tick).Some? {
      var rs := m.regions[symbol];
      var rs' := r.manager.regions[symbol];
      SweepKeepsActiveCount(rs, symbol, MidPrice(tick).value, now);
    }
  }

  /** A sweep never changes which regions are active. */
  lemma {:induction false} SweepKeepsActiveCount(rs: seq<Region>, symbol: string, price: real, now: int)
    ensures |ActiveOnly(HitAll(rs, symbol, price, now).regions)| == |ActiveOnly(rs)|
  {
    if |rs| > 0 {
      var r := HitAll(rs, symbol, price, now);
      SweepKeepsActiveCount(rs[1..], symbol, price, now);
      assert r.regions[1..] == HitAll(rs[1..], symbol, price, now).regions;
    }
  }

  /**
   * The worked example: the band 1.0800-1.0850 on EUR/USD and a tick with bid
   * 1.0824 and ask 1.0826 give exactly one hit, at price 1.0825, count 1.
   */
  lemma EurUsdHitExample(id: string, created: int, tickTime: int, now: int)
    ensures var m := AddRegion(NewManager(), "EUR/USD", "Test Zone", 1.0850, 1.0800, DefaultRegionType, id, created).manager;
      var r := CheckRegions(m, "EUR/USD", Tick(Some(1.0824), Some(1.0826), None, tickTime), now);
      && GetRegions(m, "EUR/USD", true) == m.regions["EUR/USD"]
      && |m.regions["EUR/USD"]| == 1 && m.regions["EUR/USD"][0].name == "Test Zone"
      && r.notices == [HitNotice("EUR/USD", id, "Test Zone", 1.0825, 1)]
      && r.manager.regions["EUR/USD"][0].hitCount == 1
  {
    var m := AddRegion(NewManager(), "EUR/USD", "Test Zone", 1.0850, 1.0800, DefaultRegionType, id, created).manager;
    var region := m.regions["EUR/USD"][0];
    assert m.regions["EUR/USD"] == [region];
    assert IsHit(region, 1.0825);
    HitAllSingle(region, "EUR/USD", 1.0825, now);
  }
}

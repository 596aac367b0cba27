/**
 * Supply and demand zones (main.py:89-104): boxes of height ATR x 0.25 hanging below
 * each recent swing high (supply) or standing above each recent swing low (demand).
 */
module Zones {
  import opened Indicators
  import opened SwingPoints

  const HistoryToKeep: nat := 40
  const BoxWidth: real := 2.5

  /** `{'index', 'top', 'bottom', 'poi'}`: `index` is the swing point's index. */
  datatype Zone = Zone(index: int, top: real, bottom: real, poi: real)

  /** The ATR used for the boxes (main.py:91). Python reads `max(prices) - min(prices) * 0.01`
      as `max(prices) - (min(prices) * 0.01)`, and that is what is modelled: a positive
      ATR is used as it is, otherwise the largest price less 1% of the smallest. */
  function ZoneAtr(prices: seq<real>, atrVal: real): (atr: real)
    requires atrVal > 0.0 || |prices| > 0
    ensures atrVal > 0.0 ==> atr == atrVal
    ensures atrVal <= 0.0 ==> exists hi, lo ::
      (&& 0 <= hi < |prices| && 0 <= lo < |prices|
       && (forall k :: 0 <= k < |prices| ==> prices[lo] <= prices[k] <= prices[hi])
       && atr == prices[hi] - prices[lo] * 0.01)
  {
    if atrVal > 0.0 then atrVal else SeqMax(prices) - SeqMin(prices) * 0.01
  }

  /** The box height `atr * (BOX_WIDTH / 10.0)`. */
  function Buffer(atr: real): real
  {
    atr * (BoxWidth / 10.0)
  }

  function SupplyZone(sh: SwingPoint, atr: real): Zone
  {
    var top := sh.value;
    var bottom := top - Buffer(atr);
    Zone(sh.index, top, bottom, (top + bottom) / 2.0)
  }

  function DemandZone(sl: SwingPoint, atr: real): Zone
  {
    var bottom := sl.value;
    var top := bottom + Buffer(atr);
    Zone(sl.index, top, bottom, (top + bottom) / 2.0)
  }

  /** The append loop of main.py:92-97 (`supply`) or main.py:98-103 (otherwise). */
  function BuildZones(points: seq<SwingPoint>, atr: real, supply: bool): (zs: seq<Zone>)
    ensures |zs| == |points|
    ensures forall k :: 0 <= k < |zs| ==>
      zs[k] == if supply then SupplyZone(points[k], atr) else DemandZone(points[k], atr)
  {
    if points == [] then []
    else
      var last := points[|points| - 1];
      BuildZones(points[..|points| - 1], atr, supply) + [if supply then SupplyZone(last, atr) else DemandZone(last, atr)]
  }

  /** `create_zones`: a supply zone for each of the last `keep` highs and a demand zone
      for each of the last `keep` lows, in swing order. */
  function CreateZones(prices: seq<real>, highs: seq<SwingPoint>, lows: seq<SwingPoint>, atrVal: real, keep: nat)
    : (r: (seq<Zone>, seq<Zone>))
    requires atrVal > 0.0 || |prices| > 0
    ensures |r.0| == |Tail(highs, keep)| && |r.1| == |Tail(lows, keep)|
  {
    var atr := ZoneAtr(prices, atrVal);
    (BuildZones(Tail(highs, keep), atr, true), BuildZones(Tail(lows, keep), atr, false))
  }

  /** A zone's height is a quarter of the ATR, its POI is the midpoint, and when the ATR
      is positive the POI lies strictly inside the box. */
  predicate WellShaped(z: Zone, atr: real)
  {
    && z.top - z.bottom == atr * 0.25
    && z.poi == (z.top + z.bottom) / 2.0
    && (atr > 0.0 ==> z.bottom < z.poi < z.top)
  }

  lemma BoxesAreWellShaped(p: SwingPoint, atr: real)
    ensures WellShaped(SupplyZone(p, atr), atr) && SupplyZone(p, atr).top == p.value
    ensures WellShaped(DemandZone(p, atr), atr) && DemandZone(p, atr).bottom == p.value
  {
  }

  /** `zs` are the zones of the last `keep` of `points` (all of them when `keep` is 0,
      as `s[-0:]` is): one per point, in order, each at its point's index, with its top
      (supply) or bottom (demand) at the point's price, and well shaped for `atr`. */
  predicate ZonesOf(zs: seq<Zone>, points: seq<SwingPoint>, keep: nat, atr: real, supply: bool)
  {
    && |zs| == (if keep == 0 || |points| <= keep then |points| else keep)
    && forall k :: 0 <= k < |zs| ==>
         var p := points[|points| - |zs| + k];
         && zs[k].index == p.index
         && (if supply then zs[k].top else zs[k].bottom) == p.value
         && WellShaped(zs[k], atr)
  }

  lemma {:induction false} KeptZones(points: seq<SwingPoint>, atr: real, keep: nat, supply: bool)
    ensures ZonesOf(BuildZones(Tail(points, keep), atr, supply), points, keep, atr, supply)
  {
    var kept := Tail(points, keep);
    var zs := BuildZones(kept, atr, supply);
    forall k | 0 <= k < |zs|
      ensures var p := points[|points| - |zs| + k];
        && zs[k].index == p.index
        && (if supply then zs[k].top else zs[k].bottom) == p.value
        && WellShaped(zs[k], atr)
    {
      assert kept[k] == points[|points| - |zs| + k];
      BoxesAreWellShaped(kept[k], atr);
    }
  }

  /** Zone shape: a supply zone's top is its swing price, a demand zone's bottom is its
      swing price, each zone keeps its swing's index and is well shaped for the ATR in
      use, and only the last `keep` swings of each kind are used. */
  lemma ZoneShape(prices: seq<real>, highs: seq<SwingPoint>, lows: seq<SwingPoint>, atrVal: real, keep: nat)
    requires atrVal > 0.0 || |prices| > 0
    ensures var zones := CreateZones(prices, highs, lows, atrVal, keep);
      var atr := ZoneAtr(prices, atrVal);
      ZonesOf(zones.0, highs, keep, atr, true) && ZonesOf(zones.1, lows, keep, atr, false)
  {
    var atr := ZoneAtr(prices, atrVal);
    KeptZones(highs, atr, keep, true);
    KeptZones(lows, atr, keep, false);
  }

  /** When the ATR is not positive the fallback `max - min * 0.01` still gives boxes of
      positive height on positive prices. */
  lemma {:induction false} FallbackPositiveOnPositivePrices(prices: seq<real>, atrVal: real)
    requires |prices| > 0
    requires forall k :: 0 <= k < |prices| ==> prices[k] > 0.0
    ensures ZoneAtr(prices, atrVal) > 0.0
  {
    if atrVal <= 0.0 {
      var hi, lo := SeqMax(prices), SeqMin(prices);
      assert lo <= prices[0] <= hi;
      assert lo in prices;
    }
  }

  /** The fallback is not a percentage of the price range: on a flat window, where the
      range is zero, it is 99% of the price, whatever non-positive ATR came in. */
  lemma FallbackOnFlatWindow(prices: seq<real>, atrVal: real)
    requires |prices| > 0 && atrVal <= 0.0
    requires forall k :: 0 <= k < |prices| ==> prices[k] == prices[0]
    ensures ZoneAtr(prices, atrVal) == 0.99 * prices[0]
  {
  }
}

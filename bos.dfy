/**
 * Break-of-structure detection (main.py:106-114): the current price closing above a
 * supply zone's top ("BOS High") or below a demand zone's bottom ("BOS Low").
 */
module BreakOfStructure {
  import opened Zones

  /** `'BOS High'` / `'BOS Low'`. */
  datatype BosKind = BosHigh | BosLow

  /** `{'type', 'zone', 'price_index', 'price'}`. */
  datatype BosEvent = BosEvent(kind: BosKind, zone: Zone, priceIndex: int, price: real)

  /** The test of main.py:109 for supply zones and of main.py:112 for demand zones. */
  predicate Breaks(kind: BosKind, price: real, z: Zone)
  {
    if kind == BosHigh then price > z.top else price < z.bottom
  }

  /** One of the two loops of `detect_bos`: an event of `kind` for each breached zone. */
  function BreakEvents(kind: BosKind, latestIndex: int, price: real, zones: seq<Zone>): (r: seq<BosEvent>)
    ensures |r| <= |zones|
    ensures forall k :: 0 <= k < |r| ==>
      r[k].kind == kind && r[k].priceIndex == latestIndex && r[k].price == price && Breaks(kind, price, r[k].zone)
  {
    if zones == [] then []
    else
      var z := zones[|zones| - 1];
      var r := BreakEvents(kind, latestIndex, price, zones[..|zones| - 1]);
      if Breaks(kind, price, z) then r + [BosEvent(kind, z, latestIndex, price)] else r
  }

  /** `detect_bos`: the "BOS High" events of the supply zones come first, then the
      "BOS Low" events of the demand zones, all stamped with the latest index and price. */
  function DetectBos(latestIndex: int, price: real, supply: seq<Zone>, demand: seq<Zone>): (r: seq<BosEvent>)
    ensures |r| <= |supply| + |demand|
    ensures forall k :: 0 <= k < |r| ==>
      r[k].priceIndex == latestIndex && r[k].price == price && Breaks(r[k].kind, price, r[k].zone)
    ensures forall a, b :: 0 <= a < b < |r| && r[b].kind == BosHigh ==> r[a].kind == BosHigh
  {
    BreakEvents(BosHigh, latestIndex, price, supply) + BreakEvents(BosLow, latestIndex, price, demand)
  }

  /** Exactly one event per breached zone, in zone order: `idx` lists the positions of
      the breached zones, increasing, and event k is the event of zone `idx[k]`. */
  lemma {:induction false} OneEventPerBreachedZone(kind: BosKind, latestIndex: int, price: real, zones: seq<Zone>)
    returns (idx: seq<nat>)
    ensures var r := BreakEvents(kind, latestIndex, price, zones);
      && |idx| == |r|
      && (forall a, b :: 0 <= a < b < |idx| ==> idx[a] < idx[b])
      && (forall k :: 0 <= k < |idx| ==> idx[k] < |zones| && r[k] == BosEvent(kind, zones[idx[k]], latestIndex, price))
      && (forall j :: 0 <= j < |zones| ==> (Breaks(kind, price, zones[j]) <==> j in idx))
  {
    if zones == [] {
      idx := [];
    } else {
      var n := |zones| - 1;
      var front := zones[..n];
      var idx' := OneEventPerBreachedZone(kind, latestIndex, price, front);
      var r' := BreakEvents(kind, latestIndex, price, front);
      var r := BreakEvents(kind, latestIndex, price, zones);
      assert forall j :: 0 <= j < n ==> zones[j] == front[j];
      assert forall k :: 0 <= k < |idx'| ==> idx'[k] < n;
      if Breaks(kind, price, zones[n]) {
        idx := idx' + [n];
        assert r == r' + [BosEvent(kind, zones[n], latestIndex, price)];
      } else {
        idx := idx';
        assert r == r';
      }
      assert forall k :: 0 <= k < |idx'| ==> idx[k] == idx'[k];
      forall j | 0 <= j < |zones| ensures Breaks(kind, price, zones[j]) <==> j in idx {
        if j < n {
          assert j in idx <==> j in idx';
        } else {
          assert j !in idx';
        }
      }
    }
  }

  /** `detect_bos` splits into the supply events followed by the demand events: one event
      per breached supply zone, in zone order, then one per breached demand zone, in zone
      order. */
  lemma DetectBosOrder(latestIndex: int, price: real, supply: seq<Zone>, demand: seq<Zone>)
    returns (highIdx: seq<nat>, lowIdx: seq<nat>)
    ensures var r := DetectBos(latestIndex, price, supply, demand);
      && |r| == |highIdx| + |lowIdx|
      && (forall a, b :: 0 <= a < b < |highIdx| ==> highIdx[a] < highIdx[b])
      && (forall a, b :: 0 <= a < b < |lowIdx| ==> lowIdx[a] < lowIdx[b])
      && (forall j :: 0 <= j < |supply| ==> (price > supply[j].top <==> j in highIdx))
      && (forall j :: 0 <= j < |demand| ==> (price < demand[j].bottom <==> j in lowIdx))
      && (forall k :: 0 <= k < |highIdx| ==>
            highIdx[k] < |supply| && r[k] == BosEvent(BosHigh, supply[highIdx[k]], latestIndex, price))
      && (forall k :: 0 <= k < |lowIdx| ==>
            lowIdx[k] < |demand| && r[|highIdx| + k] == BosEvent(BosLow, demand[lowIdx[k]], latestIndex, price))
  {
    highIdx := OneEventPerBreachedZone(BosHigh, latestIndex, price, supply);
    lowIdx := OneEventPerBreachedZone(BosLow, latestIndex, price, demand);
  }
}

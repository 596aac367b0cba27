/**
 * The per-event retest/confirmation tracker `BOSWatch` (main.py:117-155). A watch is
 * mitigated when price trades back through its zone, records the first retest of the
 * zone's POI after the break, then confirms on the first decisive move away from the POI
 * within three ticks of the retest.
 */
module Watches {
  import opened Wrappers
  import opened Zones
  import opened BreakOfStructure

  const PoiToleranceFactor: real := 0.20
  const RetestLookahead: int := 300
  const ConfirmationLookahead: int := 3
  /** The floor `1e-9` on the zone height in the tolerance. */
  const MinZoneHeight: real := 0.000000001

  /** The observable state of a watch at one moment. */
  datatype WatchState = WatchState(
    kind: BosKind,
    zone: Zone,
    bosIndex: int,
    deadlineIndex: int,
    retestIndex: Option<int>,
    confirmationIndex: Option<int>,
    mitigated: bool)

  /** A freshly registered watch (main.py:118-125). */
  function NewWatch(kind: BosKind, zone: Zone, bosIndex: int, deadlineIndex: int): WatchState
  {
    WatchState(kind, zone, bosIndex, deadlineIndex, None, None, false)
  }

  /** `max(top - bottom, 1e-9) * POI_TOLERANCE_FACTOR`: a fifth of the zone's height,
      but never less than a fifth of 1e-9, so the band is never empty. */
  function Tolerance(z: Zone): (tol: real)
    ensures tol >= PoiToleranceFactor * (z.top - z.bottom) && tol >= PoiToleranceFactor * MinZoneHeight
    ensures tol == PoiToleranceFactor * (z.top - z.bottom) || tol == PoiToleranceFactor * MinZoneHeight
    ensures tol > 0.0
  {
    (if z.top - z.bottom > MinZoneHeight then z.top - z.bottom else MinZoneHeight) * PoiToleranceFactor
  }

  /** What a scan looks for: a price within the POI band (retest), or a price beyond the
      POI by 15% of the tolerance in the direction of the break (confirmation). */
  datatype Criterion = InBand(poi: real, tol: real) | Beyond(kind: BosKind, poi: real, tol: real)

  predicate Meets(c: Criterion, p: real)
  {
    match c
    case InBand(poi, tol) => poi - tol <= p <= poi + tol
    case Beyond(kind, poi, tol) =>
      if kind == BosHigh then p > poi + tol * 0.15 else p < poi - tol * 0.15
  }

  /** The first index in [lo, hi) whose price meets `c`, as the `for ... break` and
      `for ... return` scans of main.py:141-144 and main.py:147-154 find it. */
  function FirstMeeting(prices: seq<real>, lo: int, hi: int, c: Criterion): (r: Option<int>)
    requires 0 <= lo && hi <= |prices|
    decreases hi - lo
    ensures r.Some? ==> lo <= r.value < hi && Meets(c, prices[r.value])
    ensures r.Some? ==> forall j :: lo <= j < r.value ==> !Meets(c, prices[j])
    ensures r.None? ==> forall j :: lo <= j < hi ==> !Meets(c, prices[j])
  {
    if lo >= hi then None
    else if Meets(c, prices[lo]) then Some(lo)
    else FirstMeeting(prices, lo + 1, hi, c)
  }

  function Min(a: int, b: int): int { if a < b then a else b }

  /** `check_mitigation` (main.py:127-132): a High watch is mitigated once price falls
      below the zone's bottom, a Low watch once price rises above its top. */
  function Mitigate(w: WatchState, price: real): WatchState
  {
    if w.kind == BosHigh && price < w.zone.bottom then w.(mitigated := true)
    else if w.kind == BosLow && price > w.zone.top then w.(mitigated := true)
    else w
  }

  /** What `check_retest_and_confirm` needs to index `prices` safely. */
  predicate Fits(w: WatchState, prices: seq<real>, currentIndex: int)
  {
    && 0 <= w.bosIndex
    && currentIndex < |prices|
    && (w.retestIndex.Some? ==> 0 <= w.retestIndex.value)
  }

  /** The retest phase of `check_retest_and_confirm` (main.py:139-144): a watch without
      a retest takes the first price after the BOS within the POI band, if any. */
  function Retest(w: WatchState, prices: seq<real>, currentIndex: int): WatchState
    requires Fits(w, prices, currentIndex)
  {
    if w.retestIndex.None?
    then w.(retestIndex := FirstMeeting(prices, w.bosIndex + 1, currentIndex + 1, InBand(w.zone.poi, Tolerance(w.zone))))
    else w
  }

  /** The confirmation phase of `check_retest_and_confirm` (main.py:146-154): a retested,
      unconfirmed watch takes the first of the three prices from the retest on that moves
      decisively away from the POI, and reports it. */
  function Confirm(w: WatchState, prices: seq<real>): (WatchState, bool)
    requires w.retestIndex.Some? ==> 0 <= w.retestIndex.value
  {
    if w.retestIndex.Some? && w.confirmationIndex.None? then
      var r := w.retestIndex.value;
      var c := FirstMeeting(prices, r, Min(|prices|, r + ConfirmationLookahead),
                            Beyond(w.kind, w.zone.poi, Tolerance(w.zone)));
      if c.Some? then (w.(confirmationIndex := c), true) else (w, false)
    else (w, false)
  }

  /** `check_retest_and_confirm` (main.py:134-155): the new state and the returned flag. */
  function RetestConfirm(w: WatchState, prices: seq<real>, currentIndex: int): (WatchState, bool)
    requires Fits(w, prices, currentIndex)
  {
    if w.mitigated then (w, false)
    else Confirm(Retest(w, prices, currentIndex), prices)
  }

  /** One tick of a watch in `trading_loop` (main.py:238-239): mitigation, then
      retest and confirmation. */
  function Advance(w: WatchState, price: real, prices: seq<real>, currentIndex: int): (WatchState, bool)
    requires Fits(w, prices, currentIndex)
  {
    RetestConfirm(Mitigate(w, price), prices, currentIndex)
  }

  /** A live watch object. `kind`, `zone`, `bosIndex` and `deadlineIndex` never change
      after construction; the three remaining fields are updated in place. */
  class BosWatch {
    const kind: BosKind
    const zone: Zone
    const bosIndex: int
    const deadlineIndex: int
    var retestIndex: Option<int>
    var confirmationIndex: Option<int>
    var mitigated: bool

    function State(): WatchState
      reads this
    {
      WatchState(kind, zone, bosIndex, deadlineIndex, retestIndex, confirmationIndex, mitigated)
    }

    constructor (kind: BosKind, zone: Zone, bosIndex: int, deadlineIndex: int)
      ensures State() == NewWatch(kind, zone, bosIndex, deadlineIndex)
    {
      this.kind := kind;
      this.zone := zone;
      this.bosIndex := bosIndex;
      this.deadlineIndex := deadlineIndex;
      retestIndex := None;
      confirmationIndex := None;
      mitigated := false;
    }

    method CheckMitigation(price: real) returns (m: bool)
      modifies this
      ensures State() == Mitigate(old(State()), price)
      ensures m == mitigated
    {
      if kind == BosHigh && price < zone.bottom {
        mitigated := true;
      } else if kind == BosLow && price > zone.top {
        mitigated := true;
      }
      m := mitigated;
    }

    method CheckRetestAndConfirm(prices: seq<real>, currentIndex: int) returns (confirmed: bool)
      requires Fits(State(), prices, currentIndex)
      modifies this
      ensures (State(), confirmed) == RetestConfirm(old(State()), prices, currentIndex)
    {
      if mitigated {
        return false;
      }
      SeekRetest(prices, currentIndex);
      confirmed := SeekConfirmation(prices);
    }

    /** The retest loop of main.py:139-144. */
    method SeekRetest(prices: seq<real>, currentIndex: int)
      requires Fits(State(), prices, currentIndex)
      modifies this
      ensures State() == Retest(old(State()), prices, currentIndex)
    {
      if retestIndex.None? {
        var poi := zone.poi;
        var tol := Tolerance(zone);
        var i := bosIndex + 1;
        while i < currentIndex + 1
          invariant bosIndex + 1 <= i
          invariant retestIndex.None? && State() == old(State())
          invariant FirstMeeting(prices, bosIndex + 1, currentIndex + 1, InBand(poi, tol))
                 == FirstMeeting(prices, i, currentIndex + 1, InBand(poi, tol))
        {
          if poi - tol <= prices[i] <= poi + tol {
            retestIndex := Some(i);
            return;
          }
          i := i + 1;
        }
      }
    }

    /** The confirmation loop of main.py:146-154. */
    method SeekConfirmation(prices: seq<real>) returns (confirmed: bool)
      requires retestIndex.Some? ==> 0 <= retestIndex.value
      modifies this
      ensures (State(), confirmed) == Confirm(old(State()), prices)
    {
      if retestIndex.Some? && confirmationIndex.None? {
        var poi := zone.poi;
        var tol := Tolerance(zone);
        var r := retestIndex.value;
        var hi := Min(|prices|, r + ConfirmationLookahead);
        var j := r;
        while j < hi
          invariant r <= j
          invariant confirmationIndex.None? && State() == old(State())
          invariant FirstMeeting(prices, r, hi, Beyond(kind, poi, tol))
                 == FirstMeeting(prices, j, hi, Beyond(kind, poi, tol))
        {
          var p := prices[j];
          if kind == BosHigh && p > poi + tol * 0.15 {
            confirmationIndex := Some(j);
            return true;
          } else if kind == BosLow && p < poi - tol * 0.15 {
            confirmationIndex := Some(j);
            return true;
          }
          j := j + 1;
        }
      }
      return false;
    }
  }
}

/** Properties of the watch state machine. */
module WatchProperties {
  import opened Wrappers
  import opened Zones
  import opened BreakOfStructure
  import opened Watches

  /** Mitigation only ever sets the flag, exactly on a move back through the zone, and
      touches nothing else. */
  lemma MitigationOnlySets(w: WatchState, price: real)
    ensures Mitigate(w, price).mitigated <==>
      w.mitigated || (w.kind == BosHigh && price < w.zone.bottom) || (w.kind == BosLow && price > w.zone.top)
    ensures Mitigate(w, price).(mitigated := w.mitigated) == w
  {
  }

  /** A mitigated watch never confirms and never changes again. */
  lemma MitigatedIsFrozen(w: WatchState, price: real, prices: seq<real>, currentIndex: int)
    requires Fits(w, prices, currentIndex) && w.mitigated
    ensures Advance(w, price, prices, currentIndex) == (w, false)
  {
  }

  /** The retest index, when first set, is the first tick after the break, up to the
      current one, whose price lies within the tolerance band around the POI; when no
      such tick exists it stays unset. */
  lemma RetestIsFirstTouch(w: WatchState, prices: seq<real>, currentIndex: int)
    requires Fits(w, prices, currentIndex) && !w.mitigated && w.retestIndex.None?
    ensures var w' := RetestConfirm(w, prices, currentIndex).0;
      var poi, tol := w.zone.poi, Tolerance(w.zone);
      && (w'.retestIndex.Some? ==>
            var i := w'.retestIndex.value;
            && w.bosIndex < i <= currentIndex
            && poi - tol <= prices[i] <= poi + tol
            && forall j :: w.bosIndex < j < i ==> !(poi - tol <= prices[j] <= poi + tol))
      && (w'.retestIndex.None? ==>
            forall j :: w.bosIndex < j <= currentIndex ==> !(poi - tol <= prices[j] <= poi + tol))
  {
    var poi, tol := w.zone.poi, Tolerance(w.zone);
    var found := FirstMeeting(prices, w.bosIndex + 1, currentIndex + 1, InBand(poi, tol));
    assert RetestConfirm(w, prices, currentIndex).0.retestIndex == found;
  }

  /** Once set, the retest index never changes. */
  lemma RetestIsStable(w: WatchState, prices: seq<real>, currentIndex: int)
    requires Fits(w, prices, currentIndex) && w.retestIndex.Some?
    ensures RetestConfirm(w, prices, currentIndex).0.retestIndex == w.retestIndex
  {
  }

  /** A watch reports a confirmation exactly when it was neither mitigated nor confirmed
      before, it has (or now finds) a retest r, and a tick in [r, min(len, r + 3)) moves
      beyond the POI by 15% of the tolerance in the break's direction; the confirmation
      index is the first such tick. */
  lemma ConfirmationIsFirstDecisiveMove(w: WatchState, prices: seq<real>, currentIndex: int)
    requires Fits(w, prices, currentIndex)
    ensures var (w', confirmed) := RetestConfirm(w, prices, currentIndex);
      var poi, tol := w.zone.poi, Tolerance(w.zone);
      var retest := Retest(w, prices, currentIndex).retestIndex;
      && (confirmed <==> !w.mitigated && w.confirmationIndex.None? && w'.confirmationIndex.Some?)
      && (!w.mitigated && w.confirmationIndex.None? && retest.Some? &&
          (exists k :: retest.value <= k < Min(|prices|, retest.value + ConfirmationLookahead) &&
             (if w.kind == BosHigh then prices[k] > poi + tol * 0.15 else prices[k] < poi - tol * 0.15))
          ==> confirmed)
      && (confirmed ==>
            var r, j := w'.retestIndex.value, w'.confirmationIndex.value;
            && w'.retestIndex.Some?
            && r <= j < Min(|prices|, r + ConfirmationLookahead)
            && (if w.kind == BosHigh then prices[j] > poi + tol * 0.15 else prices[j] < poi - tol * 0.15)
            && forall k :: r <= k < j ==>
                 !(if w.kind == BosHigh then prices[k] > poi + tol * 0.15 else prices[k] < poi - tol * 0.15))
  {
  }

  /** A confirmed watch never reports a confirmation again, whatever the later prices,
      and keeps its confirmation index. */
  lemma ConfirmsAtMostOnce(w: WatchState, price: real, prices: seq<real>, currentIndex: int,
                           later: seq<real>, laterIndex: int)
    requires Fits(w, prices, currentIndex)
    requires RetestConfirm(w, prices, currentIndex).1
    ensures var w' := RetestConfirm(w, prices, currentIndex).0;
      Fits(w', later, laterIndex) ==>
        var (w'', again) := Advance(w', price, later, laterIndex);
        !again && w''.confirmationIndex == w'.confirmationIndex
  {
    ConfirmationIsFirstDecisiveMove(w, prices, currentIndex);
  }

  /** `deadline_index` is stored but never consulted: advancing a watch does the same
      whatever its deadline, so no watch ever expires. */
  lemma DeadlineIgnored(w: WatchState, d: int, price: real, prices: seq<real>, currentIndex: int)
    requires Fits(w, prices, currentIndex)
    ensures var (w', c) := Advance(w, price, prices, currentIndex);
      Advance(w.(deadlineIndex := d), price, prices, currentIndex) == (w'.(deadlineIndex := d), c)
  {
  }

  /** Advancing a watch changes only its retest index, confirmation index and flag. */
  lemma AdvanceKeepsIdentity(w: WatchState, price: real, prices: seq<real>, currentIndex: int)
    requires Fits(w, prices, currentIndex)
    ensures var w' := Advance(w, price, prices, currentIndex).0;
      w'.kind == w.kind && w'.zone == w.zone && w'.bosIndex == w.bosIndex && w'.deadlineIndex == w.deadlineIndex
  {
  }
}

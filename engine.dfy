/**
 * The per-tick body of `trading_loop` (main.py:208-288) without the websocket calls: the
 * price window, signal generation, deduplicated registration of watches, advancing and
 * pruning them, and trading on each confirmation.
 */
module TradingLoop {
  import opened Wrappers
  import opened Indicators
  import opened SwingPoints
  import opened Zones
  import opened BreakOfStructure
  import opened Watches
  import opened MoneyManagement

  const MaxPriceHistory: nat := 4000
  /** `max(LTF_WINDOW, 6)`: ticks are only evaluated once this many prices exist. */
  const WarmUp: nat := 120

  /** `price_history.append(price)` on a deque of maximum length 4000: the oldest price
      is evicted when the deque is full. Indices into the history are not adjusted. */
  function Append(h: seq<real>, price: real): (h': seq<real>)
    requires |h| <= MaxPriceHistory
    ensures |h'| == if |h| < MaxPriceHistory then |h| + 1 else MaxPriceHistory
  {
    if |h| < MaxPriceHistory then h + [price] else h[1..] + [price]
  }

  /** The deque holds the newest prices, the new one last: appending to a full deque
      drops exactly the oldest price. */
  lemma AppendKeepsNewest(h: seq<real>, price: real)
    requires |h| <= MaxPriceHistory
    ensures var h' := Append(h, price);
      && h'[|h'| - 1] == price
      && h' == (h + [price])[|h| + 1 - |h'|..]
      && (|h| == MaxPriceHistory ==> h'[..|h'| - 1] == h[1..])
  {
  }

  /** The BOS events of one tick (main.py:220-226): ATR over the whole history, swings
      over the last 120 prices, zones from the last 40 swings of each kind, and the
      breaks of those zones by the latest price. */
  function Signals(h: seq<real>, price: real): (events: seq<BosEvent>)
    requires |h| > 0
    ensures forall k :: 0 <= k < |events| ==> events[k].priceIndex == |h| - 1 && events[k].price == price
  {
    var atr := ComputeAtr(h, AtrWindow);
    var swings := FindSwingPoints(Tail(h, LtfWindow), SwingLength);
    var zones := CreateZones(h, swings.0, swings.1, atr, HistoryToKeep);
    DetectBos(|h| - 1, price, zones.0, zones.1)
  }

  function DirectionOf(kind: BosKind): Direction
  {
    if kind == BosHigh then Buy else Sell
  }

  /** Some watch already tracks this (POI, kind) pair (the `any(...)` of main.py:230). */
  predicate Watched(ws: seq<WatchState>, poi: real, kind: BosKind)
  {
    exists k :: 0 <= k < |ws| && ws[k].zone.poi == poi && ws[k].kind == kind
  }

  /** One iteration of the registration loop (main.py:230-232). */
  function RegisterOne(ws: seq<WatchState>, e: BosEvent, latest: int): seq<WatchState>
  {
    if Watched(ws, e.zone.poi, e.kind) then ws
    else ws + [NewWatch(e.kind, e.zone, e.priceIndex, latest + RetestLookahead)]
  }

  /** The registration loop of main.py:229-233 over all of `events`, in order. */
  function Register(ws: seq<WatchState>, events: seq<BosEvent>, latest: int): seq<WatchState>
  {
    if events == [] then ws
    else RegisterOne(Register(ws, events[..|events| - 1], latest), events[|events| - 1], latest)
  }

  /** The result of advancing all watches: the watches carried into the next tick, the
      money state, and how many watches confirmed. */
  datatype Pass = Pass(kept: seq<WatchState>, money: MoneyState, confirmations: nat)

  /** How one advanced watch changes the running result (main.py:239-287): a confirmed
      watch is gated and possibly traded with the next outcome and is not carried; a
      mitigated one is dropped; any other is carried. */
  function Absorb(p: Pass, w': WatchState, confirmed: bool, price: real, ma6: Option<real>, env: nat -> Attempt): Pass
  {
    if confirmed then
      Pass(p.kept, OnConfirmed(p.money, DirectionOf(w'.kind), price, ma6, env(p.confirmations)), p.confirmations + 1)
    else if w'.mitigated then p
    else Pass(p.kept + [w'], p.money, p.confirmations)
  }

  /** The loop of main.py:236-288 over `ws`, in order. The k-th confirmation of the tick
      is gated with, and (if admitted) traded against, the outcome `env(k)`. */
  function ProcessWatches(ws: seq<WatchState>, price: real, prices: seq<real>, currentIndex: int,
                          ma6: Option<real>, m: MoneyState, env: nat -> Attempt): Pass
    requires forall k :: 0 <= k < |ws| ==> Fits(ws[k], prices, currentIndex)
  {
    if ws == [] then Pass([], m, 0)
    else
      var a := Advance(ws[|ws| - 1], price, prices, currentIndex);
      Absorb(ProcessWatches(ws[..|ws| - 1], price, prices, currentIndex, ma6, m, env), a.0, a.1, price, ma6, env)
  }

  /** A watch as it may be carried between ticks over a history of n prices: its indices
      lie in the history, the retest after the break, and it is neither confirmed nor
      mitigated. */
  predicate Live(w: WatchState, n: int)
  {
    && 0 <= w.bosIndex < n
    && (w.retestIndex.Some? ==> w.bosIndex < w.retestIndex.value < n)
    && w.confirmationIndex.None?
    && !w.mitigated
  }

  /** No two watches track the same (POI, kind) pair. */
  predicate DistinctKeys(ws: seq<WatchState>)
  {
    forall a, b :: 0 <= a < b < |ws| ==> !(ws[a].zone.poi == ws[b].zone.poi && ws[a].kind == ws[b].kind)
  }

  predicate LiveSet(ws: seq<WatchState>, n: int)
  {
    (forall k :: 0 <= k < |ws| ==> Live(ws[k], n)) && DistinctKeys(ws)
  }

  /** One whole tick after the warm-up, on the history that includes the new price. */
  function TickPass(ws: seq<WatchState>, m: MoneyState, h: seq<real>, price: real, env: nat -> Attempt): Pass
    requires |h| > 0 && LiveSet(ws, |h|)
  {
    RegisterAndProcess(ws, m, h, Signals(h, price), ComputeMa(h, MaPeriod), price, env)
  }

  /** Registration of `events` followed by the watch loop, on the history `h`. */
  function RegisterAndProcess(ws: seq<WatchState>, m: MoneyState, h: seq<real>, events: seq<BosEvent>,
                              ma6: Option<real>, price: real, env: nat -> Attempt): Pass
    requires |h| > 0 && LiveSet(ws, |h|)
    requires forall k :: 0 <= k < |events| ==> 0 <= events[k].priceIndex < |h|
  {
    var latest := |h| - 1;
    RegisterStaysLive(ws, events, latest, |h|);
    ProcessWatches(Register(ws, events, latest), price, h, latest, ma6, m, env)
  }

  /** Registration only appends, keeps every watch live and every (POI, kind) pair
      unique, and afterwards every event's pair is watched. */
  lemma {:induction false} RegisterKeepsLive(ws: seq<WatchState>, events: seq<BosEvent>, latest: int, n: int)
    requires LiveSet(ws, n)
    requires forall k :: 0 <= k < |events| ==> 0 <= events[k].priceIndex < n
    ensures LiveSet(Register(ws, events, latest), n)
    ensures ws <= Register(ws, events, latest)
    ensures forall k :: 0 <= k < |events| ==> Watched(Register(ws, events, latest), events[k].zone.poi, events[k].kind)
  {
    if events != [] {
      var front := events[..|events| - 1];
      var e := events[|events| - 1];
      RegisterKeepsLive(ws, front, latest, n);
      var before := Register(ws, front, latest);
      var after := RegisterOne(before, e, latest);
      assert after == Register(ws, events, latest);
      forall k | 0 <= k < |events| ensures Watched(after, events[k].zone.poi, events[k].kind) {
        if k < |events| - 1 {
          assert events[k] == front[k];
          var j :| 0 <= j < |before| && before[j].zone.poi == events[k].zone.poi && before[j].kind == events[k].kind;
          assert after[j] == before[j];
        } else if !Watched(before, e.zone.poi, e.kind) {
          assert after[|before|].zone.poi == e.zone.poi && after[|before|].kind == e.kind;
        }
      }
    }
  }

  /** Registration only adds watches that are live over a history of n prices. */
  lemma {:induction false} RegisterStaysLive(ws: seq<WatchState>, events: seq<BosEvent>, latest: int, n: int)
    requires forall k :: 0 <= k < |ws| ==> Live(ws[k], n)
    requires forall k :: 0 <= k < |events| ==> 0 <= events[k].priceIndex < n
    ensures forall k :: 0 <= k < |Register(ws, events, latest)| ==> Live(Register(ws, events, latest)[k], n)
  {
    if events != [] {
      var front, e := events[..|events| - 1], events[|events| - 1];
      assert forall k :: 0 <= k < |front| ==> front[k] == events[k];
      RegisterStaysLive(ws, front, latest, n);
      var before := Register(ws, front, latest);
      var r := RegisterOne(before, e, latest);
      forall k | 0 <= k < |r| ensures Live(r[k], n) {
        if k < |before| {
          assert r[k] == before[k];
        } else {
          assert r[k] == NewWatch(e.kind, e.zone, e.priceIndex, latest + RetestLookahead);
        }
      }
    }
  }

  lemma RegisterOneKeepsLive(ws: seq<WatchState>, e: BosEvent, latest: int, n: int)
    requires LiveSet(ws, n) && 0 <= e.priceIndex < n
    ensures LiveSet(RegisterOne(ws, e, latest), n)
  {
  }

  /** `ProcessWatches` over one more watch. */
  lemma ProcessStep(ws: seq<WatchState>, i: int, price: real, prices: seq<real>,
                    ma6: Option<real>, m: MoneyState, env: nat -> Attempt)
    requires 0 <= i < |ws| && |prices| > 0 && LiveSet(ws, |prices|)
    ensures Fits(ws[i], prices, |prices| - 1)
    ensures var a := Advance(ws[i], price, prices, |prices| - 1);
      ProcessWatches(ws[..i + 1], price, prices, |prices| - 1, ma6, m, env) ==
        Absorb(ProcessWatches(ws[..i], price, prices, |prices| - 1, ma6, m, env), a.0, a.1, price, ma6, env)
  {
    assert ws[..i + 1][..i] == ws[..i];
  }

  lemma LiveFits(w: WatchState, prices: seq<real>)
    requires Live(w, |prices|)
    ensures Fits(w, prices, |prices| - 1)
  {
  }

  /** A watch that neither confirms nor is mitigated in a tick stays live. */
  lemma AdvanceKeepsLive(w: WatchState, price: real, prices: seq<real>)
    requires Live(w, |prices|)
    ensures var (w', confirmed) := Advance(w, price, prices, |prices| - 1);
      !confirmed && !w'.mitigated ==>
        Live(w', |prices|) && w'.zone == w.zone && w'.kind == w.kind
  {
  }

  /** Advancing the watches keeps the carried set live with unique (POI, kind) pairs;
      every carried watch comes from one in the input, and each input watch is carried,
      consumed by a confirmation, or dropped as mitigated. */
  lemma {:induction false} ProcessKeepsLive(ws: seq<WatchState>, price: real, prices: seq<real>,
                                            ma6: Option<real>, m: MoneyState, env: nat -> Attempt)
    requires |prices| > 0 && LiveSet(ws, |prices|)
    ensures var p := ProcessWatches(ws, price, prices, |prices| - 1, ma6, m, env);
      && LiveSet(p.kept, |prices|)
      && (forall k :: 0 <= k < |p.kept| ==> Watched(ws, p.kept[k].zone.poi, p.kept[k].kind))
      && |p.kept| + p.confirmations <= |ws|
  {
    if ws != [] {
      var front := ws[..|ws| - 1];
      assert LiveSet(front, |prices|) by {
        assert forall k :: 0 <= k < |front| ==> front[k] == ws[k];
      }
      ProcessKeepsLive(front, price, prices, ma6, m, env);
      var w := ws[|ws| - 1];
      AdvanceKeepsLive(w, price, prices);
      var a := Advance(w, price, prices, |prices| - 1);
      AbsorbKeepsLive(ws, ProcessWatches(front, price, prices, |prices| - 1, ma6, m, env), a.0, a.1, price, ma6, env, |prices|);
    }
  }

  /** A watch survives a tick when advancing it neither confirms nor mitigates it. */
  predicate Survives(w: WatchState, price: real, prices: seq<real>, currentIndex: int)
    requires Fits(w, prices, currentIndex)
  {
    var a := Advance(w, price, prices, currentIndex);
    !a.1 && !a.0.mitigated
  }

  /** Pruning (main.py:285-288) keeps exactly the surviving watches, advanced, in input
      order: `idx` lists the positions of the survivors, increasing, and carried watch k
      is the advanced `ws[idx[k]]`. */
  lemma {:induction false} KeptAreSurvivors(ws: seq<WatchState>, price: real, prices: seq<real>, currentIndex: int,
                                            ma6: Option<real>, m: MoneyState, env: nat -> Attempt)
    returns (idx: seq<nat>)
    requires forall k :: 0 <= k < |ws| ==> Fits(ws[k], prices, currentIndex)
    ensures var p := ProcessWatches(ws, price, prices, currentIndex, ma6, m, env);
      && |idx| == |p.kept|
      && (forall a, b :: 0 <= a < b < |idx| ==> idx[a] < idx[b])
      && (forall k :: 0 <= k < |idx| ==>
            idx[k] < |ws| && p.kept[k] == Advance(ws[idx[k]], price, prices, currentIndex).0)
      && (forall j :: 0 <= j < |ws| ==> (Survives(ws[j], price, prices, currentIndex) <==> j in idx))
  {
    if ws == [] {
      idx := [];
    } else {
      var n := |ws| - 1;
      var front := ws[..n];
      assert forall j :: 0 <= j < n ==> front[j] == ws[j];
      var idx' := KeptAreSurvivors(front, price, prices, currentIndex, ma6, m, env);
      var p' := ProcessWatches(front, price, prices, currentIndex, ma6, m, env);
      var a := Advance(ws[n], price, prices, currentIndex);
      assert forall k :: 0 <= k < |idx'| ==> idx'[k] < n;
      if Survives(ws[n], price, prices, currentIndex) {
        idx := idx' + [n];
        assert ProcessWatches(ws, price, prices, currentIndex, ma6, m, env).kept == p'.kept + [a.0];
      } else {
        idx := idx';
        assert ProcessWatches(ws, price, prices, currentIndex, ma6, m, env).kept == p'.kept;
      }
      assert forall k :: 0 <= k < |idx'| ==> idx[k] == idx'[k];
      forall j | 0 <= j < |ws| ensures Survives(ws[j], price, prices, currentIndex) <==> j in idx {
        if j < n {
          assert j in idx <==> j in idx';
        } else {
          assert j !in idx';
        }
      }
    }
  }

  /** The step of ProcessKeepsLive for the last watch of `ws`. */
  lemma AbsorbKeepsLive(ws: seq<WatchState>, p: Pass, w': WatchState, confirmed: bool,
                        price: real, ma6: Option<real>, env: nat -> Attempt, n: int)
    requires |ws| > 0 && DistinctKeys(ws)
    requires LiveSet(p.kept, n) && |p.kept| + p.confirmations < |ws|
    requires forall k :: 0 <= k < |p.kept| ==> Watched(ws[..|ws| - 1], p.kept[k].zone.poi, p.kept[k].kind)
    requires !confirmed && !w'.mitigated ==>
      Live(w', n) && w'.zone == ws[|ws| - 1].zone && w'.kind == ws[|ws| - 1].kind
    ensures var q := Absorb(p, w', confirmed, price, ma6, env);
      && LiveSet(q.kept, n)
      && (forall k :: 0 <= k < |q.kept| ==> Watched(ws, q.kept[k].zone.poi, q.kept[k].kind))
      && |q.kept| + q.confirmations <= |ws|
  {
    var front := ws[..|ws| - 1];
    forall k | 0 <= k < |p.kept| ensures Watched(ws, p.kept[k].zone.poi, p.kept[k].kind) {
      var j :| 0 <= j < |front| && front[j].zone.poi == p.kept[k].zone.poi && front[j].kind == p.kept[k].kind;
      assert ws[j] == front[j];
    }
    if !confirmed && !w'.mitigated {
      forall k | 0 <= k < |p.kept| ensures !(p.kept[k].zone.poi == w'.zone.poi && p.kept[k].kind == w'.kind) {
        var j :| 0 <= j < |front| && front[j].zone.poi == p.kept[k].zone.poi && front[j].kind == p.kept[k].kind;
        assert ws[j] == front[j];
      }
      assert Watched(ws, w'.zone.poi, w'.kind) by {
        assert ws[|ws| - 1].zone == w'.zone;
      }
    }
  }

  /** One tick keeps the live set live and free of duplicate (POI, kind) pairs. */
  lemma TickKeepsLive(ws: seq<WatchState>, m: MoneyState, h: seq<real>, price: real, env: nat -> Attempt)
    requires |h| > 0 && LiveSet(ws, |h|)
    ensures LiveSet(TickPass(ws, m, h, price, env).kept, |h|)
  {
    var latest := |h| - 1;
    var events := Signals(h, price);
    RegisterKeepsLive(ws, events, latest, |h|);
    ProcessKeepsLive(Register(ws, events, latest), price, h, ComputeMa(h, MaPeriod), m, env);
  }

  /** The states of a sequence of watch objects. */
  function StatesOf(ws: seq<BosWatch>): (s: seq<WatchState>)
    reads ws
    ensures |s| == |ws|
  {
    if ws == [] then [] else StatesOf(ws[..|ws| - 1]) + [ws[|ws| - 1].State()]
  }

  lemma {:induction false} StatesOfAt(ws: seq<BosWatch>)
    ensures forall k :: 0 <= k < |ws| ==> StatesOf(ws)[k] == ws[k].State()
  {
    if ws != [] {
      StatesOfAt(ws[..|ws| - 1]);
    }
  }

  /** `StatesOf` is the pointwise view of the objects' states. */
  lemma {:induction false} StatesOfPointwise(ws: seq<BosWatch>, s: seq<WatchState>)
    requires |s| == |ws| && forall k :: 0 <= k < |ws| ==> s[k] == ws[k].State()
    ensures StatesOf(ws) == s
  {
    if ws != [] {
      StatesOfPointwise(ws[..|ws| - 1], s[..|s| - 1]);
    }
  }

  /** No watch object appears twice in `ws`. */
  ghost predicate Distinct(ws: seq<BosWatch>)
  {
    forall a, b :: 0 <= a < b < |ws| ==> ws[a] != ws[b]
  }

  /** The engine: the price deque and the money globals of main.py:25, main.py:55-59,
      and the watch list local to `trading_loop` (main.py:203-204). */
  class Engine {
    var priceHistory: seq<real>
    var absoluteIndex: int
    var watching: seq<BosWatch>
    var stake: real
    var totalProfit: real
    var cooldownUntil: real
    var lastDirection: Option<Direction>
    var lastTradeTime: real

    function Money(): MoneyState
      reads this`stake, this`totalProfit, this`cooldownUntil, this`lastDirection, this`lastTradeTime
    {
      MoneyState(stake, totalProfit, cooldownUntil, lastDirection, lastTradeTime)
    }

    function Watching(): seq<WatchState>
      reads this`watching, watching
    {
      StatesOf(watching)
    }

    /** The history never exceeds the deque's capacity; the watch objects are distinct;
        the watches carried between ticks are live with unique (POI, kind) pairs. */
    ghost predicate Valid()
      reads this, watching
    {
      && |priceHistory| <= MaxPriceHistory
      && Distinct(watching)
      && LiveSet(Watching(), |priceHistory|)
    }

    constructor ()
      ensures Valid()
      ensures priceHistory == [] && absoluteIndex == 0 && watching == []
      ensures Money() == InitialMoney()
    {
      priceHistory := [];
      absoluteIndex := 0;
      watching := [];
      stake := BaseStake;
      totalProfit := 0.0;
      cooldownUntil := 0.0;
      lastDirection := None;
      lastTradeTime := 0.0;
    }

    /** Entering `trading_loop` after a (re)connection (main.py:203-204): the tick
        counter and the watch list start afresh; the price deque and money persist. */
    method BeginSession()
      requires Valid()
      modifies this`absoluteIndex, this`watching
      ensures Valid()
      ensures absoluteIndex == 0 && watching == []
      ensures priceHistory == old(priceHistory) && Money() == old(Money())
    {
      absoluteIndex := 0;
      watching := [];
    }

    /** The gates and bookkeeping for one confirmed watch (main.py:240-283). */
    method Trade(dir: Direction, price: real, ma6: Option<real>, a: Attempt) returns (placed: bool)
      modifies this`stake, this`totalProfit, this`cooldownUntil, this`lastDirection, this`lastTradeTime
      ensures Money() == OnConfirmed(old(Money()), dir, price, ma6, a)
      ensures placed <==> Admits(old(Money()), dir, price, ma6, a.now) && a.placed
    {
      placed := false;
      if ma6.Some? {
        if dir == Buy && price < ma6.value {
          return;
        } else if dir == Sell && price > ma6.value {
          return;
        }
      }
      if a.now < cooldownUntil {
        return;
      }
      if lastDirection != Some(dir) && a.now - lastTradeTime >= TradeSpacing {
        if a.placed {
          placed := true;
          lastDirection := Some(dir);
          lastTradeTime := a.tradeTime;
          if a.pnl.Some? {
            totalProfit := totalProfit + a.pnl.value;
            if a.pnl.value < 0.0 {
              stake := stake * MartingaleMultiplier;
            } else {
              stake := BaseStake;
            }
            if totalProfit >= ProfitTarget {
              cooldownUntil := a.targetTime + ProfitCooldown;
              totalProfit := 0.0;
            }
          }
        }
      }
    }

    /** Registration of new BOS events (main.py:229-233). */
    method RegisterEvents(events: seq<BosEvent>, latest: int)
      requires Valid()
      requires forall k :: 0 <= k < |events| ==> 0 <= events[k].priceIndex < |priceHistory|
      modifies this`watching
      ensures Valid()
      ensures Watching() == Register(old(Watching()), events, latest)
      ensures forall i :: 0 <= i < |watching| ==> watching[i] in old(watching) || fresh(watching[i])
    {
      for i := 0 to |events|
        invariant Valid()
        invariant Watching() == Register(old(Watching()), events[..i], latest)
        invariant forall i :: 0 <= i < |watching| ==> watching[i] in old(watching) || fresh(watching[i])
      {
        assert events[..i + 1][..i] == events[..i];
        RegisterEvent(events[i], latest);
      }
      assert events[..|events|] == events;
    }

    /** One iteration of the registration loop (main.py:230-233). */
    method RegisterEvent(e: BosEvent, latest: int)
      requires Valid()
      requires 0 <= e.priceIndex < |priceHistory|
      modifies this`watching
      ensures Valid()
      ensures Watching() == RegisterOne(old(Watching()), e, latest)
      ensures forall i :: 0 <= i < |watching| ==> watching[i] in old(watching) || fresh(watching[i])
    {
      ghost var before := Watching();
      StatesOfAt(watching);
      if !(exists w :: w in watching && w.zone.poi == e.zone.poi && w.kind == e.kind) {
        assert !Watched(before, e.zone.poi, e.kind);
        var deadline := latest + RetestLookahead;
        var w := new BosWatch(e.kind, e.zone, e.priceIndex, deadline);
        watching := watching + [w];
        assert Watching() == before + [w.State()];
        RegisterOneKeepsLive(before, e, latest, |priceHistory|);
      } else {
        var w :| w in watching && w.zone.poi == e.zone.poi && w.kind == e.kind;
        var k :| 0 <= k < |watching| && watching[k] == w;
        assert before[k].zone.poi == e.zone.poi && before[k].kind == e.kind;
      }
    }

    method AdvanceWatches(price: real, ma6: Option<real>, env: nat -> Attempt) returns (confirmations: nat)
      requires Valid() && |priceHistory| > 0
      modifies this`watching, this`stake, this`totalProfit, this`cooldownUntil, this`lastDirection, this`lastTradeTime
      modifies watching
      ensures Valid()
      ensures priceHistory == old(priceHistory) && absoluteIndex == old(absoluteIndex)
      ensures Pass(Watching(), Money(), confirmations)
           == ProcessWatches(old(Watching()), price, priceHistory, |priceHistory| - 1, ma6, old(Money()), env)
      ensures forall w :: w in watching ==> w in old(watching)
    {
      ghost var s0, m0 := Watching(), Money();
      ghost var p := ProcessWatches(s0, price, priceHistory, |priceHistory| - 1, ma6, m0, env);
      ghost var repr: set<object> := set i | 0 <= i < |watching| :: watching[i];
      var active;
      active, confirmations := RunWatches(watching, s0, repr, price, priceHistory, ma6, env);
      assert Pass(StatesOf(active), Money(), confirmations) == p;
      assert LiveSet(p.kept, |priceHistory|) by {
        ProcessKeepsLive(s0, price, priceHistory, ma6, m0, env);
      }
      watching := active;
      assert Watching() == p.kept;
    }

    method RunWatches(ws: seq<BosWatch>, ghost s0: seq<WatchState>, ghost repr: set<object>, price: real, prices: seq<real>, ma6: Option<real>, env: nat -> Attempt)
      returns (active: seq<BosWatch>, confirmations: nat)
      requires |prices| > 0
      requires Distinct(ws)
      requires s0 == StatesOf(ws) && LiveSet(s0, |prices|)
      requires this !in repr && forall i :: 0 <= i < |ws| ==> ws[i] in repr
      modifies this`stake, this`totalProfit, this`cooldownUntil, this`lastDirection, this`lastTradeTime
      modifies repr
      ensures Pass(StatesOf(active), Money(), confirmations)
           == ProcessWatches(s0, price, prices, |prices| - 1, ma6, old(Money()), env)
      ensures Distinct(active)
      ensures forall i :: 0 <= i < |active| ==> active[i] in ws
      ensures priceHistory == old(priceHistory) && absoluteIndex == old(absoluteIndex)
    {
      StatesOfAt(ws);
      ghost var p := Pass([], Money(), 0);
      active := [];
      confirmations := 0;
      for i := 0 to |ws|
        invariant forall j :: i <= j < |ws| ==> ws[j].State() == s0[j]
        invariant forall j :: i <= j < |ws| ==> ws[j] !in active
        invariant Distinct(active)
        invariant forall x :: x in active ==> x in ws
        invariant p == ProcessWatches(s0[..i], price, prices, |prices| - 1, ma6, old(Money()), env)
        invariant |active| == |p.kept| && forall k :: 0 <= k < |active| ==> active[k].State() == p.kept[k]
        invariant Money() == p.money && confirmations == p.confirmations
        invariant priceHistory == old(priceHistory) && absoluteIndex == old(absoluteIndex)
      {
        ProcessStep(s0, i, price, prices, ma6, old(Money()), env);
        active, confirmations, p := StepWatch(ws[i], active, confirmations, p, price, prices, ma6, env);
      }
      assert s0[..|ws|] == s0;
      StatesOfPointwise(active, p.kept);
    }

    /** The loop body of main.py:237-287 for the watch `w`, as one step of `ProcessWatches`. */
    method StepWatch(w: BosWatch, active: seq<BosWatch>, confirmations: nat, ghost p: Pass,
                     price: real, prices: seq<real>, ma6: Option<real>, env: nat -> Attempt)
      returns (active': seq<BosWatch>, confirmations': nat, ghost p': Pass)
      requires |prices| > 0 && Fits(w.State(), prices, |prices| - 1)
      requires Distinct(active) && w !in active
      requires |active| == |p.kept| && forall k :: 0 <= k < |active| ==> active[k].State() == p.kept[k]
      requires Money() == p.money && confirmations == p.confirmations
      modifies w, this`stake, this`totalProfit, this`cooldownUntil, this`lastDirection, this`lastTradeTime
      ensures var a := Advance(old(w.State()), price, prices, |prices| - 1);
        p' == Absorb(p, a.0, a.1, price, ma6, env)
      ensures |active'| == |p'.kept| && forall k :: 0 <= k < |active'| ==> active'[k].State() == p'.kept[k]
      ensures Money() == p'.money && confirmations' == p'.confirmations
      ensures Distinct(active') && forall x :: x in active' ==> x in active || x == w
    {
      var confirmed, keep := AdvanceWatch(w, price, prices, ma6, env(confirmations));
      p' := Absorb(p, w.State(), confirmed, price, ma6, env);
      active', confirmations' := active, confirmations;
      if confirmed {
        confirmations' := confirmations + 1;
      } else if keep {
        active' := active + [w];
      }
    }

    /** One iteration of the loop of main.py:237-287 for the watch `w`: mitigation,
        retest and confirmation, and on confirmation the gates and the trade. */
    method AdvanceWatch(w: BosWatch, price: real, prices: seq<real>, ma6: Option<real>, a: Attempt)
      returns (confirmed: bool, keep: bool)
      requires |prices| > 0 && Fits(w.State(), prices, |prices| - 1)
      modifies w, this`stake, this`totalProfit, this`cooldownUntil, this`lastDirection, this`lastTradeTime
      ensures (w.State(), confirmed) == Advance(old(w.State()), price, prices, |prices| - 1)
      ensures Money() == if confirmed then OnConfirmed(old(Money()), DirectionOf(w.State().kind), price, ma6, a) else old(Money())
      ensures keep <==> !confirmed && !w.mitigated
    {
      var _ := w.CheckMitigation(price);
      confirmed := w.CheckRetestAndConfirm(prices, |prices| - 1);
      keep := false;
      if confirmed {
        var dir := DirectionOf(w.kind);
        var _ := Trade(dir, price, ma6, a);
        return;
      }
      keep := !w.mitigated;
    }

    /** One price tick (main.py:210-288). The k-th confirmation of the tick uses the
        outcome `env(k)`; the result is the number of watches that confirmed. */
    method OnTick(price: real, env: nat -> Attempt) returns (confirmations: nat)
      requires Valid()
      modifies this`priceHistory, this`absoluteIndex, this`watching
      modifies this`stake, this`totalProfit, this`cooldownUntil, this`lastDirection, this`lastTradeTime
      modifies watching
      ensures Valid()
      ensures priceHistory == Append(old(priceHistory), price)
      ensures absoluteIndex == old(absoluteIndex) + 1
      ensures forall w :: w in watching ==> w in old(watching) || fresh(w)
      ensures |priceHistory| < WarmUp ==>
        watching == old(watching) && Watching() == old(Watching()) && Money() == old(Money()) && confirmations == 0
      ensures |priceHistory| >= WarmUp ==>
        Pass(Watching(), Money(), confirmations) == TickPass(old(Watching()), old(Money()), priceHistory, price, env)
    {
      Record(price);
      confirmations := 0;
      if |priceHistory| < WarmUp {
        return;
      }
      confirmations := Evaluate(price, env);
    }

    /** Appending the tick to the deque and counting it (main.py:211-212). */
    method Record(price: real)
      requires Valid()
      modifies this`priceHistory, this`absoluteIndex
      ensures Valid()
      ensures priceHistory == Append(old(priceHistory), price)
      ensures absoluteIndex == old(absoluteIndex) + 1
    {
      priceHistory := Append(priceHistory, price);
      absoluteIndex := absoluteIndex + 1;
    }

    /** The evaluation of one tick after the warm-up (main.py:216-288). */
    method Evaluate(price: real, env: nat -> Attempt) returns (confirmations: nat)
      requires Valid() && |priceHistory| > 0
      modifies this`watching, this`stake, this`totalProfit, this`cooldownUntil, this`lastDirection, this`lastTradeTime
      modifies watching
      ensures Valid()
      ensures priceHistory == old(priceHistory) && absoluteIndex == old(absoluteIndex)
      ensures forall w :: w in watching ==> w in old(watching) || fresh(w)
      ensures Pass(Watching(), Money(), confirmations) == TickPass(old(Watching()), old(Money()), priceHistory, price, env)
    {
      var events := Signals(priceHistory, price);
      var ma6 := ComputeMa(priceHistory, MaPeriod);
      confirmations := RegisterAndAdvance(price, events, ma6, env);
    }

    /** Registration and the watch loop of one tick (main.py:229-288). */
    method RegisterAndAdvance(price: real, events: seq<BosEvent>, ma6: Option<real>, env: nat -> Attempt)
      returns (confirmations: nat)
      requires Valid() && |priceHistory| > 0
      requires forall k :: 0 <= k < |events| ==> 0 <= events[k].priceIndex < |priceHistory|
      modifies this`watching, this`stake, this`totalProfit, this`cooldownUntil, this`lastDirection, this`lastTradeTime
      modifies watching
      ensures Valid()
      ensures priceHistory == old(priceHistory) && absoluteIndex == old(absoluteIndex)
      ensures forall w :: w in watching ==> w in old(watching) || fresh(w)
      ensures (RegisterStaysLive(old(Watching()), events, |priceHistory| - 1, |priceHistory|);
        Pass(Watching(), Money(), confirmations)
           == ProcessWatches(Register(old(Watching()), events, |priceHistory| - 1), price, priceHistory, |priceHistory| - 1, ma6, old(Money()), env))
    {
      var latest := |priceHistory| - 1;
      ghost var s0, m0 := Watching(), Money();
      RegisterEvents(events, latest);
      assert Watching() == Register(s0, events, latest) && Money() == m0;
      confirmations := AdvanceWatches(price, ma6, env);
    }
  }
}

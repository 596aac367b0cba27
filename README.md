# SMC Deriv bot: the signal and trading engine

This project models the decision engine of the SMC ("smart money concepts") Deriv bot
in `main.py`. On every price tick the bot does the following:

1. It appends the price to a deque of at most 4000 prices. Nothing more happens until
   120 prices exist.
2. It computes a simplified ATR and a moving average from the whole history: the mean
   of its last 14 absolute moves and the mean of its last 6 prices.
3. It finds swing highs and swing lows (half-width 10) in the last 120 prices.
4. It draws a supply box under each of the last 40 swing highs and a demand box over
   each of the last 40 swing lows. Each box is 0.25 × ATR high.
5. It reports a break of structure (BOS) for every box the latest price has closed
   beyond.
6. It registers one `BOSWatch` per new (POI, kind) pair. The POI is the box midpoint.
7. It advances every watch: mitigation, then a retest of the POI, then a confirmation
   within three ticks of the retest. Each confirmation passes through these gates: the
   MA6 trend filter, the profit-target cooldown, direction alternation and 0.6 s of
   spacing.
8. An admitted confirmation trades. The stake follows a martingale, and a profit target
   of 10000 pauses trading for 5 hours.

Modules, one per file:

| file | module | content |
|---|---|---|
| `indicators.dfy` | `Indicators` | `compute_atr`, `compute_ma`, Python's `s[-n:]` (`Tail`) |
| `swings.dfy` | `SwingPoints` | `find_swing_points` |
| `zones.dfy` | `Zones` | `create_zones` |
| `bos.dfy` | `BreakOfStructure` | `detect_bos` |
| `watch.dfy` | `Watches` | the `BOSWatch` class, proved against value-level functions on a `WatchState` |
| `watch.dfy` | `WatchProperties` | lemmas about the watch state machine |
| `money.dfy` | `MoneyManagement` | the trade gates, the martingale and the profit-target breaker, on a `MoneyState` value |
| `engine.dfy` | `TradingLoop` | the per-tick body of `trading_loop` as the `Engine` class, proved against the value-level `TickPass` |

The `Engine` holds the price history, the list of watch objects and the money globals.
It is a class because the source updates these in place. `BosWatch` is a class for the
same reason. Each method is proved equal to a value-level function on the old state.
The lemmas then state what those functions guarantee:

- the watches carried between ticks stay *live*: their indices lie in the history, the
  retest comes after the break, and they are neither confirmed nor mitigated;
- no two carried watches share a (POI, kind) pair.

The model reproduces these behaviours of the code as written:

- `deadline_index` is stored but never consulted, so watches never expire
  (`WatchProperties.DeadlineIgnored`).
- The ATR fallback `max(prices) - min(prices) * 0.01` binds as `max - (min * 0.01)`. On a
  flat window it gives 99% of the price, not a percentage of the range
  (`Zones.FallbackOnFlatWindow`).
- A placed trade records its direction and time even when its profit could not be read.
- Every watch that confirms leaves the list, whether it traded or was filtered out.
- Swing indices are relative to the 120-price window, while BOS, retest and confirmation
  indices are positions in the whole deque.
- Once the deque is full, eviction shifts every stored price one position down. Stored
  indices are not adjusted, so they point one price later each tick.
- `s[-0:]` is the whole sequence. `Tail` reproduces this for a window of 0.

Environment inputs become parameters:

- The clock readings (`time.time()` at lines 243, 265 and 279) are parameters.
- The trade outcome (`place_trade` succeeded, the profit from `wait_for_result`) is a
  parameter.
- The tick handler takes a function `env: nat -> Attempt`. The k-th confirmation of a
  tick is gated with, and traded against, `env(k)`.

## Model

| member | source | states |
|---|---|---|
| Indicators.Tail | main.py:68 | Python's `s[-n:]`: the last n elements, or all of them when n is 0 or at least the length; always a suffix of `s` |
| Indicators.AbsDiffs | main.py:65 | one absolute move per pair of consecutive prices: element i is \|p[i+1] − p[i]\| |
| Indicators.MovesUsed | main.py:66-68 | the moves averaged are all of them when fewer than the window exist, else the last `window`; either way the suffix starting at `AtrStart` |
| Indicators.ComputeAtr | main.py:62-68 | the ATR is never negative, and it is 0 exactly when fewer than two prices exist or no price moved within the averaged window |
| Indicators.AveragedMoves | main.py:65-68 | the averaged moves are non-empty and non-negative; their mean is zero iff the prices from the window start on are all equal |
| Indicators.ComputeMa | main.py:70-73 | None exactly when fewer than `period` prices exist |
| Indicators.MaWithinWindow | main.py:70-73 | the moving average lies between any lower and upper bound of the last `period` prices |
| SwingPoints.SeqMax | main.py:83 | `max(segment)` is an element of the segment and is at least every element |
| SwingPoints.SeqMin | main.py:85 | `min(segment)` is an element of the segment and is at most every element |
| SwingPoints.CollectStep | main.py:81-86 | one loop iteration keeps the invariant: the lists hold exactly the swings below the loop index, in increasing index order |
| SwingPoints.Scan | main.py:81-86 | after the loop over L..hi-1, the lists hold exactly the swing highs and swing lows below hi, each at its own price, in increasing index order |
| SwingPoints.FindSwingPoints | main.py:75-87 | empty when N < 2L+1; otherwise exactly the swing highs and exactly the swing lows, each with its own price, in increasing index order |
| SwingPoints.SwingHighIsNeighbourhoodMax | main.py:82-84 | the equality test with `max(segment)` holds iff the price is at least every price within L of it |
| SwingPoints.SwingLowIsNeighbourhoodMin | main.py:82-86 | the equality test with `min(segment)` holds iff the price is at most every price within L of it |
| SwingPoints.ReportedSwingsDominate | main.py:75-87 | every reported high (low) lies in [L, N−L) and dominates (is dominated by) its whole neighbourhood |
| SwingPoints.FlatNeighbourhoodIsBoth | main.py:83-86 | on a flat neighbourhood the same index is reported both as a high and as a low |
| Zones.ZoneAtr | main.py:91 | a positive ATR is used as it is; otherwise the ATR is the largest price less 1% of the smallest price |
| Zones.BuildZones | main.py:92-103 | one zone per swing point, in order; each is that point's supply or demand box |
| Zones.CreateZones | main.py:89-104 | as many supply (demand) zones as swing highs (lows) kept by `[-40:]` |
| Zones.BoxesAreWellShaped | main.py:93-103 | a supply top and a demand bottom sit at the swing price; the height is ATR × 0.25; the POI is the midpoint and lies strictly inside for a positive ATR |
| Zones.KeptZones | main.py:92-103 | the zones built from `points[-keep:]` are one per kept point, at its index and price, and well shaped |
| Zones.ZoneShape | main.py:89-104 | both lists of `create_zones` are the zones of the last `keep` swings of their kind, at their indices and prices, well shaped for the ATR in use |
| Zones.FallbackPositiveOnPositivePrices | main.py:91 | on positive prices the fallback ATR is positive, so boxes have positive height |
| Zones.FallbackOnFlatWindow | main.py:91 | on any non-empty flat window and any non-positive ATR the fallback is 0.99 × price (the precedence of `max - min * 0.01`) |
| BreakOfStructure.BreakEvents | main.py:108-113 | no more events than zones; every event has the given kind, latest index and price, and its zone is breached (exactly one per breached zone: `OneEventPerBreachedZone`) |
| BreakOfStructure.DetectBos | main.py:106-114 | every event is stamped with the latest index and price and breaches its zone; all "BOS High" events precede all "BOS Low" ones |
| BreakOfStructure.OneEventPerBreachedZone | main.py:108-113 | the events are exactly the breached zones, one each, in zone order (both directions) |
| BreakOfStructure.DetectBosOrder | main.py:106-114 | the events are one per supply zone with price > top, in increasing zone order, then one per demand zone with price < bottom, in increasing zone order; a zone has an event iff it is breached |
| Watches.Tolerance | main.py:138 | the tolerance is the larger of a fifth of the zone height and a fifth of 1e-9, so it is always positive |
| Watches.FirstMeeting | main.py:141-144 | the first index in [lo, hi) meeting the criterion, or None iff no index there meets it |
| Watches.BosWatch.constructor | main.py:118-125 | a new watch has no retest, no confirmation and is not mitigated |
| Watches.BosWatch.CheckMitigation | main.py:127-132 | the new state is `Mitigate` of the old one, and the result is the flag |
| Watches.BosWatch.CheckRetestAndConfirm | main.py:134-155 | the new state and the result are `RetestConfirm` of the old state |
| Watches.BosWatch.SeekRetest | main.py:139-144 | the loop sets the retest to the first in-band price after the break, and does nothing when a retest exists |
| Watches.BosWatch.SeekConfirmation | main.py:146-154 | the loop sets the confirmation to the first decisive price within three ticks of the retest, and reports it |
| WatchProperties.MitigationOnlySets | main.py:127-132 | the flag is set iff it was set or price moved back through the zone; nothing else changes |
| WatchProperties.MitigatedIsFrozen | main.py:135-136 | a mitigated watch never confirms and never changes |
| WatchProperties.RetestIsFirstTouch | main.py:139-144 | a newly set retest is the first tick after the break, up to the current one, inside the POI band; when none exists it stays unset |
| WatchProperties.RetestIsStable | main.py:139 | once set, the retest index never changes |
| WatchProperties.ConfirmationIsFirstDecisiveMove | main.py:134-155 | a confirmation is reported iff the watch was unmitigated, unconfirmed and now has a confirmation; its index is the first tick in [r, min(N, r+3)) beyond the POI by 15% of the tolerance in the break's direction; conversely, an unmitigated, unconfirmed watch with a retest r and such a tick in that window confirms |
| WatchProperties.ConfirmsAtMostOnce | main.py:146 | a confirmed watch never reports a confirmation again and keeps its confirmation index |
| WatchProperties.DeadlineIgnored | main.py:118-155 | advancing a watch does the same whatever its deadline: no watch ever expires |
| WatchProperties.AdvanceKeepsIdentity | main.py:117-155 | advancing changes neither kind, zone, BOS index nor deadline |
| MoneyManagement.TrendAllows | main.py:246-252 | with an MA6, a BUY needs price ≥ MA6 and a SELL needs price ≤ MA6; without one every direction passes |
| MoneyManagement.Admits | main.py:246-259 | a signal is admitted iff the trend allows it, the profit cooldown is over, the last trade (if any) went the other way, and at least 0.6 s passed since it |
| MoneyManagement.Settle | main.py:263-281 | a placed trade records its direction and time even without a profit; without a profit nothing else changes; with one the total ends below the target |
| MoneyManagement.RejectedOrFailedChangesNothing | main.py:246-283 | a filtered signal or a failed placement leaves all money globals unchanged |
| MoneyManagement.Martingale | main.py:270-275 | a loss doubles the stake; a win or break-even resets it to 100 |
| MoneyManagement.ProfitTargetBreaker | main.py:269-281 | reaching 10000 resets the total to 0 and sets the cooldown to 5 h after the clock reading; otherwise the total grows by the profit; the total ends below the target |
| MoneyManagement.CooldownBlocksTrading | main.py:255-281 | after the breaker fires, no signal is admitted before the cooldown ends |
| MoneyManagement.TradesAlternate | main.py:259-266 | after a placed trade, the next admitted trade goes the other way and comes at least 0.6 s later |
| MoneyManagement.LosingStreak | main.py:269-272 | after n consecutive losses the stake is 2^n times the starting stake |
| MoneyManagement.WinResetsStake | main.py:273-275 | one win after any run of trades resets the stake to the base stake |
| MoneyManagement.ProfitStaysBelowTarget | main.py:269-281 | the running total never reaches the target across any sequence of settled trades |
| TradingLoop.Append | main.py:211 | the deque grows by one until it holds 4000 prices, then stays at 4000 |
| TradingLoop.AppendKeepsNewest | main.py:211 | the deque holds the newest prices with the new one last; a full deque drops exactly the oldest |
| TradingLoop.Signals | main.py:218-226 | every BOS event of a tick carries the latest index (len − 1) and the tick's price |
| TradingLoop.RegisterKeepsLive | main.py:229-233 | registration only appends, keeps every watch live and every (POI, kind) pair unique, and afterwards every event's pair is watched |
| TradingLoop.RegisterStaysLive | main.py:229-233 | registration only adds watches that are live for the current history |
| TradingLoop.AdvanceKeepsLive | main.py:238-288 | a watch that neither confirms nor is mitigated stays live, with the same zone and kind |
| TradingLoop.ProcessKeepsLive | main.py:236-288 | the carried watches are live with unique pairs and all come from the input; carried plus confirmed never exceeds the input |
| TradingLoop.KeptAreSurvivors | main.py:285-288 | the carried watches are exactly the advanced watches that neither confirmed nor were mitigated, in input order (an increasing index map, both directions) |
| TradingLoop.AbsorbKeepsLive | main.py:239-287 | one loop iteration keeps the invariant of `ProcessKeepsLive` |
| TradingLoop.TickKeepsLive | main.py:216-288 | a whole tick keeps the carried watches live with unique (POI, kind) pairs |
| TradingLoop.Engine.constructor | main.py:24-59 | empty deque, no watches, base stake, zero profit and cooldown, no last direction |
| TradingLoop.Engine.BeginSession | main.py:203-204 | a (re)connection resets the tick counter and the watch list; the deque and money persist |
| TradingLoop.Engine.Trade | main.py:240-283 | money becomes `OnConfirmed` of the old money; the trade is placed iff every gate passes and the venue accepts it |
| TradingLoop.Engine.RegisterEvents | main.py:229-233 | the watch states become `Register` of the old ones; the engine stays valid |
| TradingLoop.Engine.RegisterEvent | main.py:230-233 | a new watch is appended iff no watch has the event's (POI, kind) pair |
| TradingLoop.Engine.AdvanceWatch | main.py:238-287 | the watch advances as `Advance`; money changes only on confirmation; the watch is kept iff unconfirmed and unmitigated |
| TradingLoop.Engine.StepWatch | main.py:237-287 | one loop iteration is one `Absorb` step on the running result |
| TradingLoop.Engine.RunWatches | main.py:236-287 | the loop leaves the kept watches, the money and the confirmation count equal to `ProcessWatches` |
| TradingLoop.Engine.AdvanceWatches | main.py:236-288 | the watch list and money become `ProcessWatches` of the old state; the engine stays valid |
| TradingLoop.Engine.RegisterAndAdvance | main.py:229-288 | registration followed by the watch loop, equal to `ProcessWatches` of `Register` of the old watches |
| TradingLoop.Engine.Record | main.py:211-212 | the price is appended to the deque and the tick counted |
| TradingLoop.Engine.Evaluate | main.py:216-288 | watches, money and confirmations become `TickPass` of the old state |
| TradingLoop.Engine.OnTick | main.py:210-288 | the price is appended and counted; during warm-up nothing else changes; afterwards the tick is `TickPass` of the old state; the engine stays valid |

## Left out

- The websocket session is not modelled: connection, authorization, subscription,
  keepalive thread, JSON messages and reconnection (main.py:158-198, main.py:290-349).
  `BeginSession` stands for a re-entry into `trading_loop`.
- `place_trade` and `wait_for_result` are not modelled. Their outcome (accepted or not, and
  the profit or None) is the `Attempt` parameter. The stake sent with the order, the
  contract type and the barrier therefore do not appear.
- Logging, `KeyboardInterrupt` and the generic exception handler are not modelled.
- Floating point: prices, ATR, means and money are Dafny reals, so rounding is not
  modelled.
- `deque(maxlen=4000)` is modelled as a sequence that drops its first element when full.
- `absolute_index` is counted but, as in the source, never read.
- Indicators.ComputeMa: requires `period > 0` or a non-empty history, because
  `np.mean` of an empty array is NaN. The engine always calls it with period 6.
- Zones.CreateZones: requires a positive ATR or a non-empty history, because `max` of an
  empty list raises. The engine only calls it after the 120-price warm-up.
- TradingLoop.Engine.OnTick: the tick is only proved against `TickPass`. Lemmas about the
  money state are stated on `Settle` and `OnConfirmed`, not re-derived through a whole
  tick.

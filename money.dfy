/**
 * Trade gating and money management (main.py:240-283): the MA6 trend filter, the
 * profit-target cooldown, direction alternation with a minimum spacing, the martingale
 * stake and the profit-target circuit breaker.
 */
module MoneyManagement {
  import opened Wrappers

  const BaseStake: real := 100.0
  const MartingaleMultiplier: real := 2.0
  const ProfitTarget: real := 10000.0
  /** `5 * 3600` seconds. */
  const ProfitCooldown: real := 18000.0
  /** `COOLDOWN_BETWEEN_TRADES`. */
  const TradeSpacing: real := 0.6

  /** 'BUY' for a "BOS High" confirmation, 'SELL' for a "BOS Low" one. */
  datatype Direction = Buy | Sell

  /** The process-wide money globals `STAKE`, `total_profit`, `cooldown_until`,
      `last_trade_direction` and `last_trade_time`. */
  datatype MoneyState = MoneyState(
    stake: real,
    totalProfit: real,
    cooldownUntil: real,
    lastDirection: Option<Direction>,
    lastTradeTime: real)

  /** The globals at process start (main.py:25, main.py:56-59). */
  function InitialMoney(): MoneyState
  {
    MoneyState(BaseStake, 0.0, 0.0, None, 0.0)
  }

  /** What the outside world contributes to one confirmed signal: the clock reading taken
      before gating (`now`), whether the venue accepted the order, the settled profit if
      it could be read, and the clock readings of main.py:265 and main.py:279. */
  datatype Attempt = Attempt(now: real, placed: bool, pnl: Option<real>, tradeTime: real, targetTime: real)

  /** The MA6 trend filter (main.py:246-252): a BUY below the average and a SELL above
      it are skipped; without an average nothing is skipped. */
  predicate TrendAllows(dir: Direction, price: real, ma6: Option<real>): (ok: bool)
    ensures ma6.None? ==> ok
    ensures ma6.Some? && dir == Buy ==> (ok <==> price >= ma6.value)
    ensures ma6.Some? && dir == Sell ==> (ok <==> price <= ma6.value)
  {
    ma6.None? || (if dir == Buy then !(price < ma6.value) else !(price > ma6.value))
  }

  /** All gates of main.py:246-259 pass: the trend allows the direction, the profit
      cooldown is over, the last trade (if any) went the other way, and at least 0.6 s
      have passed since it. */
  predicate Admits(m: MoneyState, dir: Direction, price: real, ma6: Option<real>, now: real): (ok: bool)
    ensures ok <==>
      && TrendAllows(dir, price, ma6)
      && now >= m.cooldownUntil
      && (m.lastDirection.None? || m.lastDirection.value != dir)
      && now >= m.lastTradeTime + TradeSpacing
  {
    && TrendAllows(dir, price, ma6)
    && !(now < m.cooldownUntil)
    && m.lastDirection != Some(dir)
    && now - m.lastTradeTime >= TradeSpacing
  }

  /** The bookkeeping after a placed trade (main.py:263-281). A placed trade always
      records its direction and time, even when its profit could not be read; without a
      profit, stake, total profit and cooldown stay as they were; with one, the total
      ends below the target. */
  function Settle(m: MoneyState, dir: Direction, a: Attempt): (m': MoneyState)
    ensures m'.lastDirection == Some(dir) && m'.lastTradeTime == a.tradeTime
    ensures a.pnl.None? ==> m' == m.(lastDirection := Some(dir), lastTradeTime := a.tradeTime)
    ensures a.pnl.Some? ==> m'.totalProfit < ProfitTarget
  {
    var recorded := m.(lastDirection := Some(dir), lastTradeTime := a.tradeTime);
    if a.pnl.None? then recorded
    else
      var pnl := a.pnl.value;
      var total := recorded.totalProfit + pnl;
      var stake := if pnl < 0.0 then recorded.stake * MartingaleMultiplier else BaseStake;
      if total >= ProfitTarget
      then recorded.(totalProfit := 0.0, stake := stake, cooldownUntil := a.targetTime + ProfitCooldown)
      else recorded.(totalProfit := total, stake := stake)
  }

  /** The money state after one confirmed signal: settled when admitted and placed,
      unchanged otherwise. */
  function OnConfirmed(m: MoneyState, dir: Direction, price: real, ma6: Option<real>, a: Attempt): MoneyState
  {
    if Admits(m, dir, price, ma6, a.now) && a.placed then Settle(m, dir, a) else m
  }

  /** A rejected signal or a failed placement changes nothing. */
  lemma RejectedOrFailedChangesNothing(m: MoneyState, dir: Direction, price: real, ma6: Option<real>, a: Attempt)
    requires !Admits(m, dir, price, ma6, a.now) || !a.placed
    ensures OnConfirmed(m, dir, price, ma6, a) == m
  {
  }

  /** Martingale: a loss doubles the stake, a win (or break-even) resets it to exactly the
      base stake, whatever it was. */
  lemma Martingale(m: MoneyState, dir: Direction, a: Attempt)
    requires a.pnl.Some?
    ensures a.pnl.value < 0.0 ==> Settle(m, dir, a).stake == 2.0 * m.stake
    ensures a.pnl.value >= 0.0 ==> Settle(m, dir, a).stake == 100.0
  {
  }

  /** The profit-target breaker: reaching the target resets the total to 0 and pauses
      trading until 5 hours after the reading of main.py:279; otherwise the total grows by
      the profit. Either way the total stays below the target afterwards. */
  lemma ProfitTargetBreaker(m: MoneyState, dir: Direction, a: Attempt)
    requires a.pnl.Some?
    ensures var m' := Settle(m, dir, a);
      && (m.totalProfit + a.pnl.value >= 10000.0 ==>
            m'.totalProfit == 0.0 && m'.cooldownUntil == a.targetTime + 18000.0)
      && (m.totalProfit + a.pnl.value < 10000.0 ==>
            m'.totalProfit == m.totalProfit + a.pnl.value && m'.cooldownUntil == m.cooldownUntil)
      && m'.totalProfit < 10000.0
  {
  }

  /** After the breaker fires, no signal is admitted before the cooldown ends. */
  lemma CooldownBlocksTrading(m: MoneyState, dir: Direction, a: Attempt,
                              dir': Direction, price: real, ma6: Option<real>, now: real)
    requires a.pnl.Some? && m.totalProfit + a.pnl.value >= ProfitTarget
    requires now < a.targetTime + ProfitCooldown
    ensures !Admits(Settle(m, dir, a), dir', price, ma6, now)
  {
  }

  /** Alternation: after a placed trade, the next admitted trade goes the other way and
      comes at least 0.6 s after the recorded trade time. */
  lemma TradesAlternate(m: MoneyState, dir: Direction, a: Attempt,
                        dir': Direction, price: real, ma6: Option<real>, now: real)
    requires Admits(Settle(m, dir, a), dir', price, ma6, now)
    ensures dir' != dir
    ensures now - a.tradeTime >= 0.6
  {
  }

  function Pow2(n: nat): real
  {
    if n == 0 then 1.0 else 2.0 * Pow2(n - 1)
  }

  /** Settling a run of placed trades in order. */
  function SettleAll(m: MoneyState, trades: seq<(Direction, Attempt)>): MoneyState
  {
    if trades == [] then m
    else Settle(SettleAll(m, trades[..|trades| - 1]), trades[|trades| - 1].0, trades[|trades| - 1].1)
  }

  /** After n consecutive losses the stake is 2^n times what it was: from the base stake,
      100, 200, 400, 800, ... */
  lemma {:induction false} LosingStreak(m: MoneyState, trades: seq<(Direction, Attempt)>)
    requires forall k :: 0 <= k < |trades| ==> trades[k].1.pnl.Some? && trades[k].1.pnl.value < 0.0
    ensures SettleAll(m, trades).stake == m.stake * Pow2(|trades|)
  {
    if trades != [] {
      var front := trades[..|trades| - 1];
      LosingStreak(m, front);
      assert SettleAll(m, trades).stake == 2.0 * SettleAll(m, front).stake;
    }
  }

  /** A single win after any run resets the stake to exactly the base stake. */
  lemma WinResetsStake(m: MoneyState, trades: seq<(Direction, Attempt)>, dir: Direction, win: Attempt)
    requires win.pnl.Some? && win.pnl.value >= 0.0
    ensures SettleAll(m, trades + [(dir, win)]).stake == BaseStake
  {
    assert (trades + [(dir, win)])[..|trades|] == trades;
  }

  /** Total profit never reaches the target once trades have been settled from a state
      below it. */
  lemma {:induction false} ProfitStaysBelowTarget(m: MoneyState, trades: seq<(Direction, Attempt)>)
    requires m.totalProfit < ProfitTarget
    ensures SettleAll(m, trades).totalProfit < ProfitTarget
  {
    if trades != [] {
      ProfitStaysBelowTarget(m, trades[..|trades| - 1]);
    }
  }
}

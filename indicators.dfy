/**
 * Price-window helpers and the two indicators of the engine (main.py:62-73):
 * the simplified ATR (mean absolute tick-to-tick move) and the short moving average.
 * Prices are reals; IEEE rounding is not modelled.
 */
module Indicators {
  import opened Wrappers

  const AtrWindow: nat := 14
  const MaPeriod: nat := 6

  /** Python's slice `s[-n:]` for n >= 0: the last n elements, and the whole sequence
      when n is 0 (since `-0 == 0`) or when n is at least the length. */
  function Tail<T>(s: seq<T>, n: nat): (t: seq<T>)
    ensures |t| == if n == 0 || |s| <= n then |s| else n
    ensures t == s[|s| - |t|..]
  {
    if n == 0 || |s| <= n then s else s[|s| - n..]
  }

  function Abs(x: real): (r: real)
    ensures r >= 0.0
  {
    if x < 0.0 then -x else x
  }

  function Sum(s: seq<real>): real
  {
    if s == [] then 0.0 else Sum(s[..|s| - 1]) + s[|s| - 1]
  }

  /** `np.mean` of a non-empty array. */
  function Mean(s: seq<real>): real
    requires |s| > 0
  {
    Sum(s) / |s| as real
  }

  /** `np.abs(np.diff(prices))`: the absolute moves between consecutive prices. */
  function AbsDiffs(prices: seq<real>): (d: seq<real>)
    ensures |d| == if |prices| < 2 then 0 else |prices| - 1
    ensures forall i :: 0 <= i < |d| ==> d[i] == Abs(prices[i + 1] - prices[i])
  {
    if |prices| < 2 then []
    else AbsDiffs(prices[..|prices| - 1]) + [Abs(prices[|prices| - 1] - prices[|prices| - 2])]
  }

  /** First price index whose move into the next price enters the ATR average. */
  function AtrStart(n: nat, window: nat): nat
  {
    if n < 2 || window == 0 || n - 1 <= window then 0 else n - 1 - window
  }

  /** The moves `compute_atr` averages: all of them when there are fewer than `window`,
      otherwise `diffs[-window:]`. Either way they are the moves from AtrStart on. */
  function MovesUsed(diffs: seq<real>, window: nat): (used: seq<real>)
    ensures used == diffs[AtrStart(|diffs| + 1, window)..]
  {
    if |diffs| < window then diffs else Tail(diffs, window)
  }

  /** `compute_atr`: 0 for fewer than two prices, otherwise the mean absolute move over
      the last `window` steps (all steps when there are fewer). The ATR is never negative,
      and it is zero exactly when no price moved within those steps. */
  function ComputeAtr(prices: seq<real>, window: nat): (r: real)
    ensures r >= 0.0
    ensures r == 0.0 <==> (|prices| < 2 ||
      forall i :: AtrStart(|prices|, window) <= i < |prices| - 1 ==> prices[i] == prices[i + 1])
  {
    if |prices| < 2 then 0.0
    else
      var used := MovesUsed(AbsDiffs(prices), window);
      AveragedMoves(prices, window);
      Mean(used)
  }

  /** The moves `compute_atr` averages are non-empty and non-negative, and their mean is
      zero exactly when the prices from AtrStart on are all equal. */
  lemma AveragedMoves(prices: seq<real>, window: nat)
    requires |prices| >= 2
    ensures var used := MovesUsed(AbsDiffs(prices), window);
      && |used| > 0
      && Mean(used) >= 0.0
      && (Mean(used) == 0.0 <==>
            forall i :: AtrStart(|prices|, window) <= i < |prices| - 1 ==> prices[i] == prices[i + 1])
  {
    var diffs := AbsDiffs(prices);
    var start := AtrStart(|prices|, window);
    var used := MovesUsed(diffs, window);
    forall k | 0 <= k < |used| ensures used[k] >= 0.0 {
      assert used[k] == diffs[start + k] == Abs(prices[start + k + 1] - prices[start + k]);
    }
    MeanOfNonNegative(used);
    NoMoveIffFlat(prices, diffs, start);
  }

  lemma NoMoveIffFlat(prices: seq<real>, diffs: seq<real>, start: nat)
    requires |diffs| == |prices| - 1 && start < |diffs|
    requires forall i :: 0 <= i < |diffs| ==> diffs[i] == Abs(prices[i + 1] - prices[i])
    ensures (forall k :: 0 <= k < |diffs| - start ==> diffs[start..][k] == 0.0) <==>
            (forall i :: start <= i < |prices| - 1 ==> prices[i] == prices[i + 1])
  {
    if forall k :: 0 <= k < |diffs| - start ==> diffs[start..][k] == 0.0 {
      forall i | start <= i < |prices| - 1 ensures prices[i] == prices[i + 1] {
        assert diffs[start..][i - start] == 0.0;
      }
    }
    if forall i :: start <= i < |prices| - 1 ==> prices[i] == prices[i + 1] {
      forall k | 0 <= k < |diffs| - start ensures diffs[start..][k] == 0.0 {
        assert prices[start + k] == prices[start + k + 1];
      }
    }
  }

  /** `compute_ma`: None while fewer than `period` prices exist, otherwise the mean of
      the last `period` prices (of all prices when `period` is 0, as `prices[-0:]` is). */
  function ComputeMa(prices: seq<real>, period: nat): (r: Option<real>)
    requires period > 0 || |prices| > 0
    ensures r.None? <==> |prices| < period
  {
    if |prices| < period then None else Some(Mean(Tail(prices, period)))
  }

  lemma {:induction false} SumBounds(s: seq<real>, lo: real, hi: real)
    requires forall k :: 0 <= k < |s| ==> lo <= s[k] <= hi
    ensures |s| as real * lo <= Sum(s) <= |s| as real * hi
  {
    if s != [] {
      SumBounds(s[..|s| - 1], lo, hi);
    }
  }

  /** A mean lies between any lower and upper bound of its elements. */
  lemma MeanBounds(s: seq<real>, lo: real, hi: real)
    requires |s| > 0
    requires forall k :: 0 <= k < |s| ==> lo <= s[k] <= hi
    ensures lo <= Mean(s) <= hi
  {
    SumBounds(s, lo, hi);
    var n := |s| as real;
    assert Mean(s) * n == Sum(s);
  }

  lemma {:induction false} SumOfNonNegative(s: seq<real>)
    requires forall k :: 0 <= k < |s| ==> s[k] >= 0.0
    ensures Sum(s) >= 0.0
    ensures Sum(s) == 0.0 <==> forall k :: 0 <= k < |s| ==> s[k] == 0.0
  {
    if s != [] {
      SumOfNonNegative(s[..|s| - 1]);
      assert forall k :: 0 <= k < |s| - 1 ==> s[..|s| - 1][k] == s[k];
    }
  }

  /** The mean of non-negative values is non-negative, and zero exactly when all are. */
  lemma MeanOfNonNegative(s: seq<real>)
    requires |s| > 0
    requires forall k :: 0 <= k < |s| ==> s[k] >= 0.0
    ensures Mean(s) >= 0.0
    ensures Mean(s) == 0.0 <==> forall k :: 0 <= k < |s| ==> s[k] == 0.0
  {
    SumOfNonNegative(s);
  }

  /** The moving average lies within the range of the prices it averages; over a flat
      window it equals that price. */
  lemma MaWithinWindow(prices: seq<real>, period: nat, lo: real, hi: real)
    requires period > 0 && |prices| >= period
    requires forall i :: |prices| - period <= i < |prices| ==> lo <= prices[i] <= hi
    ensures ComputeMa(prices, period).Some?
    ensures lo <= ComputeMa(prices, period).value <= hi
  {
    var t := Tail(prices, period);
    forall k | 0 <= k < |t| ensures lo <= t[k] <= hi {
      assert t[k] == prices[|prices| - period + k];
    }
    MeanBounds(t, lo, hi);
  }
}

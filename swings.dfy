/**
 * Swing-point extraction (main.py:75-87): a price is a swing high (low) when it equals
 * the maximum (minimum) of its neighbourhood of half-width L.
 */
module SwingPoints {
  const SwingLength: nat := 10
  const LtfWindow: nat := 120

  /** `{'index': i, 'value': prices[i]}`; the index is relative to the scanned window. */
  datatype SwingPoint = SwingPoint(index: int, value: real)

  /** Python's `max(s)`: the largest element of a non-empty sequence. */
  function SeqMax(s: seq<real>): (m: real)
    requires |s| > 0
    ensures m in s
    ensures forall k :: 0 <= k < |s| ==> s[k] <= m
  {
    if |s| == 1 then s[0]
    else
      var m' := SeqMax(s[..|s| - 1]);
      if s[|s| - 1] > m' then s[|s| - 1] else m'
  }

  /** Python's `min(s)`: the smallest element of a non-empty sequence. */
  function SeqMin(s: seq<real>): (m: real)
    requires |s| > 0
    ensures m in s
    ensures forall k :: 0 <= k < |s| ==> m <= s[k]
  {
    if |s| == 1 then s[0]
    else
      var m' := SeqMin(s[..|s| - 1]);
      if s[|s| - 1] < m' then s[|s| - 1] else m'
  }

  /** The closed neighbourhood `prices[i-L : i+L+1]` that the scan compares against. */
  function Segment(prices: seq<real>, i: int, L: nat): seq<real>
    requires L <= i < |prices| - L
  {
    prices[i - L..i + L + 1]
  }

  /** The test of main.py:83: the price equals the maximum of its segment. */
  predicate IsSwingHigh(prices: seq<real>, i: int, L: nat)
  {
    L <= i < |prices| - L && prices[i] == SeqMax(Segment(prices, i, L))
  }

  /** The test of main.py:85: the price equals the minimum of its segment. */
  predicate IsSwingLow(prices: seq<real>, i: int, L: nat)
  {
    L <= i < |prices| - L && prices[i] == SeqMin(Segment(prices, i, L))
  }

  predicate IncreasingIndices(s: seq<SwingPoint>)
  {
    forall a, b :: 0 <= a < b < |s| ==> s[a].index < s[b].index
  }

  /** The test of main.py:83 when `highs`, that of main.py:85 otherwise. */
  predicate IsSwing(prices: seq<real>, i: int, L: nat, highs: bool)
  {
    if highs then IsSwingHigh(prices, i, L) else IsSwingLow(prices, i, L)
  }

  /** `list` holds exactly the swing points of one kind with index below `hi`, each at
      its own price, in strictly increasing index order. */
  ghost predicate Collected(prices: seq<real>, L: nat, hi: int, list: seq<SwingPoint>, highs: bool)
  {
    && (forall p :: p in list <==> IsSwing(prices, p.index, L, highs) && p.index < hi && p.value == prices[p.index])
    && IncreasingIndices(list)
    && (forall k :: 0 <= k < |list| ==> list[k].index < hi)
  }

  /** One iteration of the scan keeps `Collected`. */
  lemma CollectStep(prices: seq<real>, L: nat, i: int, list: seq<SwingPoint>, highs: bool)
    requires L <= i < |prices| - L
    requires Collected(prices, L, i, list, highs)
    ensures Collected(prices, L, i + 1,
      if IsSwing(prices, i, L, highs) then list + [SwingPoint(i, prices[i])] else list, highs)
  {
    var found := IsSwing(prices, i, L, highs);
    var list' := if found then list + [SwingPoint(i, prices[i])] else list;
    forall p ensures p in list' <==> IsSwing(prices, p.index, L, highs) && p.index < i + 1 && p.value == prices[p.index] {
      if p in list' && p !in list {
        assert p == SwingPoint(i, prices[i]);
      }
      if IsSwing(prices, p.index, L, highs) && p.index < i + 1 && p.value == prices[p.index] && p.index == i {
        assert p == SwingPoint(i, prices[i]);
        assert found;
      }
    }
    assert forall k :: 0 <= k < |list'| ==> list'[k].index < i + 1;
  }

  /** The loop of main.py:81-86 over the indices L .. hi-1, in order. */
  function Scan(prices: seq<real>, L: nat, hi: int): (r: (seq<SwingPoint>, seq<SwingPoint>))
    requires L <= hi <= |prices| - L
    decreases hi - L
      ensures Collected(prices, L, hi, r.0, true) && Collected(prices, L, hi, r.1, false)
  {
    if hi == L then ([], [])
    else
      var (highs, lows) := Scan(prices, L, hi - 1);
      var i := hi - 1;
      var segment := Segment(prices, i, L);
      CollectStep(prices, L, i, highs, true);
      CollectStep(prices, L, i, lows, false);
      (if prices[i] == SeqMax(segment) then highs + [SwingPoint(i, prices[i])] else highs,
       if prices[i] == SeqMin(segment) then lows + [SwingPoint(i, prices[i])] else lows)
  }

  /** `find_swing_points`: both lists are empty when there are fewer than 2L+1 prices;
      otherwise they hold exactly the swing highs and swing lows, each at its own price,
      in strictly increasing index order. */
  function FindSwingPoints(prices: seq<real>, L: nat): (r: (seq<SwingPoint>, seq<SwingPoint>))
    ensures |prices| < 2 * L + 1 ==> r == ([], [])
    ensures forall p :: p in r.0 <==> IsSwingHigh(prices, p.index, L) && p.value == prices[p.index]
    ensures forall p :: p in r.1 <==> IsSwingLow(prices, p.index, L) && p.value == prices[p.index]
    ensures IncreasingIndices(r.0) && IncreasingIndices(r.1)
  {
    if |prices| < L * 2 + 1 then ([], []) else Scan(prices, L, |prices| - L)
  }

  /** A swing high dominates its whole neighbourhood, and a price that dominates its
      neighbourhood is a swing high (the equality test of the source is this bound). */
  lemma {:induction false} SwingHighIsNeighbourhoodMax(prices: seq<real>, i: int, L: nat)
    requires L <= i < |prices| - L
    ensures IsSwingHigh(prices, i, L) <==> forall k :: i - L <= k <= i + L ==> prices[k] <= prices[i]
  {
    var segment := Segment(prices, i, L);
    assert prices[i] == segment[L];
    assert forall k :: i - L <= k <= i + L ==> prices[k] == segment[k - (i - L)];
    if forall k :: i - L <= k <= i + L ==> prices[k] <= prices[i] {
      var m := SeqMax(segment);
      var j :| 0 <= j < |segment| && segment[j] == m;
      assert segment[j] == prices[j + (i - L)];
    }
  }

  /** A swing low lies at or below its whole neighbourhood, and conversely. */
  lemma {:induction false} SwingLowIsNeighbourhoodMin(prices: seq<real>, i: int, L: nat)
    requires L <= i < |prices| - L
    ensures IsSwingLow(prices, i, L) <==> forall k :: i - L <= k <= i + L ==> prices[i] <= prices[k]
  {
    var segment := Segment(prices, i, L);
    assert prices[i] == segment[L];
    assert forall k :: i - L <= k <= i + L ==> prices[k] == segment[k - (i - L)];
    if forall k :: i - L <= k <= i + L ==> prices[i] <= prices[k] {
      var m := SeqMin(segment);
      var j :| 0 <= j < |segment| && segment[j] == m;
      assert segment[j] == prices[j + (i - L)];
    }
  }

  /** Every reported high lies in [L, N-L) and is at least every price within L of it;
      every reported low lies in [L, N-L) and is at most every such price. */
  lemma ReportedSwingsDominate(prices: seq<real>, L: nat)
    ensures forall p :: p in FindSwingPoints(prices, L).0 ==>
      L <= p.index < |prices| - L && forall k :: p.index - L <= k <= p.index + L ==> prices[k] <= p.value
    ensures forall p :: p in FindSwingPoints(prices, L).1 ==>
      L <= p.index < |prices| - L && forall k :: p.index - L <= k <= p.index + L ==> p.value <= prices[k]
  {
    var (highs, lows) := FindSwingPoints(prices, L);
    forall p | p in highs
      ensures L <= p.index < |prices| - L && forall k :: p.index - L <= k <= p.index + L ==> prices[k] <= p.value
    {
      SwingHighIsNeighbourhoodMax(prices, p.index, L);
    }
    forall p | p in lows
      ensures L <= p.index < |prices| - L && forall k :: p.index - L <= k <= p.index + L ==> p.value <= prices[k]
    {
      SwingLowIsNeighbourhoodMin(prices, p.index, L);
    }
  }

  /** On a flat neighbourhood the same index is reported both as a high and as a low. */
  lemma FlatNeighbourhoodIsBoth(prices: seq<real>, i: int, L: nat)
    requires L <= i < |prices| - L
    requires forall k :: i - L <= k <= i + L ==> prices[k] == prices[i]
    ensures SwingPoint(i, prices[i]) in FindSwingPoints(prices, L).0
    ensures SwingPoint(i, prices[i]) in FindSwingPoints(prices, L).1
  {
    SwingHighIsNeighbourhoodMax(prices, i, L);
    SwingLowIsNeighbourhoodMin(prices, i, L);
  }
}

// The fallback depth search of CompletenessQa.limitingMag: histogram the
// matched and the undetected star magnitudes, keep the bins that hold
// anything, form the detected fraction per kept bin, and scan from the faint
// end for the place where that fraction falls to one half.
module LimitingMagnitude {
  import opened Options
  import opened Binning

  /** A histogram bin kept by the nonzero mask: its index and its two counts. */
  datatype Bin = Bin(index: nat, detected: nat, undetected: nat)

  predicate Occupied(b: Bin) {
    b.detected + b.undetected > 0
  }

  /**
   * The bins from index k on whose combined count is nonzero, in bin order;
   * each carries its own two counts, so none of them is empty.
   */
  function RetainFrom(hd: seq<nat>, hu: seq<nat>, k: nat): seq<Bin>
    requires |hd| == |hu| && k <= |hd|
    decreases |hd| - k
  {
    if k == |hd| then []
    else
      var rest := RetainFrom(hd, hu, k + 1);
      if hd[k] + hu[k] != 0 then [Bin(k, hd[k], hu[k])] + rest else rest
  }

  /** Every bin kept from index k on is an occupied bin at or above k, with its own counts. */
  lemma {:induction false} RetainFromBins(hd: seq<nat>, hu: seq<nat>, k: nat)
    requires |hd| == |hu| && k <= |hd|
    ensures forall i :: 0 <= i < |RetainFrom(hd, hu, k)| ==>
      && k <= RetainFrom(hd, hu, k)[i].index < |hd|
      && RetainFrom(hd, hu, k)[i].detected == hd[RetainFrom(hd, hu, k)[i].index]
      && RetainFrom(hd, hu, k)[i].undetected == hu[RetainFrom(hd, hu, k)[i].index]
      && Occupied(RetainFrom(hd, hu, k)[i])
    decreases |hd| - k
  {
    if k < |hd| {
      RetainFromBins(hd, hu, k + 1);
    }
  }

  /** The bins kept from index k on are in strictly increasing bin order. */
  lemma {:induction false} RetainFromSorted(hd: seq<nat>, hu: seq<nat>, k: nat, i: int, j: int)
    requires |hd| == |hu| && k <= |hd|
    requires 0 <= i < j < |RetainFrom(hd, hu, k)|
    ensures RetainFrom(hd, hu, k)[i].index < RetainFrom(hd, hu, k)[j].index
    decreases |hd| - k
  {
    if hd[k] + hu[k] == 0 {
      RetainFromSorted(hd, hu, k + 1, i, j);
    } else if i > 0 {
      RetainFromSorted(hd, hu, k + 1, i - 1, j - 1);
    } else {
      RetainFromBins(hd, hu, k + 1);
    }
  }

  /** Every nonzero bin from index k on is kept. */
  lemma {:induction false} RetainFromComplete(hd: seq<nat>, hu: seq<nat>, k: nat, j: nat)
    requires |hd| == |hu| && k <= j < |hd|
    requires hd[j] + hu[j] != 0
    ensures exists i :: 0 <= i < |RetainFrom(hd, hu, k)| && RetainFrom(hd, hu, k)[i].index == j
    decreases |hd| - k
  {
    var bins, rest := RetainFrom(hd, hu, k), RetainFrom(hd, hu, k + 1);
    if j == k {
      assert bins[0].index == j;
    } else {
      RetainFromComplete(hd, hu, k + 1, j);
      var i :| 0 <= i < |rest| && rest[i].index == j;
      if hd[k] + hu[k] != 0 {
        assert bins[i + 1] == rest[i];
      }
    }
  }

  function Retained(hd: seq<nat>, hu: seq<nat>): seq<Bin>
    requires |hd| == |hu|
  {
    RetainFrom(hd, hu, 0)
  }

  /** Centre of bin k: the mean of its two edges. */
  function Center(k: nat): real {
    (Edge(k) + Edge(k + 1)) / 2.0
  }

  function Centers(bins: seq<Bin>): seq<real> {
    seq(|bins|, i requires 0 <= i < |bins| => Center(bins[i].index))
  }

  /** The detected fraction d/(d+u) of an occupied bin. */
  function Fraction(b: Bin): real
    requires Occupied(b)
  {
    b.detected as real / (b.detected + b.undetected) as real
  }

  function Fractions(bins: seq<Bin>): seq<real>
    requires forall i :: 0 <= i < |bins| ==> Occupied(bins[i])
  {
    seq(|bins|, i requires 0 <= i < |bins| => Fraction(bins[i]))
  }

  /**
   * A detected fraction lies in [0, 1], and comparing it with one half is
   * comparing the two counts.
   */
  lemma FractionBounds(b: Bin)
    requires Occupied(b)
    ensures 0.0 <= Fraction(b) <= 1.0
    ensures Fraction(b) <= 0.5 <==> b.detected <= b.undetected
  {
    var d, n := b.detected as real, (b.detected + b.undetected) as real;
    QuotientAtMost(d, n, 0.5);
    QuotientAtMost(d, n, 1.0);
    assert 0.0 <= d / n;
  }

  lemma QuotientAtMost(a: real, b: real, c: real)
    requires 0.0 < b
    ensures a / b <= c <==> a <= c * b
  {
    assert a / b * b == a;
    if a / b <= c {
      assert (c - a / b) * b >= 0.0;
    } else {
      assert (a / b - c) * b > 0.0;
    }
  }

  /** The fraction falls from above one half at i - 1 to at most one half at i. */
  predicate IsCrossing(y: seq<real>, i: int) {
    1 <= i < |y| && y[i - 1] > 0.5 && y[i] <= 0.5
  }

  /** Linear interpolation of the one-half crossing between x[i - 1] and x[i]. */
  function Interpolate(x: seq<real>, y: seq<real>, i: int): real
    requires |x| == |y| && IsCrossing(y, i)
  {
    (0.5 - y[i - 1]) / (y[i] - y[i - 1]) * (x[i] - x[i - 1]) + x[i - 1]
  }

  /** The interpolated crossing lies in (x[i - 1], x[i]]. */
  lemma InterpolationBetween(x: seq<real>, y: seq<real>, i: int)
    requires |x| == |y| && IsCrossing(y, i)
    requires x[i - 1] < x[i]
    ensures x[i - 1] < Interpolate(x, y, i) <= x[i]
  {
    var a, b := y[i - 1] - 0.5, y[i - 1] - y[i];
    assert 0.0 < a <= b;
    var t := (0.5 - y[i - 1]) / (y[i] - y[i - 1]);
    assert t == a / b;
    assert t * b == a;
    assert 0.0 < t <= 1.0;
    var w := x[i] - x[i - 1];
    assert 0.0 < t * w <= w;
  }

  /**
   * The crossing the scan finds among indices 2..hi, trying the faintest
   * first: the largest such index, or None when there is none.
   */
  function FaintestCrossing(y: seq<real>, hi: int): (r: Option<nat>)
    requires hi < |y|
    ensures r.Some? ==> 2 <= r.value <= hi && IsCrossing(y, r.value)
    decreases hi
  {
    if hi < 2 then None
    else if IsCrossing(y, hi) then Some(hi)
    else FaintestCrossing(y, hi - 1)
  }

  /**
   * No index above the crossing found, up to hi, is a crossing; when none is
   * found, no index from 2 to hi is one.
   */
  lemma {:induction false} FaintestCrossingIsFaintest(y: seq<real>, hi: int)
    requires hi < |y|
    ensures var r := FaintestCrossing(y, hi);
      && (r.Some? ==> forall j :: r.value < j <= hi ==> !IsCrossing(y, j))
      && (r.None? ==> forall j :: 2 <= j <= hi ==> !IsCrossing(y, j))
    decreases hi
  {
    if hi >= 2 && !IsCrossing(y, hi) {
      FaintestCrossingIsFaintest(y, hi - 1);
    }
  }

  /** The interpolated faintest crossing, or the sentinel 0.0 when there is none. */
  function CrossingDepth(x: seq<real>, y: seq<real>): real
    requires |x| == |y|
  {
    match FaintestCrossing(y, |y| - 1)
    case None => 0.0
    case Some(i) => Interpolate(x, y, i)
  }

  /** The depth limitingMag reports for the given star magnitude lists. */
  function Depth(matched: seq<real>, unmatched: seq<real>): real {
    var hd, hu := Histogram(matched), Histogram(unmatched);
    RetainFromBins(hd, hu, 0);
    var bins := Retained(hd, hu);
    CrossingDepth(Centers(bins), Fractions(bins))
  }

  /** The backward scan of limitingMag, which returns at the first crossing it meets. */
  method FindCrossing(x: seq<real>, y: seq<real>) returns (r: real)
    requires |x| == |y|
    ensures r == CrossingDepth(x, y)
  {
    var i := |y| - 1;
    while i > 1
      invariant i < |y|
      invariant FaintestCrossing(y, |y| - 1) == FaintestCrossing(y, i)
    {
      if y[i] <= 0.5 && y[i - 1] > 0.5 {
        return (0.5 - y[i - 1]) / (y[i] - y[i - 1]) * (x[i] - x[i - 1]) + x[i - 1];
      }
      i := i - 1;
    }
    return 0.0;
  }

  /** Bins kept from a histogram have strictly increasing centres. */
  lemma CentersIncrease(hd: seq<nat>, hu: seq<nat>, i: int, j: int)
    requires |hd| == |hu|
    requires 0 <= i < j < |Retained(hd, hu)|
    ensures Centers(Retained(hd, hu))[i] < Centers(Retained(hd, hu))[j]
  {
    RetainFromSorted(hd, hu, 0, i, j);
  }

  /** Centres start at 14.25, so no centre is the sentinel 0.0. */
  lemma CenterAtLeastFirst(k: nat)
    ensures 14.25 <= Center(k)
  {
  }

  /**
   * On kept bins, a crossing is a bin with more detected than undetected
   * stars followed by one with no more detected than undetected stars.
   */
  lemma CrossingIffCounts(bins: seq<Bin>, i: int)
    requires forall k :: 0 <= k < |bins| ==> Occupied(bins[k])
    ensures IsCrossing(Fractions(bins), i) <==>
      && 1 <= i < |bins|
      && bins[i - 1].detected > bins[i - 1].undetected
      && bins[i].detected <= bins[i].undetected
  {
    if 1 <= i < |bins| {
      FractionBounds(bins[i - 1]);
      FractionBounds(bins[i]);
    }
  }

  /**
   * The reported depth is the interpolated faintest crossing at index 2 or
   * above, which lies between the two kept bin centres around it; it is the
   * sentinel 0.0 exactly when there is no such crossing.
   */
  lemma DepthIsFaintestCrossing(matched: seq<real>, unmatched: seq<real>)
    ensures var hd, hu := Histogram(matched), Histogram(unmatched);
      (RetainFromBins(hd, hu, 0);
       var bins := Retained(hd, hu);
       var x, y, r := Centers(bins), Fractions(bins), Depth(matched, unmatched);
       && (r == 0.0 <==> forall i :: 2 <= i < |y| ==> !IsCrossing(y, i))
       && (r != 0.0 ==> exists i ::
             && 2 <= i < |y|
             && IsCrossing(y, i)
             && (forall j :: i < j < |y| ==> !IsCrossing(y, j))
             && r == Interpolate(x, y, i)
             && x[i - 1] < r <= x[i]))
  {
    var hd, hu := Histogram(matched), Histogram(unmatched);
    RetainFromBins(hd, hu, 0);
    var bins := Retained(hd, hu);
    var x, y := Centers(bins), Fractions(bins);
    FaintestCrossingIsFaintest(y, |y| - 1);
    match FaintestCrossing(y, |y| - 1)
    case None =>
    case Some(i) =>
      CentersIncrease(hd, hu, i - 1, i);
      InterpolationBetween(x, y, i);
      CenterAtLeastFirst(bins[i - 1].index);
  }

  /** With fewer than three kept bins the scan examines nothing and reports 0.0. */
  lemma FewKeptBinsGiveSentinel(matched: seq<real>, unmatched: seq<real>)
    requires |Retained(Histogram(matched), Histogram(unmatched))| < 3
    ensures Depth(matched, unmatched) == 0.0
  {
  }

  /** Zero bins from k up to j are skipped by the mask. */
  lemma {:induction false} RetainFromSkip(hd: seq<nat>, hu: seq<nat>, k: nat, j: nat)
    requires |hd| == |hu| && k <= j <= |hd|
    requires forall m :: k <= m < j ==> hd[m] + hu[m] == 0
    ensures RetainFrom(hd, hu, k) == RetainFrom(hd, hu, j)
    decreases j - k
  {
    if k < j {
      RetainFromSkip(hd, hu, k + 1, j);
    }
  }

  /** Two empty star lists give the sentinel 0.0. */
  lemma EmptyInputsGiveSentinel()
    ensures Depth([], []) == 0.0
  {
    var h := Histogram([]);
    assert forall k :: 0 <= k < NumBins ==> h[k] == 0;
    RetainFromSkip(h, h, 0, NumBins);
    FewKeptBinsGiveSentinel([], []);
  }

  /** The two histograms of the example below. */
  lemma FirstPairHistograms()
    ensures Histogram([20.0, 20.0, 20.0, 21.0, 21.0])
         == seq(NumBins, k => if k == 12 then 3 else if k == 14 then 2 else 0)
    ensures Histogram([21.0, 21.0, 21.0, 22.0, 22.0])
         == seq(NumBins, k => if k == 14 then 3 else if k == 16 then 2 else 0)
  {
    assert [20.0, 20.0, 20.0, 21.0, 21.0] == [20.0, 20.0, 20.0] + [21.0, 21.0];
    assert [21.0, 21.0, 21.0, 22.0, 22.0] == [21.0, 21.0, 21.0] + [22.0, 22.0];
    forall k | 0 <= k < NumBins
      ensures Count([20.0, 20.0, 20.0, 21.0, 21.0], k) == if k == 12 then 3 else if k == 14 then 2 else 0
      ensures Count([21.0, 21.0, 21.0, 22.0, 22.0], k) == if k == 14 then 3 else if k == 16 then 2 else 0
    {
      CountAppend([20.0, 20.0, 20.0], [21.0, 21.0], k);
      CountUniform([20.0, 20.0, 20.0], 12, k);
      CountUniform([21.0, 21.0], 14, k);
      CountAppend([21.0, 21.0, 21.0], [22.0, 22.0], k);
      CountUniform([21.0, 21.0, 21.0], 14, k);
      CountUniform([22.0, 22.0], 16, k);
    }
  }

  /** The bins the mask keeps from the histograms of the example below. */
  lemma FirstPairKept(hd: seq<nat>, hu: seq<nat>)
    requires hd == seq(NumBins, k => if k == 12 then 3 else if k == 14 then 2 else 0)
    requires hu == seq(NumBins, k => if k == 14 then 3 else if k == 16 then 2 else 0)
    ensures Retained(hd, hu) == [Bin(12, 3, 0), Bin(14, 2, 3), Bin(16, 0, 2)]
  {
    assert RetainFrom(hd, hu, 17) == [] by {
      RetainFromSkip(hd, hu, 17, NumBins);
    }
    assert RetainFrom(hd, hu, 15) == [Bin(16, 0, 2)] by {
      RetainFromSkip(hd, hu, 15, 16);
    }
    assert RetainFrom(hd, hu, 13) == [Bin(14, 2, 3), Bin(16, 0, 2)] by {
      RetainFromSkip(hd, hu, 13, 14);
    }
    assert RetainFrom(hd, hu, 0) == [Bin(12, 3, 0), Bin(14, 2, 3), Bin(16, 0, 2)] by {
      RetainFromSkip(hd, hu, 0, 12);
    }
  }

  /**
   * Three matched stars at 20 mag and two at 21 against three undetected at
   * 21 and two at 22: the kept fractions are 1, 0.4 and 0, so the fraction
   * falls below one half between the first two kept bins. The scan never
   * looks at that pair and the depth is the sentinel 0.0.
   */
  lemma FirstPairNeverScanned()
    ensures var hd, hu := Histogram([20.0, 20.0, 20.0, 21.0, 21.0]), Histogram([21.0, 21.0, 21.0, 22.0, 22.0]);
      (RetainFromBins(hd, hu, 0);
       var bins := Retained(hd, hu);
       && Fractions(bins) == [1.0, 0.4, 0.0]
       && IsCrossing(Fractions(bins), 1)
       && Depth([20.0, 20.0, 20.0, 21.0, 21.0], [21.0, 21.0, 21.0, 22.0, 22.0]) == 0.0)
  {
    FirstPairHistograms();
    FirstPairKept(Histogram([20.0, 20.0, 20.0, 21.0, 21.0]), Histogram([21.0, 21.0, 21.0, 22.0, 22.0]));
    var bins := [Bin(12, 3, 0), Bin(14, 2, 3), Bin(16, 0, 2)];
    assert Fractions(bins) == [1.0, 0.4, 0.0];
  }

  /** The two histograms of the example below. */
  lemma CrossingHistograms()
    ensures Histogram([14.0, 20.0, 20.0, 20.0, 21.0])
         == seq(NumBins, k => if k == 0 then 1 else if k == 12 then 3 else if k == 14 then 1 else 0)
    ensures Histogram([21.0, 21.0, 21.0, 22.0])
         == seq(NumBins, k => if k == 14 then 3 else if k == 16 then 1 else 0)
  {
    assert [14.0, 20.0, 20.0, 20.0, 21.0] == [14.0] + ([20.0, 20.0, 20.0] + [21.0]);
    assert [21.0, 21.0, 21.0, 22.0] == [21.0, 21.0, 21.0] + [22.0];
    forall k | 0 <= k < NumBins
      ensures Count([14.0, 20.0, 20.0, 20.0, 21.0], k)
           == if k == 0 then 1 else if k == 12 then 3 else if k == 14 then 1 else 0
      ensures Count([21.0, 21.0, 21.0, 22.0], k) == if k == 14 then 3 else if k == 16 then 1 else 0
    {
      CountAppend([14.0], [20.0, 20.0, 20.0] + [21.0], k);
      CountAppend([20.0, 20.0, 20.0], [21.0], k);
      CountUniform([14.0], 0, k);
      CountUniform([20.0, 20.0, 20.0], 12, k);
      CountUniform([21.0], 14, k);
      CountAppend([21.0, 21.0, 21.0], [22.0], k);
      CountUniform([21.0, 21.0, 21.0], 14, k);
      CountUniform([22.0], 16, k);
    }
  }

  /** The bins the mask keeps from the histograms of the example below. */
  lemma CrossingKept(hd: seq<nat>, hu: seq<nat>)
    requires hd == seq(NumBins, k => if k == 0 then 1 else if k == 12 then 3 else if k == 14 then 1 else 0)
    requires hu == seq(NumBins, k => if k == 14 then 3 else if k == 16 then 1 else 0)
    ensures Retained(hd, hu) == [Bin(0, 1, 0), Bin(12, 3, 0), Bin(14, 1, 3), Bin(16, 0, 1)]
  {
    assert RetainFrom(hd, hu, 17) == [] by {
      RetainFromSkip(hd, hu, 17, NumBins);
    }
    assert RetainFrom(hd, hu, 15) == [Bin(16, 0, 1)] by {
      RetainFromSkip(hd, hu, 15, 16);
    }
    assert RetainFrom(hd, hu, 13) == [Bin(14, 1, 3), Bin(16, 0, 1)] by {
      RetainFromSkip(hd, hu, 13, 14);
    }
    assert RetainFrom(hd, hu, 1) == [Bin(12, 3, 0), Bin(14, 1, 3), Bin(16, 0, 1)] by {
      RetainFromSkip(hd, hu, 1, 12);
    }
  }

  /**
   * One matched star at 14 mag, three at 20 and one at 21 against three
   * undetected at 21 and one at 22: the kept fractions are 1, 1, 0.25 and 0,
   * the faintest crossing is between the bins centred on 20.25 and 21.25,
   * and the depth is 20.25 + 0.5/0.75 = 251/12.
   */
  lemma CrossingInterpolated()
    ensures Depth([14.0, 20.0, 20.0, 20.0, 21.0], [21.0, 21.0, 21.0, 22.0]) == 251.0 / 12.0
  {
    CrossingHistograms();
    CrossingKept(Histogram([14.0, 20.0, 20.0, 20.0, 21.0]), Histogram([21.0, 21.0, 21.0, 22.0]));
    var bins := [Bin(0, 1, 0), Bin(12, 3, 0), Bin(14, 1, 3), Bin(16, 0, 1)];
    var x, y := Centers(bins), Fractions(bins);
    assert x == [14.25, 20.25, 21.25, 22.25];
    assert y == [1.0, 1.0, 0.25, 0.0];
    assert FaintestCrossing(y, 3) == Some(2);
  }
}

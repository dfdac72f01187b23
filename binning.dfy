// Magnitude binning of the completeness analysis: the histogram that
// CompletenessQa builds over its fixed bin edges 14.0, 14.5, ..., 26.5.
module Binning {
  import opened Options

  const NumBins: nat := 25
  const LowEdge: real := 14.0
  const HighEdge: real := 26.5
  const BinWidth: real := 0.5

  /** Lower edge of bin k; Edge(NumBins) is the upper edge of the last bin. */
  function Edge(k: nat): real {
    LowEdge + BinWidth * k as real
  }

  /**
   * Histogram membership: every bin is half-open on the right, except the
   * last one, which also holds its upper edge.
   */
  predicate InBin(m: real, k: nat) {
    && k < NumBins
    && Edge(k) <= m
    && (m < Edge(k + 1) || (k == NumBins - 1 && m == Edge(NumBins)))
  }

  /** The bin a magnitude falls in, found arithmetically; None outside the edges. */
  function BinIndex(m: real): (r: Option<nat>)
    ensures r.Some? <==> 14.0 <= m <= 26.5
    ensures forall k: nat :: InBin(m, k) <==> r == Some(k)
  {
    if m < LowEdge || HighEdge < m then None
    else
      var k := ((m - LowEdge) / BinWidth).Floor;
      if k < NumBins then Some(k) else Some(NumBins - 1)
  }

  /** How many magnitudes of ms fall in bin k. */
  function Count(ms: seq<real>, k: nat): nat {
    if ms == [] then 0
    else Count(ms[..|ms| - 1], k) + (if InBin(ms[|ms| - 1], k) then 1 else 0)
  }

  /** The counts of the 25 bins, in bin order. */
  function Histogram(ms: seq<real>): (h: seq<nat>)
    ensures |h| == NumBins
  {
    seq(NumBins, k requires 0 <= k => Count(ms, k))
  }

  /** The magnitudes of ms that lie within the outer edges, in order. */
  function InRange(ms: seq<real>): seq<real> {
    if ms == [] then []
    else
      var m := ms[|ms| - 1];
      InRange(ms[..|ms| - 1]) + (if LowEdge <= m <= HighEdge then [m] else [])
  }

  function Sum(h: seq<nat>): nat {
    if h == [] then 0 else h[0] + Sum(h[1..])
  }

  lemma {:induction false} SumBump(h: seq<nat>, b: nat)
    requires b < |h|
    ensures Sum(h[b := h[b] + 1]) == Sum(h) + 1
  {
    if b > 0 {
      SumBump(h[1..], b - 1);
      assert h[b := h[b] + 1][1..] == h[1..][b - 1 := h[b] + 1];
    }
  }

  lemma {:induction false} SumOfZeros(h: seq<nat>)
    requires forall k :: 0 <= k < |h| ==> h[k] == 0
    ensures Sum(h) == 0
  {
    if h != [] {
      SumOfZeros(h[1..]);
    }
  }

  /**
   * Every magnitude inside [14.0, 26.5] is counted in exactly one bin and
   * every magnitude outside is counted in none.
   */
  lemma {:induction false} HistogramTotal(ms: seq<real>)
    ensures Sum(Histogram(ms)) == |InRange(ms)|
  {
    if ms == [] {
      SumOfZeros(Histogram(ms));
    } else {
      var init, m := ms[..|ms| - 1], ms[|ms| - 1];
      HistogramTotal(init);
      var before, after := Histogram(init), Histogram(ms);
      match BinIndex(m)
      case None =>
        assert after == before;
      case Some(b) =>
        assert after == before[b := before[b] + 1];
        SumBump(before, b);
    }
  }

  lemma {:induction false} CountAppend(a: seq<real>, b: seq<real>, k: nat)
    ensures Count(a + b, k) == Count(a, k) + Count(b, k)
    decreases |b|
  {
    if b != [] {
      var b' := b[..|b| - 1];
      assert (a + b)[..|a + b| - 1] == a + b';
      CountAppend(a, b', k);
    } else {
      assert a + b == a;
    }
  }

  /** Magnitudes that all share bin b are counted in b and nowhere else. */
  lemma {:induction false} CountUniform(ms: seq<real>, b: nat, k: nat)
    requires forall i :: 0 <= i < |ms| ==> BinIndex(ms[i]) == Some(b)
    ensures Count(ms, k) == if k == b then |ms| else 0
  {
    if ms != [] {
      CountUniform(ms[..|ms| - 1], b, k);
    }
  }
}

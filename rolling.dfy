/**
 * `series.rolling(window=5, min_periods=0).mean()`: at each position the
 * mean of the last five values up to and including it, or of all values so
 * far while there are fewer than five.
 */
module Rolling {

  /** The `window=5` argument. */
  const Window: nat := 5

  function Sum(v: seq<real>): real {
    if v == [] then 0.0 else Sum(v[..|v| - 1]) + v[|v| - 1]
  }

  /** First position of the window that ends at `i`; `min_periods=0` lets a short window start at 0. */
  function WindowStart(i: nat): nat {
    if i + 1 < Window then 0 else i + 1 - Window
  }

  /** The values the mean at position `i` is taken over. */
  function WindowAt(v: seq<real>, i: nat): (w: seq<real>)
    requires i < |v|
    ensures 1 <= |w| <= Window
    ensures |w| == if i < Window then i + 1 else Window
    ensures w[|w| - 1] == v[i]
    ensures forall k :: 0 <= k < |w| ==> w[k] == v[i + 1 - |w| + k]
  {
    v[WindowStart(i)..i + 1]
  }

  function Mean(w: seq<real>): real
    requires w != []
  {
    Sum(w) / (|w| as real)
  }

  /** The rolling mean of a column, one value per position. */
  function RollingMean(v: seq<real>): (r: seq<real>)
    ensures |r| == |v|
  {
    seq(|v|, i requires 0 <= i < |v| => Mean(WindowAt(v, i)))
  }

  function MinOf(w: seq<real>): (m: real)
    requires w != []
    ensures exists k :: 0 <= k < |w| && w[k] == m
    ensures forall k :: 0 <= k < |w| ==> m <= w[k]
  {
    if |w| == 1 then w[0]
    else
      var n := |w| - 1;
      var m := MinOf(w[..n]);
      assert forall k :: 0 <= k < n ==> w[..n][k] == w[k];
      if w[n] < m then w[n] else m
  }

  function MaxOf(w: seq<real>): (m: real)
    requires w != []
    ensures exists k :: 0 <= k < |w| && w[k] == m
    ensures forall k :: 0 <= k < |w| ==> w[k] <= m
  {
    if |w| == 1 then w[0]
    else
      var n := |w| - 1;
      var m := MaxOf(w[..n]);
      assert forall k :: 0 <= k < n ==> w[..n][k] == w[k];
      if w[n] > m then w[n] else m
  }

  // ---------------------------------------------------------------------
  // Sums

  lemma {:induction false} SumBetween(w: seq<real>, lo: real, hi: real)
    requires forall k :: 0 <= k < |w| ==> lo <= w[k] <= hi
    ensures (|w| as real) * lo <= Sum(w) <= (|w| as real) * hi
  {
    if w != [] {
      var n := |w| - 1;
      assert forall k :: 0 <= k < n ==> w[..n][k] == w[k];
      SumBetween(w[..n], lo, hi);
      assert (|w| as real) * lo == (n as real) * lo + lo;
      assert (|w| as real) * hi == (n as real) * hi + hi;
    }
  }

  /** Dividing bounds on a sum by the (positive) count bounds the mean. */
  lemma DivBetween(s: real, n: real, lo: real, hi: real)
    requires n > 0.0 && n * lo <= s <= n * hi
    ensures lo <= s / n <= hi
  {
    assert (s / n) * n == s;
  }

  /** Sum with its first value split off. */
  lemma {:induction false} SumFront(w: seq<real>)
    requires w != []
    ensures Sum(w) == w[0] + Sum(w[1..])
  {
    if |w| > 1 {
      var n := |w| - 1;
      SumFront(w[..n]);
      assert w[..n][1..] == w[1..][..|w[1..]| - 1];
    }
  }

  // ---------------------------------------------------------------------
  // What the rolling mean is

  /** The first mean is the first value itself. */
  lemma RollingMeanFirst(v: seq<real>)
    requires |v| > 0
    ensures RollingMean(v)[0] == v[0]
  {
    var w := WindowAt(v, 0);
    assert w == [v[0]] && w[..0] == [];
    assert Sum(w) == v[0];
  }

  /** From the fifth position on, the window holds exactly the last five values. */
  lemma RollingMeanFull(v: seq<real>, i: nat)
    requires Window - 1 <= i < |v|
    ensures RollingMean(v)[i] == (v[i - 4] + v[i - 3] + v[i - 2] + v[i - 1] + v[i]) / 5.0
  {
    var w := WindowAt(v, i);
    assert w == [v[i - 4], v[i - 3], v[i - 2], v[i - 1], v[i]];
    assert w[..4] == [v[i - 4], v[i - 3], v[i - 2], v[i - 1]];
    assert w[..4][..3] == [v[i - 4], v[i - 3], v[i - 2]];
    assert w[..4][..3][..2] == [v[i - 4], v[i - 3]];
    assert w[..4][..3][..2][..1] == [v[i - 4]];
    assert w[..4][..3][..2][..1][..0] == [];
    assert Sum(w[..4][..3][..2][..1]) == v[i - 4];
    assert Sum(w[..4][..3][..2]) == v[i - 4] + v[i - 3];
    assert Sum(w[..4][..3]) == v[i - 4] + v[i - 3] + v[i - 2];
    assert Sum(w[..4]) == v[i - 4] + v[i - 3] + v[i - 2] + v[i - 1];
    assert Sum(w) == v[i - 4] + v[i - 3] + v[i - 2] + v[i - 1] + v[i];
  }

  /** Before the fifth position, the window holds every value so far. */
  lemma RollingMeanPartial(v: seq<real>, i: nat)
    requires i < Window - 1 && i < |v|
    ensures RollingMean(v)[i] == Sum(v[..i + 1]) / ((i + 1) as real)
  {
  }

  /**
   * The running-sum recurrence: the window sum at `i` is the one at `i - 1`
   * plus the value entering, minus the value leaving once the window is full.
   */
  lemma RollingSumStep(v: seq<real>, i: nat)
    requires 0 < i < |v|
    ensures Sum(WindowAt(v, i)) ==
      Sum(WindowAt(v, i - 1)) + v[i] - (if i >= Window then v[i - Window] else 0.0)
  {
    var prev := WindowAt(v, i - 1);
    var cur := WindowAt(v, i);
    assert cur[..|cur| - 1] == v[WindowStart(i)..i];
    if i >= Window {
      SumFront(prev);
      assert prev[1..] == v[WindowStart(i)..i];
    } else {
      assert prev == v[WindowStart(i)..i];
    }
  }

  /** Every mean lies between the smallest and the largest value of its window. */
  lemma RollingMeanWithin(v: seq<real>, i: nat)
    requires i < |v|
    ensures MinOf(WindowAt(v, i)) <= RollingMean(v)[i] <= MaxOf(WindowAt(v, i))
  {
    MeanWithin(WindowAt(v, i));
  }

  lemma MeanWithin(w: seq<real>)
    requires w != []
    ensures MinOf(w) <= Mean(w) <= MaxOf(w)
  {
    var lo, hi := MinOf(w), MaxOf(w);
    SumBetween(w, lo, hi);
    DivBetween(Sum(w), |w| as real, lo, hi);
  }

  /** A constant column has itself as rolling mean. */
  lemma RollingMeanConstant(v: seq<real>, c: real)
    requires forall i :: 0 <= i < |v| ==> v[i] == c
    ensures RollingMean(v) == v
  {
    forall i | 0 <= i < |v| ensures RollingMean(v)[i] == v[i] {
      var w := WindowAt(v, i);
      assert forall k :: 0 <= k < |w| ==> w[k] == c;
      RollingMeanWithin(v, i);
    }
  }

  /** The mean at a position depends only on the values up to it: appending rows never changes earlier means. */
  lemma RollingMeanPrefix(v: seq<real>, tail: seq<real>)
    ensures RollingMean(v + tail)[..|v|] == RollingMean(v)
  {
    forall i | 0 <= i < |v| ensures RollingMean(v + tail)[i] == RollingMean(v)[i] {
      assert WindowAt(v + tail, i) == WindowAt(v, i);
    }
  }
}

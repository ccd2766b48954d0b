/** Weighted random choice, as the proxy and user-agent pools do it. */
module WeightedPick {
  function Sum(weights: seq<int>): int {
    if weights == [] then 0 else Sum(weights[..|weights| - 1]) + weights[|weights| - 1]
  }

  ghost predicate NonNegative(weights: seq<int>) {
    forall i :: 0 <= i < |weights| ==> weights[i] >= 0
  }

  lemma SumPush(weights: seq<int>, k: nat)
    requires k < |weights|
    ensures UpTo(weights, k + 1) == UpTo(weights, k) + weights[k]
  {
    assert weights[..k + 1][..k] == weights[..k];
  }

  lemma {:induction false} SumUpdate(weights: seq<int>, k: nat, w: int)
    requires k < |weights|
    ensures Sum(weights[k := w]) == Sum(weights) - weights[k] + w
  {
    var n := |weights| - 1;
    if k == n {
      assert weights[k := w][..n] == weights[..n];
    } else {
      assert weights[k := w][..n] == weights[..n][k := w];
      SumUpdate(weights[..n], k, w);
    }
  }

  /** The running total before entry k. */
  function UpTo(weights: seq<int>, k: nat): int
    requires k <= |weights|
  {
    Sum(weights[..k])
  }

  /** Draw n selects the first entry at which the running total exceeds n. */
  ghost predicate Selects(weights: seq<int>, n: int, k: nat) {
    && k < |weights|
    && n < UpTo(weights, k + 1)
    && forall j :: 0 < j <= k ==> UpTo(weights, j) <= n
  }

  /** The loop of weightedPick and Pick; fell reports that the fallback return was reached. */
  method Choose(weights: seq<int>, draw: int) returns (k: nat, fell: bool)
    requires weights != []
    ensures k < |weights|
    ensures !fell ==> Selects(weights, draw, k)
    ensures fell ==> k == |weights| - 1 && forall j :: 0 <= j < |weights| ==> !Selects(weights, draw, j)
    ensures draw < Sum(weights) ==> !fell
  {
    var n := draw;
    var i := 0;
    while i < |weights|
      invariant 0 <= i <= |weights|
      invariant n == draw - UpTo(weights, i)
      invariant forall j :: 0 < j <= i ==> UpTo(weights, j) <= draw
    {
      SumPush(weights, i);
      n := n - weights[i];
      if n < 0 {
        return i, false;
      }
      i := i + 1;
    }
    assert weights[..|weights|] == weights;
    return |weights| - 1, true;
  }

  lemma {:induction false} SumMonotone(weights: seq<int>, i: nat, j: nat)
    requires NonNegative(weights) && i <= j <= |weights|
    ensures 0 <= UpTo(weights, i) <= UpTo(weights, j)
    decreases j
  {
    if i < j {
      SumPush(weights, j - 1);
      SumMonotone(weights, i, j - 1);
    } else if j > 0 {
      SumPush(weights, j - 1);
      SumMonotone(weights, j - 1, j - 1);
    }
  }

  /** With non-negative weights entry k owns the draws from its running total up to the next. */
  lemma SelectsInterval(weights: seq<int>, n: int, k: nat)
    requires NonNegative(weights) && 0 <= n && k < |weights|
    ensures Selects(weights, n, k) <==> UpTo(weights, k) <= n < UpTo(weights, k + 1)
  {
    forall j | 0 < j <= k ensures UpTo(weights, j) <= UpTo(weights, k) {
      SumMonotone(weights, j, k);
    }
    assert UpTo(weights, 0) == 0;
  }

  predicate Between(lo: int, n: int, hi: int) {
    lo <= n < hi
  }

  ghost function Interval(lo: int, hi: int): set<int> {
    set n | lo <= n < hi && Between(lo, n, hi)
  }

  lemma {:induction false} IntervalSize(lo: int, hi: int)
    requires lo <= hi
    ensures |Interval(lo, hi)| == hi - lo
    decreases hi - lo
  {
    if lo < hi {
      IntervalSize(lo, hi - 1);
      assert Interval(lo, hi) == Interval(lo, hi - 1) + {hi - 1};
    } else {
      assert Interval(lo, hi) == {};
    }
  }

  /** The draws that select entry k, among those rand.Intn(total) can make. */
  ghost function Draws(weights: seq<int>, k: nat): set<int> {
    set n | 0 <= n < Sum(weights) && Selects(weights, n, k)
  }

  /** Entry k is selected by exactly weights[k] of the total draws. */
  lemma DrawShare(weights: seq<int>, k: nat)
    requires NonNegative(weights) && k < |weights|
    ensures |Draws(weights, k)| == weights[k]
  {
    SumPush(weights, k);
    SumMonotone(weights, 0, k);
    SumMonotone(weights, k + 1, |weights|);
    assert weights[..|weights|] == weights;
    var lo, hi := UpTo(weights, k), UpTo(weights, k + 1);
    forall n ensures n in Draws(weights, k) <==> n in Interval(lo, hi) {
      if 0 <= n {
        SelectsInterval(weights, n, k);
      }
    }
    assert Draws(weights, k) == Interval(lo, hi);
    IntervalSize(lo, hi);
  }
}

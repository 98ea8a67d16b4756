/** The thinning of an equity curve to a requested number of points. */
module Downsampling {

  /** Index i of the sample before the last one is replaced: the integer part of i * n / sample. */
  function At(n: nat, sample: nat, i: nat): nat
    requires sample > 0
  {
    i * n / sample
  }

  ghost function CeilDiv(a: nat, b: nat): nat
    requires b > 0
  {
    (a + b - 1) / b
  }

  /** q is the integer part of a / b exactly when q * b <= a < (q + 1) * b. */
  lemma QuotientBounds(a: nat, b: nat)
    requires b > 0
    ensures (a / b) * b <= a < (a / b) * b + b
  {
  }

  lemma MulMonotone(a: int, b: int, c: nat)
    requires a <= b
    ensures a * c <= b * c
  {
  }

  lemma QuotientAtLeast(a: nat, b: nat, q: int)
    requires b > 0 && q * b <= a
    ensures q <= a / b
  {
    QuotientBounds(a, b);
    if a / b < q {
      MulMonotone(a / b + 1, q, b);
    }
  }

  lemma QuotientAtMost(a: nat, b: nat, q: int)
    requires b > 0 && a < (q + 1) * b
    ensures a / b <= q
  {
    QuotientBounds(a, b);
    if q < a / b {
      MulMonotone(q + 1, a / b, b);
    }
  }

  /** One step moves on by at least one index and by no more than the rounded-up step. */
  lemma StepBetween(n: nat, sample: nat, i: nat)
    requires 0 < sample < n
    ensures At(n, sample, i) < At(n, sample, i + 1) <= At(n, sample, i) + CeilDiv(n, sample)
  {
    var q := At(n, sample, i);
    QuotientBounds(i * n, sample);
    assert (i + 1) * n == i * n + n;
    assert (q + 1) * sample == q * sample + sample;
    QuotientAtLeast((i + 1) * n, sample, q + 1);
    var step := CeilDiv(n, sample);
    QuotientBounds(n + sample - 1, sample);
    assert step * sample >= n;
    assert (q + step + 1) * sample == q * sample + step * sample + sample;
    QuotientAtMost((i + 1) * n, sample, q + step);
  }

  lemma {:induction false} StrictlyIncreasing(n: nat, sample: nat, i: nat, j: nat)
    requires 0 < sample < n && i < j
    ensures At(n, sample, i) < At(n, sample, j)
    decreases j
  {
    StepBetween(n, sample, j - 1);
    if i < j - 1 {
      StrictlyIncreasing(n, sample, i, j - 1);
    }
  }

  /** The last computed index falls short of the end by less than one rounded-up double step. */
  lemma LastGap(n: nat, sample: nat)
    requires 2 <= sample < n
    ensures At(n, sample, sample - 2) < n - 1
    ensures At(n, sample, sample - 1) <= n - 1
    ensures n - 1 - At(n, sample, sample - 2) <= CeilDiv(2 * n, sample) - 1
  {
    StrictlyIncreasing(n, sample, sample - 1, sample);
    StrictlyIncreasing(n, sample, sample - 2, sample - 1);
    assert sample * n == n * sample;
    QuotientAtMost(sample * n, sample, n);
    var gap := CeilDiv(2 * n, sample);
    QuotientBounds(2 * n + sample - 1, sample);
    assert gap * sample >= 2 * n;
    assert (n - gap) * sample == n * sample - gap * sample;
    assert (sample - 2) * n == n * sample - 2 * n;
    QuotientAtLeast((sample - 2) * n, sample, n - gap);
  }

  /** What the thinned curve promises: as many points as asked for, in order, both ends kept, and
    * no gap much wider than the even spacing. */
  ghost predicate EvenlySpread(indices: seq<nat>, n: nat, sample: nat)
    requires sample > 0
  {
    |indices| == sample && InOrder(indices, n) && GapsBounded(indices, n, sample)
  }

  ghost predicate InOrder(indices: seq<nat>, n: nat)
    requires |indices| > 0
  {
    && (forall k :: 0 <= k < |indices| ==> indices[k] < n)
    && (forall j, k :: 0 <= j < k < |indices| ==> indices[j] < indices[k])
    && indices[|indices| - 1] == n - 1
    && (|indices| > 1 ==> indices[0] == 0)
  }

  ghost predicate GapsBounded(indices: seq<nat>, n: nat, sample: nat)
    requires |indices| == sample > 0
  {
    && (forall k :: 0 <= k < sample - 2 ==> indices[k + 1] - indices[k] <= CeilDiv(n, sample))
    && (sample > 1 ==> indices[sample - 1] - indices[sample - 2] <= CeilDiv(2 * n, sample) - 1)
  }

  /** The index of point `k` in the thinned curve. */
  function Picked(n: nat, sample: nat, k: nat): nat
    requires 0 < sample && k < sample && n > 0
  {
    if k == sample - 1 then n - 1 else At(n, sample, k)
  }

  lemma PickedIncreases(n: nat, sample: nat, j: nat, k: nat)
    requires 0 < sample < n && j < k < sample
    ensures Picked(n, sample, j) < Picked(n, sample, k)
  {
    StrictlyIncreasing(n, sample, j, k);
    LastGap(n, sample);
  }

  lemma PickedInRange(n: nat, sample: nat, k: nat)
    requires 0 < sample < n && k < sample
    ensures Picked(n, sample, k) < n
  {
    if k < sample - 1 {
      PickedIncreases(n, sample, k, sample - 1);
    }
  }

  lemma PickedGap(n: nat, sample: nat, k: nat)
    requires 0 < sample < n && k + 1 < sample
    ensures Picked(n, sample, k + 1) - Picked(n, sample, k)
            <= if k == sample - 2 then CeilDiv(2 * n, sample) - 1 else CeilDiv(n, sample)
  {
    if k == sample - 2 {
      LastGap(n, sample);
    } else {
      StepBetween(n, sample, k);
    }
  }

  lemma PickedInOrder(indices: seq<nat>, n: nat, sample: nat)
    requires 0 < sample < n && |indices| == sample
    requires forall k: nat :: k < sample ==> indices[k] == Picked(n, sample, k)
    ensures InOrder(indices, n)
  {
    forall k: nat | k < sample ensures indices[k] < n {
      PickedInRange(n, sample, k);
    }
    forall j: nat, k: nat | j < k < sample ensures indices[j] < indices[k] {
      PickedIncreases(n, sample, j, k);
    }
    assert indices[sample - 1] == Picked(n, sample, sample - 1);
    assert indices[0] == Picked(n, sample, 0);
  }

  lemma PickedGapsBounded(indices: seq<nat>, n: nat, sample: nat)
    requires 0 < sample < n && |indices| == sample
    requires forall k: nat :: k < sample ==> indices[k] == Picked(n, sample, k)
    ensures GapsBounded(indices, n, sample)
  {
    forall k: nat | k < sample - 2 ensures indices[k + 1] - indices[k] <= CeilDiv(n, sample) {
      PickedGap(n, sample, k);
    }
    if sample > 1 {
      PickedGap(n, sample, sample - 2);
    }
  }

  /** The index list: computed in one pass, the last entry overwritten when it is not the end. */
  method Indices(n: nat, sample: nat) returns (indices: seq<nat>)
    requires 0 < sample < n
    ensures |indices| == sample && forall k: nat :: k < sample ==> indices[k] == Picked(n, sample, k)
    ensures EvenlySpread(indices, n, sample)
  {
    indices := [];
    for i := 0 to sample
      invariant |indices| == i && forall k: nat :: k < i ==> indices[k] == At(n, sample, k)
    {
      indices := indices + [i * n / sample];
    }
    if indices[sample - 1] != n - 1 {
      indices := indices[sample - 1 := n - 1];
    }
    PickedInOrder(indices, n, sample);
    PickedGapsBounded(indices, n, sample);
  }

  /** The points of the curve, thinned when a positive sample smaller than the curve is asked for. */
  method Thin<T>(points: seq<T>, sample: nat) returns (thinned: seq<T>)
    ensures sample == 0 || |points| <= sample ==> thinned == points
    ensures 0 < sample < |points| ==>
      |thinned| == sample && forall k: nat :: k < sample ==>
        Picked(|points|, sample, k) < |points| && thinned[k] == points[Picked(|points|, sample, k)]
  {
    if sample == 0 || |points| <= sample {
      return points;
    }
    var indices := Indices(|points|, sample);
    thinned := [];
    for k := 0 to sample
      invariant |thinned| == k && forall j :: 0 <= j < k ==> thinned[j] == points[indices[j]]
    {
      thinned := thinned + [points[indices[k]]];
    }
  }
}

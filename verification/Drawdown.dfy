/** Maximum drawdown in one pass over an equity series, in percent, before rounding. */
module Drawdown {
  import opened Reals

  /** Fall from `high` to `low`, in percent of `high`. */
  function Decline(high: real, low: real): real
    requires high != 0.0
  {
    (high - low) / high * 100.0
  }

  /** The running peak after k + 1 values. */
  function PeakAt(equities: seq<real>, k: nat): real
    requires k < |equities|
  {
    if k == 0 then equities[0]
    else
      var before := PeakAt(equities, k - 1);
      if equities[k] > before then equities[k] else before
  }

  /** It is the largest of them. */
  lemma {:induction false} PeakIsLargest(equities: seq<real>, k: nat)
    requires k < |equities|
    ensures forall i :: 0 <= i <= k ==> equities[i] <= PeakAt(equities, k)
    ensures exists i :: 0 <= i <= k && equities[i] == PeakAt(equities, k)
  {
    if k == 0 {
      assert equities[0] == PeakAt(equities, 0);
    } else {
      PeakIsLargest(equities, k - 1);
      var i :| 0 <= i <= k - 1 && equities[i] == PeakAt(equities, k - 1);
      assert equities[if equities[k] > equities[i] then k else i] == PeakAt(equities, k);
    }
  }

  /** The pairs a drawdown ranges over: a positive value and a later or equal point. */
  predicate Falls(equities: seq<real>, i: int, j: int) {
    0 <= i <= j < |equities| && equities[i] > 0.0
  }

  /** `d` is the largest decline over all pairs, or zero when there is none. */
  ghost predicate IsMaxDrawdown(equities: seq<real>, d: real) {
    && (forall i, j :: Falls(equities, i, j) ==> Decline(equities[i], equities[j]) <= d)
    && (d == 0.0 || exists i, j :: Falls(equities, i, j) && Decline(equities[i], equities[j]) == d)
  }

  lemma DeclineGrows(a: real, b: real, low: real)
    requires 0.0 < a <= b && low >= 0.0
    ensures Decline(a, low) <= Decline(b, low)
  {
    DivAntitone(low, a, b);
    FractionLost(a, low);
    FractionLost(b, low);
  }

  /** Only the running peak matters, because a nonnegative low falls further from a higher peak. */
  lemma PeakDeclineDominates(equities: seq<real>, i: int, j: int)
    requires Falls(equities, i, j) && equities[j] >= 0.0
    ensures PeakAt(equities, j) > 0.0 && Decline(equities[i], equities[j]) <= Decline(PeakAt(equities, j), equities[j])
  {
    PeakIsLargest(equities, j);
    DeclineGrows(equities[i], PeakAt(equities, j), equities[j]);
  }

  /** Maximum of the declines from the running peak over the first `n` points, floored at zero. */
  function OnePass(equities: seq<real>, n: nat): real
    requires n <= |equities|
  {
    if n == 0 then 0.0
    else
      var before, peak := OnePass(equities, n - 1), PeakAt(equities, n - 1);
      if peak > 0.0 && Decline(peak, equities[n - 1]) > before then Decline(peak, equities[n - 1]) else before
  }

  lemma {:induction false} OnePassDominates(equities: seq<real>, n: nat, j: nat)
    requires j < n <= |equities| && PeakAt(equities, j) > 0.0
    ensures Decline(PeakAt(equities, j), equities[j]) <= OnePass(equities, n)
  {
    if j < n - 1 {
      OnePassDominates(equities, n - 1, j);
    }
  }

  lemma {:induction false} OnePassIsAttained(equities: seq<real>, n: nat)
    requires n <= |equities|
    ensures OnePass(equities, n) == 0.0
            || exists i, j :: Falls(equities, i, j) && Decline(equities[i], equities[j]) == OnePass(equities, n)
  {
    if n > 0 {
      var peak := PeakAt(equities, n - 1);
      if OnePass(equities, n) == OnePass(equities, n - 1) {
        OnePassIsAttained(equities, n - 1);
      } else {
        PeakIsLargest(equities, n - 1);
        var i :| 0 <= i <= n - 1 && equities[i] == peak;
        assert Falls(equities, i, n - 1);
      }
    }
  }

  /** The one-pass result is zero or the decline from some running peak. */
  lemma {:induction false} OnePassIsAPeakDecline(equities: seq<real>, n: nat)
    requires n <= |equities|
    ensures OnePass(equities, n) == 0.0
            || exists k :: 0 <= k < n && PeakAt(equities, k) > 0.0 && Decline(PeakAt(equities, k), equities[k]) == OnePass(equities, n)
  {
    if n > 0 && OnePass(equities, n) == OnePass(equities, n - 1) {
      OnePassIsAPeakDecline(equities, n - 1);
    }
  }

  /** Every fall to a negative value, from whatever earlier value, is matched by a fall at least as
    * deep from a running peak. */
  ghost predicate NegativesAreMatched(equities: seq<real>) {
    forall i, j :: Falls(equities, i, j) && equities[j] < 0.0 ==> Matched(equities, Decline(equities[i], equities[j]))
  }

  ghost predicate Matched(equities: seq<real>, d: real) {
    exists k :: 0 <= k < |equities| && PeakAt(equities, k) > 0.0 && d <= Decline(PeakAt(equities, k), equities[k])
  }

  lemma NegativeDeclineIsPositive(high: real, low: real)
    requires high > 0.0 && low < 0.0
    ensures Decline(high, low) > 0.0
  {
    DivPositive(high - low, high);
  }

  /** The one-pass result is the maximum over all pairs exactly when negative values are matched. */
  lemma OnePassIsMaxIff(equities: seq<real>)
    ensures IsMaxDrawdown(equities, OnePass(equities, |equities|)) <==> NegativesAreMatched(equities)
  {
    var n := |equities|;
    if IsMaxDrawdown(equities, OnePass(equities, n)) {
      forall i, j | Falls(equities, i, j) && equities[j] < 0.0
        ensures Matched(equities, Decline(equities[i], equities[j]))
      {
        NegativeDeclineIsPositive(equities[i], equities[j]);
        OnePassIsAPeakDecline(equities, n);
      }
    }
    if NegativesAreMatched(equities) {
      OnePassIsAttained(equities, n);
      forall i, j | Falls(equities, i, j) ensures Decline(equities[i], equities[j]) <= OnePass(equities, n) {
        OnePassCovers(equities, i, j);
      }
    }
  }

  lemma OnePassCovers(equities: seq<real>, i: int, j: int)
    requires Falls(equities, i, j) && (equities[j] < 0.0 ==> Matched(equities, Decline(equities[i], equities[j])))
    ensures Decline(equities[i], equities[j]) <= OnePass(equities, |equities|)
  {
    if equities[j] >= 0.0 {
      PeakDeclineDominates(equities, i, j);
      OnePassDominates(equities, |equities|, j);
    } else {
      var k :| 0 <= k < |equities| && PeakAt(equities, k) > 0.0
               && Decline(equities[i], equities[j]) <= Decline(PeakAt(equities, k), equities[k]);
      OnePassDominates(equities, |equities|, k);
    }
  }

  /** In particular for every series without negative values. */
  lemma OnePassIsMaxDrawdown(equities: seq<real>)
    requires forall k :: 0 <= k < |equities| ==> equities[k] >= 0.0
    ensures NegativesAreMatched(equities) && IsMaxDrawdown(equities, OnePass(equities, |equities|))
  {
    OnePassIsMaxIff(equities);
  }

  /** A series with an unmatched fall: the loss is larger in percent of an earlier, smaller peak. */
  lemma NegativeEquityCanBeUnderstated()
    ensures !NegativesAreMatched([1.0, 10.0, -10.0])
    ensures !IsMaxDrawdown([1.0, 10.0, -10.0], OnePass([1.0, 10.0, -10.0], 3))
  {
    var e := [1.0, 10.0, -10.0];
    assert PeakAt(e, 0) == 1.0 && PeakAt(e, 1) == 10.0 && PeakAt(e, 2) == 10.0;
    assert OnePass(e, 1) == 0.0 && OnePass(e, 2) == 0.0;
    assert OnePass(e, 3) == 200.0;
    assert Falls(e, 0, 2) && Decline(e[0], e[2]) == 1100.0;
    OnePassIsMaxIff(e);
  }

  method CalculateMaxDrawdown(equities: seq<real>) returns (maxDd: real)
    ensures maxDd == OnePass(equities, |equities|)
    ensures IsMaxDrawdown(equities, maxDd) <==> NegativesAreMatched(equities)
  {
    OnePassIsMaxIff(equities);
    maxDd := 0.0;
    if |equities| == 0 {
      return;
    }
    var peak := equities[0];
    for k := 0 to |equities|
      invariant peak == PeakAt(equities, if k == 0 then 0 else k - 1)
      invariant maxDd == OnePass(equities, k)
    {
      var equity := equities[k];
      if equity > peak {
        peak := equity;
      }
      if peak > 0.0 {
        var dd := (peak - equity) / peak * 100.0;
        if dd > maxDd {
          maxDd := dd;
        }
      }
    }
  }
}

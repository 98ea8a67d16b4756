/** Longest runs of wins and losses, in one pass. */
module Streaks {
  import opened Sums

  /** Every element of the window [from, to) satisfies `p`. */
  predicate RunOf<T>(xs: seq<T>, p: T -> bool, from: int, to: int) {
    0 <= from <= to <= |xs| && forall k :: from <= k < to ==> p(xs[k])
  }

  /** `n` is attained by a contiguous run, and no run is longer. */
  ghost predicate IsLongestRun<T>(xs: seq<T>, p: T -> bool, n: int) {
    && (exists from, to :: RunOf(xs, p, from, to) && to - from == n)
    && (forall from, to :: RunOf(xs, p, from, to) ==> to - from <= n)
  }

  /** Length of the run that ends at position `k`. */
  function EndingRun<T>(xs: seq<T>, p: T -> bool, k: nat): (n: nat)
    requires k <= |xs|
    ensures n <= k && RunOf(xs, p, k - n, k)
    ensures forall from :: RunOf(xs, p, from, k) ==> k - from <= n
  {
    if k == 0 || !p(xs[k - 1]) then 0
    else
      var n := EndingRun(xs, p, k - 1);
      assert forall from :: RunOf(xs, p, from, k) && from < k ==> RunOf(xs, p, from, k - 1);
      n + 1
  }

  function LongestRun<T>(xs: seq<T>, p: T -> bool, k: nat): nat
    requires k <= |xs|
  {
    if k == 0 then 0
    else if EndingRun(xs, p, k) > LongestRun(xs, p, k - 1) then EndingRun(xs, p, k)
    else LongestRun(xs, p, k - 1)
  }

  lemma {:induction false} LongestRunBounds<T>(xs: seq<T>, p: T -> bool, k: nat)
    requires k <= |xs|
    ensures exists from, to :: RunOf(xs, p, from, to) && to - from == LongestRun(xs, p, k)
    ensures forall from, to :: RunOf(xs, p, from, to) && to <= k ==> to - from <= LongestRun(xs, p, k)
  {
    if k == 0 {
      assert RunOf(xs, p, 0, 0);
    } else {
      LongestRunBounds(xs, p, k - 1);
      var n := EndingRun(xs, p, k);
      assert RunOf(xs, p, k - n, k);
    }
  }

  lemma LongestRunIsLongest<T>(xs: seq<T>, p: T -> bool)
    ensures IsLongestRun(xs, p, LongestRun(xs, p, |xs|))
  {
    LongestRunBounds(xs, p, |xs|);
  }

  predicate Win(x: real) { x > 0.0 }

  predicate Loss(x: real) { x < 0.0 }

  predicate NotWin(x: real) { !(x > 0.0) }

  /** The portfolio's streaks: a zero breaks both. */
  method CalculateStreaks(pnls: seq<real>) returns (longestWin: nat, longestLoss: nat)
    ensures IsLongestRun(pnls, Win, longestWin) && IsLongestRun(pnls, Loss, longestLoss)
  {
    longestWin, longestLoss := 0, 0;
    var currentWin, currentLoss := 0, 0;
    for k := 0 to |pnls|
      invariant currentWin == EndingRun(pnls, Win, k) && longestWin == LongestRun(pnls, Win, k)
      invariant currentLoss == EndingRun(pnls, Loss, k) && longestLoss == LongestRun(pnls, Loss, k)
    {
      if pnls[k] > 0.0 {
        currentWin := currentWin + 1;
        currentLoss := 0;
        if currentWin > longestWin {
          longestWin := currentWin;
        }
      } else if pnls[k] < 0.0 {
        currentLoss := currentLoss + 1;
        currentWin := 0;
        if currentLoss > longestLoss {
          longestLoss := currentLoss;
        }
      } else {
        currentWin := 0;
        currentLoss := 0;
      }
    }
    LongestRunIsLongest(pnls, Win);
    LongestRunIsLongest(pnls, Loss);
  }

  /** The profits a backtest streak looks at: missing ones are skipped. */
  function Known(pnls: seq<Option<real>>): seq<real> {
    if pnls == [] then []
    else if pnls[|pnls| - 1].Some? then Known(pnls[..|pnls| - 1]) + [pnls[|pnls| - 1].value]
    else Known(pnls[..|pnls| - 1])
  }

  lemma {:induction false} RunsOfPrefix<T>(xs: seq<T>, x: T, p: T -> bool, k: nat)
    requires k <= |xs|
    ensures EndingRun(xs + [x], p, k) == EndingRun(xs, p, k)
    ensures LongestRun(xs + [x], p, k) == LongestRun(xs, p, k)
  {
    if k > 0 {
      assert (xs + [x])[k - 1] == xs[k - 1];
      RunsOfPrefix(xs, x, p, k - 1);
    }
  }

  /** The backtest's streak: a zero counts as a loss, and a trade without profit is skipped. */
  method MaxStreak(pnls: seq<Option<real>>, winning: bool) returns (maxStreak: nat)
    ensures IsLongestRun(Known(pnls), if winning then Win else NotWin, maxStreak)
  {
    ghost var p := if winning then Win else NotWin;
    maxStreak := 0;
    var current := 0;
    for k := 0 to |pnls|
      invariant current == EndingRun(Known(pnls[..k]), p, |Known(pnls[..k])|)
      invariant maxStreak == LongestRun(Known(pnls[..k]), p, |Known(pnls[..k])|)
    {
      assert pnls[..k + 1][..k] == pnls[..k];
      if pnls[k].None? {
        continue;
      }
      ghost var known := Known(pnls[..k]);
      RunsOfPrefix(known, pnls[k].value, p, |known|);
      var isWin := pnls[k].value > 0.0;
      if isWin == winning {
        current := current + 1;
        maxStreak := if current > maxStreak then current else maxStreak;
      } else {
        current := 0;
      }
    }
    assert pnls[..|pnls|] == pnls;
    LongestRunIsLongest(Known(pnls), p);
  }
}

/** What the excursion columns of a trade mean over a whole single-symbol run. */
module BacktestExcursions {
  import opened PositionRows
  import opened Backtest
  import BacktestBounds

  /** `x` is the largest favourable move over the bars from `from` up to `to`, or zero if none is
    * positive. */
  ghost predicate BestMove(x: real, t: Trade, ticks: seq<Tick>, from: int, to: int) {
    && x >= 0.0
    && (forall k :: 0 <= from <= k < to <= |ticks| ==> Favorable(t, ticks[k].bar) <= x)
    && (x == 0.0 || exists k :: 0 <= from <= k < to <= |ticks| && Favorable(t, ticks[k].bar) == x)
  }

  ghost predicate WorstMove(x: real, t: Trade, ticks: seq<Tick>, from: int, to: int) {
    && x >= 0.0
    && (forall k :: 0 <= from <= k < to <= |ticks| ==> Adverse(t, ticks[k].bar) <= x)
    && (x == 0.0 || exists k :: 0 <= from <= k < to <= |ticks| && Adverse(t, ticks[k].bar) == x)
  }

  /** The columns cover the bars from the entry bar up to `to`. */
  ghost predicate Covers(t: Trade, ticks: seq<Tick>, to: int) {
    && 0 <= t.entryIndex <= to
    && BestMove(t.maxFavorable, t, ticks, t.entryIndex, to)
    && WorstMove(t.maxAdverse, t, ticks, t.entryIndex, to)
  }

  /** A bar that closes a trade is not counted in its excursions, except at the end of data, when
    * the closes come after the last bar has been counted. */
  function LastCounted(reason: Reason, exitIndex: int): int {
    if reason == EndOfData then exitIndex + 1 else exitIndex
  }

  ghost predicate ClosedCovers(t: Trade, ticks: seq<Tick>) {
    t.outcome.Some? && Covers(t, ticks, LastCounted(t.outcome.value.reason, t.outcome.value.exitIndex))
  }

  /** Every open trade covers the bars so far, every closed one those it was held over. */
  ghost predicate Covered(s: State, feed: Feed, n: nat) {
    && (forall t :: t in s.openTrades ==> t.symbol == feed.symbol && Covers(t, feed.ticks, n))
    && (forall t :: t in s.closedTrades ==> ClosedCovers(t, feed.ticks))
  }

  lemma ClosingCovers(t: Trade, ticks: seq<Tick>, n: nat, price: real, index: int, reason: Reason)
    requires Covers(t, ticks, n) && LastCounted(reason, index) == n
    ensures ClosedCovers(Closed(t, price, index, reason), ticks)
  {
    var c := Closed(t, price, index, reason);
    assert forall bar :: Favorable(c, bar) == Favorable(t, bar) && Adverse(c, bar) == Adverse(t, bar);
  }

  lemma {:induction false} SweepCovers(s: State, k: nat, rule: Trade -> Exit, index: int, feed: Feed, n: nat)
    requires k <= |s.openTrades| && Covered(s, feed, n)
    requires forall t :: rule(t).Leave? ==> LastCounted(rule(t).reason, index) == n
    ensures Covered(Sweep(s, k, rule, index), feed, n)
    decreases |s.openTrades| - k
  {
    if k < |s.openTrades| {
      var t := s.openTrades[k];
      match rule(t)
      case Stay => SweepCovers(s, k + 1, rule, index, feed, n);
      case Leave(price, reason) =>
        assert t in s.openTrades;
        ClosingCovers(t, feed.ticks, n, price, index, reason);
        SweepCovers(CloseAt(s, k, price, index, reason), k, rule, index, feed, n);
    }
  }

  lemma EntryCovers(s: State, c: Settings, side: Side, feed: Feed, n: nat)
    requires Covered(s, feed, n) && n < |feed.ticks|
    ensures Covered(ProcessEntry(s, c, feed.symbol, side, feed.ticks[n].bar, n), feed, n)
  {
    var bar := feed.ticks[n].bar;
    SweepCovers(s, 0, OppositeRule(bar, feed.symbol, side), n, feed, n);
  }

  lemma ExcursionCovers(t: Trade, ticks: seq<Tick>, n: nat)
    requires n < |ticks| && Covers(t, ticks, n)
    ensures Covers(Excursion(t, ticks[n].bar), ticks, n + 1)
  {
    var bar, u := ticks[n].bar, Excursion(t, ticks[n].bar);
    assert forall b :: Favorable(u, b) == Favorable(t, b) && Adverse(u, b) == Adverse(t, b);
    assert u.maxFavorable == Max(t.maxFavorable, Favorable(u, bar)) && u.maxAdverse == Max(t.maxAdverse, Adverse(u, bar));
    if t.maxFavorable != 0.0 {
      var k :| 0 <= t.entryIndex <= k < n && Favorable(t, ticks[k].bar) == t.maxFavorable;
      assert Favorable(u, ticks[k].bar) == t.maxFavorable;
    }
    if t.maxAdverse != 0.0 {
      var k :| 0 <= t.entryIndex <= k < n && Adverse(t, ticks[k].bar) == t.maxAdverse;
      assert Adverse(u, ticks[k].bar) == t.maxAdverse;
    }
  }

  lemma FinishCovers(s: State, everyTenth: bool, feed: Feed, n: nat)
    requires Covered(s, feed, n) && n < |feed.ticks|
    ensures Covered(RecordEquity(UpdateExcursions(s, feed.symbol, feed.ticks[n].bar), everyTenth, feed.ticks[n].bar, n), feed, n + 1)
  {
    var after := UpdateExcursions(s, feed.symbol, feed.ticks[n].bar).openTrades;
    forall t | t in after ensures t.symbol == feed.symbol && Covers(t, feed.ticks, n + 1) {
      var k :| 0 <= k < |after| && after[k] == t;
      assert s.openTrades[k] in s.openTrades;
      ExcursionCovers(s.openTrades[k], feed.ticks, n);
    }
  }

  lemma BarCovers(s: State, c: Settings, side: Side, feed: Feed, n: nat)
    requires Covered(s, feed, n) && n < |feed.ticks|
    ensures Covered(BarStep(s, c, feed.symbol, side, feed.ticks[n], n), feed, n + 1)
  {
    var tick, s0 := feed.ticks[n], WarmUp(s, c, n);
    assert Covered(s0, feed, n);
    SweepCovers(s0, 0, ExitsOf(c.exits, tick.bar, n, feed.symbol), n, feed, n);
    var s1 := Sweep(s0, 0, ExitsOf(c.exits, tick.bar, n, feed.symbol), n);
    EntryCovers(s1, c, side, feed, n);
    var s2 := if s1.warm && tick.enter then ProcessEntry(s1, c, feed.symbol, side, tick.bar, n) else s1;
    SweepCovers(s2, 0, SignalRule(tick.bar, feed.symbol), n, feed, n);
    var s3 := if s2.warm && tick.leave then Sweep(s2, 0, SignalRule(tick.bar, feed.symbol), n) else s2;
    FinishCovers(s3, c.everyTenth, feed, n);
  }

  lemma BarsCover(initial: real, c: Settings, feed: Feed, side: Side, n: nat)
    requires n <= |feed.ticks|
    ensures Covered(RunBars(Start(initial), c, feed, side, n), feed, n)
  {
    ghost var p: (State, nat) -> bool := (t: State, k: nat) => Covered(t, feed, k);
    forall t: State, k: nat | k < |feed.ticks| && p(t, k)
      ensures p(BarOf(c, feed, side)(t, k), k + 1)
    {
      BarCovers(t, c, side, feed, k);
    }
    BarsAdvance(p, Start(initial), c, feed, side, n);
    assert p(RunBars(Start(initial), c, feed, side, n), n);
  }

  lemma EndCovers(s: State, feed: Feed)
    requires feed.ticks != [] && Covered(s, feed, |feed.ticks|)
    ensures Covered(Sweep(s, 0, EndRule(feed.ticks[|feed.ticks| - 1].bar), |feed.ticks| - 1), feed, |feed.ticks|)
  {
    SweepCovers(s, 0, EndRule(feed.ticks[|feed.ticks| - 1].bar), |feed.ticks| - 1, feed, |feed.ticks|);
  }

  /** After a single-symbol run, every trade's excursions are the extremes over exactly the bars it
    * was held over, its entry bar included and a closing bar before the end of data excluded. */
  lemma ExcursionsCoverTheBarsHeld(initial: real, c: Settings, feed: Feed, side: Side)
    ensures forall t :: t in Run(initial, c, [feed], side).closedTrades ==> ClosedCovers(t, feed.ticks)
  {
    BacktestBounds.RunOfOneFeed(initial, c, feed, side);
    BarsCover(initial, c, feed, side, |feed.ticks|);
    if feed.ticks != [] {
      EndCovers(RunBars(Start(initial), c, feed, side, |feed.ticks|), feed);
    }
  }
}

/** Which bars the equity curve samples, and what each point says. */
module BacktestSampling {
  import opened Sums
  import opened PositionRows
  import opened Backtest
  import opened BacktestExits

  // ---- What a bar trades ----

  /** Something was closed, or nothing changed at all. */
  predicate SweptOrSame(s: State, after: State) {
    after == s || (after.traded && |after.closedTrades| > |s.closedTrades|)
  }

  lemma {:induction false} SweepTrades(s: State, k: nat, rule: Trade -> Exit, index: int)
    requires k <= |s.openTrades|
    ensures SweptOrSame(s, Sweep(s, k, rule, index))
    ensures s.traded ==> Sweep(s, k, rule, index).traded
    ensures |Sweep(s, k, rule, index).closedTrades| >= |s.closedTrades|
    decreases |s.openTrades| - k
  {
    if k < |s.openTrades| {
      match rule(s.openTrades[k])
      case Stay => SweepTrades(s, k + 1, rule, index);
      case Leave(price, reason) => SweepTrades(CloseAt(s, k, price, index, reason), k, rule, index);
    }
  }

  /** A bar closes something, or enters one trade and nothing else, or leaves the trades alone. */
  ghost predicate Traded(s: State, mid: State, index: int) {
    || (mid.traded && |mid.closedTrades| > |s.closedTrades|)
    || (mid.traded && mid.closedTrades == s.closedTrades && |mid.openTrades| == |s.openTrades| + 1
        && mid.openTrades[..|s.openTrades|] == s.openTrades && mid.openTrades[|s.openTrades|].entryIndex == index)
    || (mid.traded == s.traded && mid.closedTrades == s.closedTrades && mid.openTrades == s.openTrades)
  }

  lemma EntryTrades(s: State, c: Settings, symbol: string, side: Side, bar: Bar, index: int)
    ensures Traded(s, ProcessEntry(s, c, symbol, side, bar, index), index)
    ensures |ProcessEntry(s, c, symbol, side, bar, index).closedTrades| >= |s.closedTrades|
    ensures s.traded ==> ProcessEntry(s, c, symbol, side, bar, index).traded
  {
    SweepTrades(s, 0, OppositeRule(bar, symbol, side), index);
  }

  lemma BarTrades(s: State, c: Settings, symbol: string, side: Side, tick: Tick, index: int)
    ensures Traded(s, TradeStep(s, c, symbol, side, tick, index), index)
  {
    var s0 := WarmUp(s, c, index);
    SweepTrades(s0, 0, ExitsOf(c.exits, tick.bar, index, symbol), index);
    var s1 := Sweep(s0, 0, ExitsOf(c.exits, tick.bar, index, symbol), index);
    EntryTrades(s1, c, symbol, side, tick.bar, index);
    var s2 := if s1.warm && tick.enter then ProcessEntry(s1, c, symbol, side, tick.bar, index) else s1;
    SweepTrades(s2, 0, SignalRule(tick.bar, symbol), index);
  }

  // ---- One point ----

  /** A trade valued at the bar's close. */
  function ValueAt(bar: Bar): Trade -> real {
    (t: Trade) => if t.side == Long then (bar.close - t.entryPrice) * t.quantity else (t.entryPrice - bar.close) * t.quantity
  }

  /** The point says what the run is worth after the bar: its cash, and every open trade at the bar's
    * close. */
  ghost predicate PointIsRight(p: EquityPoint, after: State, bar: Bar, index: int) {
    && p.barIndex == index && p.cash == after.cash
    && p.equity == after.cash + SumOver(after.openTrades, ValueAt(bar))
    && p.unrealized == SumOver(after.openTrades, ValueAt(bar))
  }

  lemma EquityIsValue(s: State, bar: Bar)
    ensures CurrentEquity(s, bar) == s.cash + SumOver(s.openTrades, ValueAt(bar))
  {
    SumSame(s.openTrades, (t: Trade) => UnrealizedOf(t, bar), s.openTrades, ValueAt(bar));
  }

  lemma RecordIsRight(s: State, everyTenth: bool, bar: Bar, index: int)
    ensures var after := RecordEquity(s, everyTenth, bar, index);
            && after.openTrades == s.openTrades && after.closedTrades == s.closedTrades
            && if !everyTenth || index % 10 == 0 || s.traded
               then !after.traded && |after.points| == |s.points| + 1 && after.points[..|s.points|] == s.points
                    && PointIsRight(after.points[|s.points|], after, bar, index)
               else !after.traded && after.points == s.points
  {
    EquityIsValue(s, bar);
  }

  /** A bar is sampled exactly when every bar is, when it is a tenth one, or when it closed or entered
    * a trade; and its point is right. */
  lemma BarSamples(s: State, c: Settings, symbol: string, side: Side, tick: Tick, index: int)
    requires !s.traded
    ensures var after := BarStep(s, c, symbol, side, tick, index);
            && !after.traded
            && if !c.everyTenth || index % 10 == 0 || |after.closedTrades| > |s.closedTrades| || |after.openTrades| > |s.openTrades|
               then |after.points| == |s.points| + 1 && after.points[..|s.points|] == s.points
                    && PointIsRight(after.points[|s.points|], after, tick.bar, index)
               else after.points == s.points
  {
    BarTrades(s, c, symbol, side, tick, index);
    var mid := TradeStep(s, c, symbol, side, tick, index);
    BarKeepsPoints(s, c, symbol, side, tick, index);
    RecordIsRight(UpdateExcursions(mid, symbol, tick.bar), c.everyTenth, tick.bar, index);
  }

  lemma {:induction false} SweepKeepsPoints(s: State, k: nat, rule: Trade -> Exit, index: int)
    requires k <= |s.openTrades|
    ensures Sweep(s, k, rule, index).points == s.points
    decreases |s.openTrades| - k
  {
    if k < |s.openTrades| {
      match rule(s.openTrades[k])
      case Stay => SweepKeepsPoints(s, k + 1, rule, index);
      case Leave(price, reason) => SweepKeepsPoints(CloseAt(s, k, price, index, reason), k, rule, index);
    }
  }

  lemma BarKeepsPoints(s: State, c: Settings, symbol: string, side: Side, tick: Tick, index: int)
    ensures TradeStep(s, c, symbol, side, tick, index).points == s.points
  {
    var s0 := WarmUp(s, c, index);
    SweepKeepsPoints(s0, 0, ExitsOf(c.exits, tick.bar, index, symbol), index);
    var s1 := Sweep(s0, 0, ExitsOf(c.exits, tick.bar, index, symbol), index);
    SweepKeepsPoints(s1, 0, OppositeRule(tick.bar, symbol, side), index);
    var s2 := if s1.warm && tick.enter then ProcessEntry(s1, c, symbol, side, tick.bar, index) else s1;
    SweepKeepsPoints(s2, 0, SignalRule(tick.bar, symbol), index);
  }

  // ---- A run over one symbol ----

  /** Some trade was entered or left on bar `k`. */
  ghost predicate TradedOn(s: State, k: int) {
    (exists t :: t in s.openTrades && t.entryIndex == k) || exists t :: t in s.closedTrades && ClosedOn(t, k)
  }

  predicate ClosedOn(t: Trade, k: int) {
    t.entryIndex == k || (t.outcome.Some? && t.outcome.value.exitIndex == k)
  }

  ghost predicate HasPoint(points: seq<EquityPoint>, k: int) {
    exists j :: 0 <= j < |points| && points[j].barIndex == k
  }

  /** Every trade is dated before bar `n`. */
  ghost predicate Dated(s: State, n: int) {
    && (forall t :: t in s.openTrades ==> t.entryIndex < n)
    && (forall t :: t in s.closedTrades ==> t.entryIndex < n && t.outcome.Some? && t.outcome.value.exitIndex < n)
  }

  /** After `n` bars: the points are in order, and stand exactly for the bars that call for one. */
  ghost predicate SampledTo(s: State, c: Settings, n: nat) {
    && !s.traded && Dated(s, n)
    && (forall j :: 0 <= j < |s.points| ==> 0 <= s.points[j].barIndex < n)
    && (forall i, j :: 0 <= i < j < |s.points| ==> s.points[i].barIndex < s.points[j].barIndex)
    && (forall k: nat :: k < n ==> (HasPoint(s.points, k) <==> !c.everyTenth || k % 10 == 0 || TradedOn(s, k)))
  }

  lemma DatesStay(m: Moment, s: State, after: State, k: int)
    requires BarSorted(m, s, after) && TradedOn(s, k)
    ensures TradedOn(after, k)
  {
    if t :| t in s.openTrades && t.entryIndex == k {
      if Remains(m, t) {
        assert Aged(m, t) in after.openTrades;
      } else {
        var d :| d in after.closedTrades && Exited(m, t, d);
        assert ClosedOn(d, k);
      }
    } else {
      var t :| t in s.closedTrades && ClosedOn(t, k);
      assert t in after.closedTrades;
    }
  }

  lemma DatesWereThere(m: Moment, s: State, after: State, k: int)
    requires BarSorted(m, s, after) && TradedOn(after, k) && k < m.index
    ensures TradedOn(s, k)
  {
    if u :| u in after.openTrades && u.entryIndex == k {
      assert AgedFrom(m, s.openTrades, u);
    } else {
      var d :| d in after.closedTrades && ClosedOn(d, k);
      if d !in s.closedTrades {
        var t :| t in s.openTrades && Exited(m, t, d);
        assert t.entryIndex == k;
      }
    }
  }

  lemma EarlierDates(m: Moment, s: State, after: State)
    requires BarSorted(m, s, after)
    ensures forall k: nat :: k < m.index ==> (TradedOn(after, k) <==> TradedOn(s, k))
  {
    forall k: nat | k < m.index ensures TradedOn(after, k) <==> TradedOn(s, k) {
      if TradedOn(s, k) {
        DatesStay(m, s, after, k);
      }
      if TradedOn(after, k) {
        DatesWereThere(m, s, after, k);
      }
    }
  }

  lemma BarDates(m: Moment, s: State, after: State)
    requires BarSorted(m, s, after) && Dated(s, m.index)
    ensures Dated(after, m.index + 1)
  {
    forall u | u in after.openTrades ensures u.entryIndex < m.index + 1 {
      assert AgedFrom(m, s.openTrades, u);
    }
  }

  /** Everything a sweep adds to the closed trades is dated on it. */
  ghost predicate NewAreDated(s: State, after: State, index: int) {
    && |s.closedTrades| <= |after.closedTrades|
    && forall k :: |s.closedTrades| <= k < |after.closedTrades| ==>
         after.closedTrades[k].outcome.Some? && after.closedTrades[k].outcome.value.exitIndex == index
  }

  lemma {:induction false} SweepDates(s: State, k: nat, rule: Trade -> Exit, index: int)
    requires k <= |s.openTrades|
    ensures NewAreDated(s, Sweep(s, k, rule, index), index)
    decreases |s.openTrades| - k
  {
    if k < |s.openTrades| {
      match rule(s.openTrades[k])
      case Stay => SweepDates(s, k + 1, rule, index);
      case Leave(price, reason) =>
        var next := CloseAt(s, k, price, index, reason);
        SweepDates(next, k, rule, index);
        SweepExtends(next, k, rule, index);
    }
  }

  lemma {:induction false} SweepExtends(s: State, k: nat, rule: Trade -> Exit, index: int)
    requires k <= |s.openTrades|
    ensures s.closedTrades <= Sweep(s, k, rule, index).closedTrades
    decreases |s.openTrades| - k
  {
    if k < |s.openTrades| {
      match rule(s.openTrades[k])
      case Stay => SweepExtends(s, k + 1, rule, index);
      case Leave(price, reason) => SweepExtends(CloseAt(s, k, price, index, reason), k, rule, index);
    }
  }

  lemma DatedThrough(s: State, mid: State, after: State, index: int)
    requires NewAreDated(s, mid, index) && mid.closedTrades <= after.closedTrades && NewAreDated(mid, after, index)
    ensures NewAreDated(s, after, index)
  {
    assert forall k :: 0 <= k < |mid.closedTrades| ==> after.closedTrades[k] == mid.closedTrades[k];
  }

  lemma EntryDates(s: State, c: Settings, symbol: string, side: Side, bar: Bar, index: int)
    ensures var after := ProcessEntry(s, c, symbol, side, bar, index);
            s.closedTrades <= after.closedTrades && NewAreDated(s, after, index)
  {
    SweepDates(s, 0, OppositeRule(bar, symbol, side), index);
    SweepExtends(s, 0, OppositeRule(bar, symbol, side), index);
  }

  lemma NewClosesAreNow(s: State, c: Settings, symbol: string, side: Side, tick: Tick, index: int)
    ensures NewAreDated(s, TradeStep(s, c, symbol, side, tick, index), index)
  {
    var s0 := WarmUp(s, c, index);
    SweepDates(s0, 0, ExitsOf(c.exits, tick.bar, index, symbol), index);
    var s1 := Sweep(s0, 0, ExitsOf(c.exits, tick.bar, index, symbol), index);
    EntryDates(s1, c, symbol, side, tick.bar, index);
    var s2 := if s1.warm && tick.enter then ProcessEntry(s1, c, symbol, side, tick.bar, index) else s1;
    DatedThrough(s, s1, s2, index);
    SweepDates(s2, 0, SignalRule(tick.bar, symbol), index);
    SweepExtends(s2, 0, SignalRule(tick.bar, symbol), index);
    DatedThrough(s, s2, TradeStep(s, c, symbol, side, tick, index), index);
  }

  /** A bar traded exactly if a trade is dated on it. */
  lemma NowTraded(s: State, mid: State, after: State, n: int)
    requires Dated(s, n) && Traded(s, mid, n) && NewAreDated(s, mid, n)
    requires after.closedTrades == mid.closedTrades && |after.openTrades| == |mid.openTrades|
    requires forall k :: 0 <= k < |mid.openTrades| ==> after.openTrades[k].entryIndex == mid.openTrades[k].entryIndex
    ensures TradedOn(after, n) <==> |after.closedTrades| > |s.closedTrades| || |after.openTrades| > |s.openTrades|
  {
    if |after.closedTrades| > |s.closedTrades| {
      assert ClosedOn(after.closedTrades[|s.closedTrades|], n);
    } else if |after.openTrades| > |s.openTrades| {
      assert after.openTrades[|s.openTrades|] in after.openTrades;
    } else {
      forall u | u in after.openTrades ensures u.entryIndex < n {
        var at :| 0 <= at < |after.openTrades| && after.openTrades[at] == u;
        assert s.openTrades[at] in s.openTrades && u.entryIndex == s.openTrades[at].entryIndex;
      }
    }
  }

  lemma AgingKeepsDates(s: State, symbol: string, bar: Bar, everyTenth: bool, index: int)
    ensures var after := RecordEquity(UpdateExcursions(s, symbol, bar), everyTenth, bar, index);
            && after.closedTrades == s.closedTrades && |after.openTrades| == |s.openTrades|
            && forall k :: 0 <= k < |s.openTrades| ==> after.openTrades[k].entryIndex == s.openTrades[k].entryIndex
  {
  }

  lemma BarTradedOn(s: State, c: Settings, symbol: string, side: Side, tick: Tick, n: int)
    requires Dated(s, n)
    ensures var after := BarStep(s, c, symbol, side, tick, n);
            TradedOn(after, n) <==> |after.closedTrades| > |s.closedTrades| || |after.openTrades| > |s.openTrades|
  {
    var mid := TradeStep(s, c, symbol, side, tick, n);
    BarTrades(s, c, symbol, side, tick, n);
    NewClosesAreNow(s, c, symbol, side, tick, n);
    AgingKeepsDates(mid, symbol, tick.bar, c.everyTenth, n);
    NowTraded(s, mid, BarStep(s, c, symbol, side, tick, n), n);
  }

  lemma PointsAppended(points: seq<EquityPoint>, p: EquityPoint, k: int)
    ensures HasPoint(points + [p], k) <==> HasPoint(points, k) || p.barIndex == k
  {
    var more := points + [p];
    assert more[|points|] == p && forall j :: 0 <= j < |points| ==> more[j] == points[j];
  }

  /** The points after a bar that may have added its own. */
  lemma PointsAfter(s: State, after: State, c: Settings, n: nat, sampled: bool)
    requires SampledTo(s, c, n)
    requires if sampled then |after.points| == |s.points| + 1 && after.points[..|s.points|] == s.points && after.points[|s.points|].barIndex == n
             else after.points == s.points
    ensures forall j :: 0 <= j < |after.points| ==> 0 <= after.points[j].barIndex < n + 1
    ensures forall i, j :: 0 <= i < j < |after.points| ==> after.points[i].barIndex < after.points[j].barIndex
    ensures forall k: nat :: k < n ==> (HasPoint(after.points, k) <==> HasPoint(s.points, k))
    ensures HasPoint(after.points, n) <==> sampled
  {
    if sampled {
      assert after.points == s.points + [after.points[|s.points|]];
      forall k: int ensures HasPoint(after.points, k) <==> HasPoint(s.points, k) || k == n {
        PointsAppended(s.points, after.points[|s.points|], k);
      }
    }
  }

  lemma NextSampled(m: Moment, s: State, after: State, c: Settings, n: nat)
    requires SampledTo(s, c, n) && BarSorted(m, s, after) && m.index == n && !after.traded
    requires if !c.everyTenth || n % 10 == 0 || TradedOn(after, n)
             then |after.points| == |s.points| + 1 && after.points[..|s.points|] == s.points && after.points[|s.points|].barIndex == n
             else after.points == s.points
    ensures SampledTo(after, c, n + 1)
  {
    BarDates(m, s, after);
    PointsAfter(s, after, c, n, !c.everyTenth || n % 10 == 0 || TradedOn(after, n));
    EarlierDates(m, s, after);
  }

  lemma BarKeepsSampling(s: State, c: Settings, symbol: string, side: Side, tick: Tick, n: nat)
    requires SampledTo(s, c, n)
    ensures SampledTo(BarStep(s, c, symbol, side, tick, n), c, n + 1)
  {
    BarSamples(s, c, symbol, side, tick, n);
    BarTradedOn(s, c, symbol, side, tick, n);
    BarSorts(s, c, symbol, side, tick, n);
    NextSampled(MomentOf(s, c, symbol, side, tick, n), s, BarStep(s, c, symbol, side, tick, n), c, n);
  }

  /** In every single-symbol run the curve has one point for each bar of it that calls for one, in
    * order: every bar, or on the one-minute timeframe every tenth and those on which a trade was
    * entered or left. */
  lemma RunsSample(initial: real, c: Settings, feed: Feed, side: Side, n: nat)
    requires n <= |feed.ticks|
    ensures SampledTo(RunBars(Start(initial), c, feed, side, n), c, n)
  {
    ghost var p: (State, nat) -> bool := (t: State, k: nat) => SampledTo(t, c, k);
    forall t: State, k: nat | k < |feed.ticks| && p(t, k)
      ensures p(BarOf(c, feed, side)(t, k), k + 1)
    {
      BarKeepsSampling(t, c, feed.symbol, side, feed.ticks[k], k);
    }
    BarsAdvance(p, Start(initial), c, feed, side, n);
    assert p(RunBars(Start(initial), c, feed, side, n), n);
  }
}

/** The Python runner's exits and entries, over runs of any number of symbols. */
module PythonExits {
  import opened Sums
  import opened PositionRows
  import opened Backtest
  import opened BacktestExits

  // ---- The levels of one trade ----

  predicate StopTouched(bar: Bar, t: Trade) {
    t.stopLoss.Some? && if t.side == Long then bar.low <= t.stopLoss.value else t.stopLoss.value <= bar.high
  }

  predicate TargetTouched(bar: Bar, t: Trade) {
    t.takeProfit.Some? && if t.side == Long then t.takeProfit.value <= bar.high else bar.low <= t.takeProfit.value
  }

  predicate Touched(bar: Bar, t: Trade) {
    StopTouched(bar, t) || TargetTouched(bar, t)
  }

  /** A trade leaves at its own stop exactly when the bar touches it, at its own target exactly when
    * the bar touches that and not the stop, and stays otherwise. */
  predicate RightLevel(bar: Bar, t: Trade, exit: Exit) {
    && (exit.Leave? <==> Touched(bar, t))
    && (StopTouched(bar, t) ==> exit == Leave(t.stopLoss.value, StopLoss))
    && (TargetTouched(bar, t) && !StopTouched(bar, t) ==> exit == Leave(t.takeProfit.value, TakeProfit))
  }

  lemma LevelsAreRight(bar: Bar, t: Trade)
    ensures RightLevel(bar, t, LevelRule(bar)(t))
  {
  }

  predicate LeftAtLevel(bar: Bar, d: Trade)
    requires d.outcome.Some?
  {
    match d.outcome.value.reason
    case StopLoss => StopTouched(bar, d) && d.stopLoss == Some(d.outcome.value.exitPrice)
    case TakeProfit => TargetTouched(bar, d) && !StopTouched(bar, d) && d.takeProfit == Some(d.outcome.value.exitPrice)
    case _ => false
  }

  // ---- One bar ----

  /** `t` is what one of the signals asked for, filled half a pip off the bar's close. */
  predicate AskedBy(t: Trade, signal: Signal, bar: Bar) {
    && t.symbol == signal.symbol && t.side == signal.side && t.quantity > 0.0
    && t.stopLoss == signal.stopLoss && t.takeProfit == signal.takeProfit
    && (signal.quantity.Some? && signal.quantity.value > 0.0 ==> t.quantity == signal.quantity.value)
    && t.entryPrice == if t.side == Long then bar.close + 0.5 * PipValue(t.symbol) else bar.close - 0.5 * PipValue(t.symbol)
  }

  predicate Asked(t: Trade, signals: seq<Signal>, bar: Bar) {
    exists n :: 0 <= n < |signals| && AskedBy(t, signals[n], bar)
  }

  lemma {:induction false} SignalsAdd(s: State, sizing: Option<Sizing>, signals: seq<Signal>, bar: Bar, index: int)
    ensures var after := ProcessSignals(s, sizing, signals, bar, index);
            && s.openTrades <= after.openTrades && after.closedTrades == s.closedTrades && after.warm == s.warm
            && forall t :: t in after.openTrades ==> t in s.openTrades || (t.entryIndex == index && Asked(t, signals, bar))
    decreases |signals|
  {
    if signals != [] {
      var next := ProcessSignal(s, sizing, signals[0], bar, index);
      SignalsAdd(next, sizing, signals[1..], bar, index);
      forall t | t in ProcessSignals(s, sizing, signals, bar, index).openTrades && t !in s.openTrades
        ensures t.entryIndex == index && Asked(t, signals, bar)
      {
        if t in next.openTrades {
          assert AskedBy(t, signals[0], bar);
        } else {
          var n :| 0 <= n < |signals[1..]| && AskedBy(t, signals[1..][n], bar);
          assert signals[n + 1] == signals[1..][n];
        }
      }
    }
  }

  function Aged(symbol: string, bar: Bar, t: Trade): Trade {
    if t.symbol == symbol then Excursion(t, bar) else t
  }

  ghost predicate AgedFrom(symbol: string, tick: PythonTick, index: int, warm: bool, open: seq<Trade>, u: Trade) {
    exists t :: u == Aged(symbol, tick.bar, t)
      && ((t in open && !Touched(tick.bar, t)) || (warm && t.entryIndex == index && Asked(t, tick.signals, tick.bar)))
  }

  ghost predicate LeftFrom(bar: Bar, index: int, open: seq<Trade>, d: Trade) {
    exists t :: t in open && Touched(bar, t) && LeavesAs(bar, index, t, d)
  }

  predicate LeavesAs(bar: Bar, index: int, t: Trade, d: Trade) {
    d.outcome.Some? && d == t.(outcome := d.outcome) && d.outcome.value.exitIndex == index && LeftAtLevel(bar, d)
  }

  ghost predicate LeftInto(bar: Bar, index: int, t: Trade, closed: seq<Trade>) {
    exists d :: d in closed && LeavesAs(bar, index, t, d)
  }

  /** What a bar does to every trade, whatever its symbol: touched levels take it out, and what else
    * is open was asked for by a signal of a warmed-up bar. */
  ghost predicate BarSorted(s: State, symbol: string, tick: PythonTick, index: int, warm: bool, after: State) {
    && after.warm == warm && s.closedTrades <= after.closedTrades
    && (forall t :: t in s.openTrades ==>
          if Touched(tick.bar, t) then LeftInto(tick.bar, index, t, after.closedTrades) else Aged(symbol, tick.bar, t) in after.openTrades)
    && (forall u :: u in after.openTrades ==> AgedFrom(symbol, tick, index, warm, s.openTrades, u))
    && (forall d :: d in after.closedTrades ==> d in s.closedTrades || LeftFrom(tick.bar, index, s.openTrades, d))
  }

  lemma LevelsSort(s: State, bar: Bar, index: int)
    ensures var after := Sweep(s, 0, LevelRule(bar), index);
            && after.warm == s.warm && s.closedTrades <= after.closedTrades
            && (forall t :: t in after.openTrades <==> t in s.openTrades && !Touched(bar, t))
            && (forall t :: t in s.openTrades && Touched(bar, t) ==> LeftInto(bar, index, t, after.closedTrades))
            && (forall d :: d in after.closedTrades ==> d in s.closedTrades || LeftFrom(bar, index, s.openTrades, d))
  {
    var rule := LevelRule(bar);
    var after := Sweep(s, 0, rule, index);
    SweepFates(s, rule, index);
    forall t ensures RightLevel(bar, t, rule(t)) {
      LevelsAreRight(bar, t);
    }
    forall t | t in s.openTrades && Touched(bar, t) ensures LeftInto(bar, index, t, after.closedTrades) {
      var d := Closed(t, rule(t).price, index, rule(t).reason);
      assert FromSweep(s, rule, index, d);
      assert LeavesAs(bar, index, t, d);
    }
    forall d | d in after.closedTrades && d !in s.closedTrades ensures LeftFrom(bar, index, s.openTrades, d) {
      var t :| t in s.openTrades && rule(t).Leave? && d == Closed(t, rule(t).price, index, rule(t).reason);
      assert LeavesAs(bar, index, t, d);
    }
  }

  /** The same before the excursions are brought up to date. */
  ghost predicate MidSorted(s: State, tick: PythonTick, index: int, warm: bool, mid: State) {
    && mid.warm == warm && s.closedTrades <= mid.closedTrades
    && (forall t :: t in s.openTrades ==>
          if Touched(tick.bar, t) then LeftInto(tick.bar, index, t, mid.closedTrades) else t in mid.openTrades)
    && (forall t :: t in mid.openTrades ==>
          (t in s.openTrades && !Touched(tick.bar, t)) || (warm && t.entryIndex == index && Asked(t, tick.signals, tick.bar)))
    && (forall d :: d in mid.closedTrades ==> d in s.closedTrades || LeftFrom(tick.bar, index, s.openTrades, d))
  }

  function Mid(s: State, bar: Bar, index: int): State {
    Sweep(if index >= 200 then s.(warm := true) else s, 0, LevelRule(bar), index)
  }

  lemma MidSorts(s: State, sizing: Option<Sizing>, tick: PythonTick, index: int)
    ensures var s1 := Mid(s, tick.bar, index);
            MidSorted(s, tick, index, s.warm || index >= 200,
                      if s1.warm then ProcessSignals(s1, sizing, tick.signals, tick.bar, index) else s1)
  {
    var s1 := Mid(s, tick.bar, index);
    LevelsSort(if index >= 200 then s.(warm := true) else s, tick.bar, index);
    SignalsAdd(s1, sizing, tick.signals, tick.bar, index);
  }

  lemma AgingSorts(s: State, mid: State, everyTenth: bool, symbol: string, tick: PythonTick, index: int, warm: bool)
    requires MidSorted(s, tick, index, warm, mid)
    ensures BarSorted(s, symbol, tick, index, warm, RecordEquity(UpdateExcursions(mid, symbol, tick.bar), everyTenth, tick.bar, index))
  {
    var after := UpdateExcursions(mid, symbol, tick.bar).openTrades;
    forall t | t in mid.openTrades ensures Aged(symbol, tick.bar, t) in after {
      var k :| 0 <= k < |mid.openTrades| && mid.openTrades[k] == t;
      assert after[k] == Aged(symbol, tick.bar, t);
    }
    forall u | u in after ensures AgedFrom(symbol, tick, index, warm, s.openTrades, u) {
      var k :| 0 <= k < |after| && after[k] == u;
      assert u == Aged(symbol, tick.bar, mid.openTrades[k]) && mid.openTrades[k] in mid.openTrades;
    }
  }

  lemma PythonBarSorts(s: State, sizing: Option<Sizing>, everyTenth: bool, symbol: string, tick: PythonTick, index: int)
    ensures BarSorted(s, symbol, tick, index, s.warm || index >= 200, PythonBarStep(s, sizing, everyTenth, symbol, tick, index))
  {
    var s1 := Mid(s, tick.bar, index);
    MidSorts(s, sizing, tick, index);
    AgingSorts(s, if s1.warm then ProcessSignals(s1, sizing, tick.signals, tick.bar, index) else s1,
               everyTenth, symbol, tick, index, s.warm || index >= 200);
  }

  // ---- Runs ----

  /** Bar `k` of symbol `m` comes before bar `l` of symbol `n`. */
  predicate Before(m: int, k: int, n: int, l: int) {
    m < n || (m == n && k < l)
  }

  /** Some bar before bar `l` of symbol `n` was the 201st or a later one of its symbol. */
  predicate WarmBefore(feeds: seq<PythonFeed>, n: nat, l: nat) {
    l > 200 || exists j: nat :: j < n && j < |feeds| && |feeds[j].ticks| > 200
  }

  /** The trade was asked for by a signal of its entry bar, which is a warmed-up bar of symbol `m`. */
  ghost predicate EnteredOn(feeds: seq<PythonFeed>, t: Trade, m: nat) {
    && m < |feeds| && 0 <= t.entryIndex < |feeds[m].ticks| && WarmBefore(feeds, m, t.entryIndex + 1)
    && Asked(t, feeds[m].ticks[t.entryIndex].signals, feeds[m].ticks[t.entryIndex].bar)
  }

  /** No bar after its entry bar and before bar `l` of symbol `n` touched a level of the trade. */
  ghost predicate Untouched(feeds: seq<PythonFeed>, t: Trade, m: nat, n: nat, l: int) {
    forall j: nat, k: nat :: j < |feeds| && k < |feeds[j].ticks| && Before(m, t.entryIndex, j, k) && Before(j, k, n, l) ==>
      !Touched(feeds[j].ticks[k].bar, t)
  }

  ghost predicate Waiting(feeds: seq<PythonFeed>, t: Trade, n: nat, l: nat) {
    exists m: nat :: EnteredOn(feeds, t, m) && Before(m, t.entryIndex, n, l) && Untouched(feeds, t, m, n, l)
  }

  /** The trade left at the first touch of one of its own levels, at that level. */
  ghost predicate LeftInTime(feeds: seq<PythonFeed>, t: Trade) {
    t.outcome.Some? && exists m: nat, n: nat :: LeftBetween(feeds, t, m, n)
  }

  ghost predicate LeftBetween(feeds: seq<PythonFeed>, t: Trade, m: nat, n: nat)
    requires t.outcome.Some?
  {
    && EnteredOn(feeds, t, m) && n < |feeds| && 0 <= t.outcome.value.exitIndex < |feeds[n].ticks|
    && Before(m, t.entryIndex, n, t.outcome.value.exitIndex) && Untouched(feeds, t, m, n, t.outcome.value.exitIndex)
    && LeftAtLevel(feeds[n].ticks[t.outcome.value.exitIndex].bar, t)
  }

  /** Before bar `l` of symbol `n`. */
  ghost predicate InTime(s: State, feeds: seq<PythonFeed>, n: nat, l: nat) {
    && (s.warm <==> WarmBefore(feeds, n, l))
    && (forall t :: t in s.openTrades ==> Waiting(feeds, t, n, l))
    && (forall t :: t in s.closedTrades ==> LeftInTime(feeds, t))
  }

  lemma SameLevels(feeds: seq<PythonFeed>, t: Trade, u: Trade)
    requires u == t.(maxFavorable := u.maxFavorable, maxAdverse := u.maxAdverse, outcome := u.outcome)
    ensures forall bar :: Touched(bar, u) <==> Touched(bar, t)
    ensures forall m: nat :: EnteredOn(feeds, t, m) ==> EnteredOn(feeds, u, m)
    ensures forall m: nat, n: nat, l: int :: Untouched(feeds, t, m, n, l) ==> Untouched(feeds, u, m, n, l)
  {
    forall m: nat | EnteredOn(feeds, t, m) ensures EnteredOn(feeds, u, m) {
      var tick := feeds[m].ticks[t.entryIndex];
      var k :| 0 <= k < |tick.signals| && AskedBy(t, tick.signals[k], tick.bar);
      assert AskedBy(u, tick.signals[k], tick.bar);
    }
  }

  lemma StillWaiting(s: State, feeds: seq<PythonFeed>, n: nat, l: nat, t: Trade, u: Trade)
    requires InTime(s, feeds, n, l) && n < |feeds| && l < |feeds[n].ticks|
    requires u == Aged(feeds[n].symbol, feeds[n].ticks[l].bar, t)
    requires t in s.openTrades && !Touched(feeds[n].ticks[l].bar, t)
    ensures Waiting(feeds, u, n, l + 1)
  {
    var m: nat :| EnteredOn(feeds, t, m) && Before(m, t.entryIndex, n, l) && Untouched(feeds, t, m, n, l);
    assert Untouched(feeds, t, m, n, l + 1);
    SameLevels(feeds, t, u);
    assert EnteredOn(feeds, u, m) && Untouched(feeds, u, m, n, l + 1);
  }

  lemma NowWaiting(feeds: seq<PythonFeed>, n: nat, l: nat, t: Trade, u: Trade)
    requires n < |feeds| && l < |feeds[n].ticks| && WarmBefore(feeds, n, l + 1)
    requires u == Aged(feeds[n].symbol, feeds[n].ticks[l].bar, t)
    requires t.entryIndex == l && Asked(t, feeds[n].ticks[l].signals, feeds[n].ticks[l].bar)
    ensures Waiting(feeds, u, n, l + 1)
  {
    assert EnteredOn(feeds, t, n) && Untouched(feeds, t, n, n, l + 1);
    SameLevels(feeds, t, u);
    assert EnteredOn(feeds, u, n) && Untouched(feeds, u, n, n, l + 1);
  }

  lemma NowLeft(s: State, feeds: seq<PythonFeed>, n: nat, l: nat, d: Trade)
    requires InTime(s, feeds, n, l) && n < |feeds| && l < |feeds[n].ticks|
    requires LeftFrom(feeds[n].ticks[l].bar, l, s.openTrades, d)
    ensures LeftInTime(feeds, d)
  {
    var t :| t in s.openTrades && Touched(feeds[n].ticks[l].bar, t) && LeavesAs(feeds[n].ticks[l].bar, l, t, d);
    var m: nat :| EnteredOn(feeds, t, m) && Before(m, t.entryIndex, n, l) && Untouched(feeds, t, m, n, l);
    SameLevels(feeds, t, d);
    assert EnteredOn(feeds, d, m) && Untouched(feeds, d, m, n, l);
    assert LeftBetween(feeds, d, m, n);
  }

  lemma BarKeepsTime(s: State, sizing: Option<Sizing>, everyTenth: bool, feeds: seq<PythonFeed>, n: nat, l: nat)
    requires InTime(s, feeds, n, l) && n < |feeds| && l < |feeds[n].ticks|
    ensures InTime(PythonBarStep(s, sizing, everyTenth, feeds[n].symbol, feeds[n].ticks[l], l), feeds, n, l + 1)
  {
    var symbol, tick := feeds[n].symbol, feeds[n].ticks[l];
    var after := PythonBarStep(s, sizing, everyTenth, symbol, tick, l);
    PythonBarSorts(s, sizing, everyTenth, symbol, tick, l);
    assert WarmBefore(feeds, n, l + 1) <==> s.warm || l >= 200;
    forall u | u in after.openTrades ensures Waiting(feeds, u, n, l + 1) {
      var t :| u == Aged(symbol, tick.bar, t)
        && ((t in s.openTrades && !Touched(tick.bar, t)) || (after.warm && t.entryIndex == l && Asked(t, tick.signals, tick.bar)));
      if t in s.openTrades && !Touched(tick.bar, t) {
        StillWaiting(s, feeds, n, l, t, u);
      } else {
        NowWaiting(feeds, n, l, t, u);
      }
    }
    forall d | d in after.closedTrades ensures LeftInTime(feeds, d) {
      if d !in s.closedTrades {
        NowLeft(s, feeds, n, l, d);
      }
    }
  }

  lemma FeedKeepsTime(s: State, sizing: Option<Sizing>, everyTenth: bool, feeds: seq<PythonFeed>, n: nat, l: nat)
    requires n < |feeds| && l <= |feeds[n].ticks| && InTime(s, feeds, n, 0)
    ensures InTime(PythonRunBars(s, sizing, everyTenth, feeds[n], l), feeds, n, l)
  {
    ghost var p: (State, nat) -> bool := (t: State, k: nat) => k <= |feeds[n].ticks| && InTime(t, feeds, n, k);
    forall t: State, k: nat | k < l && p(t, k)
      ensures p(PythonBarOf(sizing, everyTenth, feeds[n])(t, k), k + 1)
    {
      BarKeepsTime(t, sizing, everyTenth, feeds, n, k);
    }
    WalkKeeps(p, s, PythonBarOf(sizing, everyTenth, feeds[n]), l);
    assert p(PythonRunBars(s, sizing, everyTenth, feeds[n], l), l);
  }

  /** After the last bar of one symbol comes the first of the next. */
  lemma NextFeed(s: State, feeds: seq<PythonFeed>, n: nat)
    requires n < |feeds| && InTime(s, feeds, n, |feeds[n].ticks|)
    ensures InTime(s, feeds, n + 1, 0)
  {
    forall t | t in s.openTrades ensures Waiting(feeds, t, n + 1, 0) {
      var m: nat :| EnteredOn(feeds, t, m) && Before(m, t.entryIndex, n, |feeds[n].ticks|)
        && Untouched(feeds, t, m, n, |feeds[n].ticks|);
      assert Untouched(feeds, t, m, n + 1, 0);
    }
    assert WarmBefore(feeds, n + 1, 0) <==> WarmBefore(feeds, n, |feeds[n].ticks|);
  }

  lemma {:induction false} FeedsKeepTime(s: State, sizing: Option<Sizing>, everyTenth: bool, feeds: seq<PythonFeed>, n: nat)
    requires n <= |feeds| && InTime(s, feeds, n, 0)
    ensures InTime(PythonRunFeeds(s, sizing, everyTenth, feeds[n..]), feeds, |feeds|, 0)
    decreases |feeds| - n
  {
    if n < |feeds| {
      var next := PythonRunBars(s, sizing, everyTenth, feeds[n], |feeds[n].ticks|);
      FeedKeepsTime(s, sizing, everyTenth, feeds, n, |feeds[n].ticks|);
      NextFeed(next, feeds, n);
      FeedsKeepTime(next, sizing, everyTenth, feeds, n + 1);
      assert feeds[n..][0] == feeds[n] && feeds[n..][1..] == feeds[n + 1..];
    }
  }

  /** The close of the last bar of the first symbol that has bars. */
  function FinalClose(feeds: seq<PythonFeed>): real {
    if feeds == [] then 0.0
    else if feeds[0].ticks == [] then FinalClose(feeds[1..])
    else feeds[0].ticks[|feeds[0].ticks| - 1].bar.close
  }

  /** Kept to the end of data and closed there. */
  ghost predicate KeptToTheEnd(feeds: seq<PythonFeed>, final: real, t: Trade) {
    t.outcome.Some? && t.outcome.value.reason == EndOfData && t.outcome.value.exitPrice == final && Waiting(feeds, t, |feeds|, 0)
  }

  lemma {:induction false} CloseOutKeepsTime(s: State, feeds: seq<PythonFeed>, all: seq<PythonFeed>)
    requires InTime(s, all, |all|, 0)
    ensures forall d :: d in PythonCloseOut(s, feeds).closedTrades ==> LeftInTime(all, d) || KeptToTheEnd(all, FinalClose(feeds), d)
    decreases |feeds|
  {
    if feeds != [] {
      if feeds[0].ticks == [] {
        CloseOutKeepsTime(s, feeds[1..], all);
      } else {
        var rule, index := EndRule(feeds[0].ticks[|feeds[0].ticks| - 1].bar), |feeds[0].ticks| - 1;
        SweepFates(s, rule, index);
        forall d | d in Sweep(s, 0, rule, index).closedTrades && d !in s.closedTrades ensures KeptToTheEnd(all, FinalClose(feeds), d) {
          var t :| t in s.openTrades && d == Closed(t, rule(t).price, index, rule(t).reason);
          var m: nat :| EnteredOn(all, t, m) && Before(m, t.entryIndex, |all|, 0) && Untouched(all, t, m, |all|, 0);
          SameLevels(all, t, d);
          assert EnteredOn(all, d, m) && Untouched(all, d, m, |all|, 0);
        }
      }
    }
  }

  /** In every Python run, over any symbols: a trade was asked for by a signal of a warmed-up bar, it
    * leaves on the first later bar of any symbol that touches one of the levels its signal set, at
    * that level and the stop first, and one that no bar touches is closed at the end of data. */
  lemma PythonTradesLeaveInTime(initial: real, sizing: Option<Sizing>, everyTenth: bool, feeds: seq<PythonFeed>)
    ensures InTime(PythonRunFeeds(Start(initial), sizing, everyTenth, feeds), feeds, |feeds|, 0)
    ensures forall d :: d in PythonRun(initial, sizing, everyTenth, feeds).closedTrades ==>
              LeftInTime(feeds, d) || KeptToTheEnd(feeds, FinalClose(feeds), d)
  {
    assert feeds[0..] == feeds;
    FeedsKeepTime(Start(initial), sizing, everyTenth, feeds, 0);
    CloseOutKeepsTime(PythonRunFeeds(Start(initial), sizing, everyTenth, feeds), feeds, feeds);
  }
}

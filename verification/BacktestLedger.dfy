/** Where the cash of a backtest goes: an identity at every bar of every run. */
module BacktestLedger {
  import opened Reals
  import opened Sums
  import opened PositionRows
  import opened Backtest
  import opened BacktestEntries

  function PnlOf(t: Trade): real { if t.outcome.Some? then t.outcome.value.pnl else 0.0 }

  function FeesOf(t: Trade): real { t.fees }

  function LongCost(t: Trade): real { if t.side == Long then t.entryPrice * t.quantity else 0.0 }

  function ShortCost(t: Trade): real { if t.side == Short then t.entryPrice * t.quantity else 0.0 }

  /** The cash ledger: initial capital, closed profits, fees and the cost of open longs, plus
    * the entry value of the closed shorts. */
  ghost predicate Balanced(s: State, initial: real) {
    s.cash == initial + SumOver(s.closedTrades, PnlOf)
              - (SumOver(s.openTrades, FeesOf) + SumOver(s.closedTrades, FeesOf))
              - SumOver(s.openTrades, LongCost) + SumOver(s.closedTrades, ShortCost)
  }

  lemma CloseBalances(initial: real, s: State, k: nat, exitPrice: real, index: int, reason: Reason)
    requires k < |s.openTrades| && Balanced(s, initial)
    ensures Balanced(CloseAt(s, k, exitPrice, index, reason), initial)
  {
    var t := s.openTrades[k];
    var done := Closed(t, exitPrice, index, reason);
    SumRemove(s.openTrades, k, FeesOf);
    SumRemove(s.openTrades, k, LongCost);
    SumAppend(s.closedTrades, done, PnlOf);
    SumAppend(s.closedTrades, done, FeesOf);
    SumAppend(s.closedTrades, done, ShortCost);
    ProceedsSplit(t, exitPrice);
  }

  lemma ProceedsSplit(t: Trade, exitPrice: real)
    ensures Proceeds(t, exitPrice) == Pnl(t, exitPrice) + LongCost(t) + ShortCost(t)
  {}

  lemma OpenBalances(initial: real, s: State, t: Trade)
    requires Balanced(s, initial)
    ensures Balanced(OpenTrade(s, t), initial)
  {
    SumAppend(s.openTrades, t, FeesOf);
    SumAppend(s.openTrades, t, LongCost);
  }

  lemma {:induction false} SweepBalances(initial: real, s: State, k: nat, rule: Trade -> Exit, index: int)
    requires k <= |s.openTrades| && Balanced(s, initial)
    ensures Balanced(Sweep(s, k, rule, index), initial)
    decreases |s.openTrades| - k
  {
    if k < |s.openTrades| {
      match rule(s.openTrades[k])
      case Stay => SweepBalances(initial, s, k + 1, rule, index);
      case Leave(price, reason) =>
        CloseBalances(initial, s, k, price, index, reason);
        SweepBalances(initial, CloseAt(s, k, price, index, reason), k, rule, index);
    }
  }

  lemma EntryBalances(initial: real, s: State, c: Settings, symbol: string, side: Side, bar: Bar, index: int)
    requires Balanced(s, initial)
    ensures Balanced(ProcessEntry(s, c, symbol, side, bar, index), initial)
  {
    SweepBalances(initial, s, 0, OppositeRule(bar, symbol, side), index);
    var s1 := if c.exits.signalExit then Sweep(s, 0, OppositeRule(bar, symbol, side), index) else s;
    OpenBalances(initial, s1, NewTrade(symbol, side, PositionSize(c.sizing, CurrentEquity(s1, bar), bar.close, symbol), bar, index, None, None));
  }

  lemma ExcursionsBalance(initial: real, s: State, symbol: string, bar: Bar)
    requires Balanced(s, initial)
    ensures Balanced(UpdateExcursions(s, symbol, bar), initial)
  {
    var after := UpdateExcursions(s, symbol, bar).openTrades;
    SumSame(after, FeesOf, s.openTrades, FeesOf);
    SumSame(after, LongCost, s.openTrades, LongCost);
  }

  lemma RecordBalances(initial: real, s: State, everyTenth: bool, bar: Bar, index: int)
    requires Balanced(s, initial)
    ensures Balanced(RecordEquity(s, everyTenth, bar, index), initial)
  {}

  lemma BarBalances(initial: real, s: State, c: Settings, symbol: string, side: Side, tick: Tick, index: int)
    requires Balanced(s, initial)
    ensures Balanced(BarStep(s, c, symbol, side, tick, index), initial)
  {
    var s0 := WarmUp(s, c, index);
    assert Balanced(s0, initial);
    SweepBalances(initial, s0, 0, ExitsOf(c.exits, tick.bar, index, symbol), index);
    var s1 := Sweep(s0, 0, ExitsOf(c.exits, tick.bar, index, symbol), index);
    EntryBalances(initial, s1, c, symbol, side, tick.bar, index);
    var s2 := if s1.warm && tick.enter then ProcessEntry(s1, c, symbol, side, tick.bar, index) else s1;
    SweepBalances(initial, s2, 0, SignalRule(tick.bar, symbol), index);
    var s3 := if s2.warm && tick.leave then Sweep(s2, 0, SignalRule(tick.bar, symbol), index) else s2;
    ExcursionsBalance(initial, s3, symbol, tick.bar);
    RecordBalances(initial, UpdateExcursions(s3, symbol, tick.bar), c.everyTenth, tick.bar, index);
  }

  /** The identity holds after every bar of every feed, and after the final closes. */
  lemma RunsBalance(initial: real, c: Settings, feeds: seq<Feed>, side: Side)
    ensures Balanced(RunFeeds(Start(initial), c, feeds, side), initial)
    ensures Balanced(Run(initial, c, feeds, side), initial)
  {
    var p := (t: State) => Balanced(t, initial);
    forall t: State, m: nat, k: nat | m < |feeds| && k < |feeds[m].ticks| && p(t)
      ensures p(BarOf(c, feeds[m], side)(t, k))
    {
      BarBalances(initial, t, c, feeds[m].symbol, side, feeds[m].ticks[k], k);
    }
    FeedsKeep(p, Start(initial), c, feeds, side);
    var last := RunFeeds(Start(initial), c, feeds, side);
    forall m: nat | m < |feeds| && feeds[m].ticks != []
      ensures p(Sweep(last, 0, EndRule(feeds[m].ticks[|feeds[m].ticks| - 1].bar), |feeds[m].ticks| - 1))
    {
      SweepBalances(initial, last, 0, EndRule(feeds[m].ticks[|feeds[m].ticks| - 1].bar), |feeds[m].ticks| - 1);
    }
    CloseOutKeeps(p, last, feeds);
  }

  // ---- Everything is closed at the end ----

  lemma {:induction false} EndRuleClosesAll(s: State, k: nat, bar: Bar, index: int)
    requires k <= |s.openTrades|
    ensures Sweep(s, k, EndRule(bar), index).openTrades == s.openTrades[..k]
    decreases |s.openTrades| - k
  {
    if k < |s.openTrades| {
      EndRuleClosesAll(CloseAt(s, k, bar.close, index, EndOfData), k, bar, index);
    }
  }

  lemma {:induction false} NothingOpenWithoutBars(s: State, c: Settings, feeds: seq<Feed>, side: Side)
    requires forall k :: 0 <= k < |feeds| ==> feeds[k].ticks == []
    ensures RunFeeds(s, c, feeds, side) == s && CloseOut(s, feeds) == s
    decreases |feeds|
  {
    if feeds != [] {
      NothingOpenWithoutBars(s, c, feeds[1..], side);
    }
  }

  lemma {:induction false} CloseOutClosesAll(s: State, feeds: seq<Feed>)
    requires exists k :: 0 <= k < |feeds| && feeds[k].ticks != []
    ensures CloseOut(s, feeds).openTrades == []
    decreases |feeds|
  {
    if feeds[0].ticks == [] {
      var k :| 0 <= k < |feeds| && feeds[k].ticks != [];
      assert feeds[1..][k - 1] == feeds[k];
      CloseOutClosesAll(s, feeds[1..]);
    } else {
      EndRuleClosesAll(s, 0, feeds[0].ticks[|feeds[0].ticks| - 1].bar, |feeds[0].ticks| - 1);
    }
  }

  /** Net profit as the metrics report it. */
  ghost function NetPnl(s: State): real {
    SumOver(s.closedTrades, PnlOf) - SumOver(s.closedTrades, FeesOf)
  }

  /** Every run, over any number of symbols, ends with nothing open and with cash equal to the
    * initial capital plus the reported net profit, plus the entry value of every short. */
  lemma FinalCash(initial: real, c: Settings, feeds: seq<Feed>, side: Side)
    ensures var s := Run(initial, c, feeds, side);
            s.openTrades == [] && s.cash == initial + NetPnl(s) + SumOver(s.closedTrades, ShortCost)
  {
    var start := Start(initial);
    RunsBalance(initial, c, feeds, side);
    if forall k :: 0 <= k < |feeds| ==> feeds[k].ticks == [] {
      NothingOpenWithoutBars(start, c, feeds, side);
    } else {
      CloseOutClosesAll(RunFeeds(start, c, feeds, side), feeds);
    }
  }

  // ---- Sides ----

  /** Every trade of the run is on one side and has a quantity, and a positive entry price where
    * prices are known to be above the slippage. */
  predicate OneSided(s: State, side: Side, priced: bool) {
    && (forall t :: t in s.openTrades ==> Proper(t, side, priced))
    && (forall t :: t in s.closedTrades ==> Proper(t, side, priced))
  }

  predicate Proper(t: Trade, side: Side, priced: bool) {
    t.side == side && t.quantity > 0.0 && (priced ==> t.entryPrice > 0.0)
  }

  predicate AboveSlippage(bar: Bar, symbol: string) {
    bar.close > 0.5 * PipValue(symbol)
  }

  /** Every bar closes above half a pip. */
  predicate PricedFeeds(feeds: seq<Feed>) {
    forall m: nat, k: nat :: m < |feeds| && k < |feeds[m].ticks| ==> AboveSlippage(feeds[m].ticks[k].bar, feeds[m].symbol)
  }

  lemma {:induction false} SweepKeepsSide(s: State, k: nat, rule: Trade -> Exit, index: int, side: Side, priced: bool)
    requires k <= |s.openTrades| && OneSided(s, side, priced)
    ensures OneSided(Sweep(s, k, rule, index), side, priced)
    decreases |s.openTrades| - k
  {
    if k < |s.openTrades| {
      match rule(s.openTrades[k])
      case Stay => SweepKeepsSide(s, k + 1, rule, index, side, priced);
      case Leave(price, reason) =>
        assert Proper(s.openTrades[k], side, priced);
        assert Proper(Closed(s.openTrades[k], price, index, reason), side, priced);
        SweepKeepsSide(CloseAt(s, k, price, index, reason), k, rule, index, side, priced);
    }
  }

  lemma EntryKeepsSide(s: State, c: Settings, symbol: string, side: Side, bar: Bar, index: int, priced: bool)
    requires OneSided(s, side, priced) && (priced ==> AboveSlippage(bar, symbol))
    ensures OneSided(ProcessEntry(s, c, symbol, side, bar, index), side, priced)
  {
    SweepKeepsSide(s, 0, OppositeRule(bar, symbol, side), index, side, priced);
  }

  lemma FinishKeepsSide(s: State, everyTenth: bool, symbol: string, bar: Bar, index: int, side: Side, priced: bool)
    requires OneSided(s, side, priced)
    ensures OneSided(RecordEquity(UpdateExcursions(s, symbol, bar), everyTenth, bar, index), side, priced)
  {
    var after := UpdateExcursions(s, symbol, bar).openTrades;
    forall t | t in after ensures Proper(t, side, priced) {
      var k :| 0 <= k < |after| && after[k] == t;
      assert s.openTrades[k] in s.openTrades;
    }
  }

  lemma BarKeepsSide(s: State, c: Settings, symbol: string, side: Side, tick: Tick, index: int, priced: bool)
    requires OneSided(s, side, priced) && (priced ==> AboveSlippage(tick.bar, symbol))
    ensures OneSided(BarStep(s, c, symbol, side, tick, index), side, priced)
  {
    var s0 := WarmUp(s, c, index);
    SweepKeepsSide(s0, 0, ExitsOf(c.exits, tick.bar, index, symbol), index, side, priced);
    var s1 := Sweep(s0, 0, ExitsOf(c.exits, tick.bar, index, symbol), index);
    EntryKeepsSide(s1, c, symbol, side, tick.bar, index, priced);
    var s2 := if s1.warm && tick.enter then ProcessEntry(s1, c, symbol, side, tick.bar, index) else s1;
    SweepKeepsSide(s2, 0, SignalRule(tick.bar, symbol), index, side, priced);
    FinishKeepsSide(TradeStep(s, c, symbol, side, tick, index), c.everyTenth, symbol, tick.bar, index, side, priced);
  }

  lemma FeedsAreOneSided(initial: real, c: Settings, feeds: seq<Feed>, side: Side, priced: bool)
    requires priced ==> PricedFeeds(feeds)
    ensures OneSided(RunFeeds(Start(initial), c, feeds, side), side, priced)
  {
    var p := (t: State) => OneSided(t, side, priced);
    forall t: State, m: nat, k: nat | m < |feeds| && k < |feeds[m].ticks| && p(t)
      ensures p(BarOf(c, feeds[m], side)(t, k))
    {
      BarKeepsSide(t, c, feeds[m].symbol, side, feeds[m].ticks[k], k, priced);
    }
    FeedsKeep(p, Start(initial), c, feeds, side);
    assert p(RunFeeds(Start(initial), c, feeds, side));
  }

  lemma CloseOutKeepsSide(s: State, feeds: seq<Feed>, side: Side, priced: bool)
    requires OneSided(s, side, priced)
    ensures OneSided(CloseOut(s, feeds), side, priced)
  {
    var p := (t: State) => OneSided(t, side, priced);
    forall m: nat | m < |feeds| && feeds[m].ticks != []
      ensures p(Sweep(s, 0, EndRule(feeds[m].ticks[|feeds[m].ticks| - 1].bar), |feeds[m].ticks| - 1))
    {
      SweepKeepsSide(s, 0, EndRule(feeds[m].ticks[|feeds[m].ticks| - 1].bar), |feeds[m].ticks| - 1, side, priced);
    }
    CloseOutKeeps(p, s, feeds);
    assert p(CloseOut(s, feeds));
  }

  lemma RunsAreOneSided(initial: real, c: Settings, feeds: seq<Feed>, side: Side, priced: bool)
    requires priced ==> PricedFeeds(feeds)
    ensures OneSided(Run(initial, c, feeds, side), side, priced)
  {
    FeedsAreOneSided(initial, c, feeds, side, priced);
    CloseOutKeepsSide(RunFeeds(Start(initial), c, feeds, side), feeds, side, priced);
  }

  lemma {:induction false} LongsHaveNoShortCost(trades: seq<Trade>)
    requires forall t :: t in trades ==> t.side == Long
    ensures SumOver(trades, ShortCost) == 0.0
  {
    if trades != [] {
      assert trades[0] in trades;
      LongsHaveNoShortCost(trades[1..]);
    }
  }

  lemma {:induction false} ShortsHaveCost(trades: seq<Trade>)
    requires forall t :: t in trades ==> Proper(t, Short, true)
    ensures SumOver(trades, ShortCost) >= 0.0 && (SumOver(trades, ShortCost) == 0.0 <==> trades == [])
  {
    if trades != [] {
      assert trades[0] in trades;
      ProductPositive(trades[0].entryPrice, trades[0].quantity);
      ShortsHaveCost(trades[1..]);
    }
  }

  /** A long run's final cash is its initial capital plus its reported net profit. A short run's,
    * on prices above half a pip, is exactly when no warmed-up tick makes it enter: a closing short
    * returns an entry value that opening it never took. */
  lemma FinalCashIsNetPnlIff(initial: real, c: Settings, feeds: seq<Feed>, side: Side)
    ensures var s := Run(initial, c, feeds, side);
            && (side == Long ==> s.cash == initial + NetPnl(s))
            && (side == Short && PricedFeeds(feeds) ==>
                  (s.cash == initial + NetPnl(s) <==> NeverEnters(c, initial, feeds, false)))
  {
    var s := Run(initial, c, feeds, side);
    FinalCash(initial, c, feeds, side);
    RunsAreOneSided(initial, c, feeds, side, side == Short && PricedFeeds(feeds));
    if side == Long {
      LongsHaveNoShortCost(s.closedTrades);
    } else if PricedFeeds(feeds) {
      ShortsHaveCost(s.closedTrades);
      RunTradesIff(initial, c, feeds, side);
    }
  }

  /** A short run that enters ends with more cash than it earned. */
  lemma EnteringShortOverstates(initial: real, c: Settings, feeds: seq<Feed>)
    requires PricedFeeds(feeds) && !NeverEnters(c, initial, feeds, false)
    ensures var s := Run(initial, c, feeds, Short); s.closedTrades != [] && s.cash > initial + NetPnl(s)
  {
    FinalCash(initial, c, feeds, Short);
    RunTradesIff(initial, c, feeds, Short);
    RunsAreOneSided(initial, c, feeds, Short, true);
    ShortsHaveCost(Run(initial, c, feeds, Short).closedTrades);
  }

  /** One short, sold at ten and held to the end: the run ends with more cash than it earned. */
  lemma ShortRunOverstatesCash()
    ensures var c := Settings(Fixed(1.0), ExitConfig(0.0, 0.0, 0, false), false, 0);
            var s := Run(100.0, c, [Feed("EUR_USD", [Tick(Bar(10.0, 10.0, 10.0), true, false)])], Short);
            s.closedTrades != [] && s.cash > 100.0 + NetPnl(s)
  {
    var c := Settings(Fixed(1.0), ExitConfig(0.0, 0.0, 0, false), false, 0);
    var feeds := [Feed("EUR_USD", [Tick(Bar(10.0, 10.0, 10.0), true, false)])];
    assert Enters(c, 100.0, feeds[0].symbol, feeds[0].ticks[0]) && !NeverEnters(c, 100.0, feeds, false);
    EnteringShortOverstates(100.0, c, feeds);
  }

  // ---- The Python runner keeps the same ledger ----

  lemma {:induction false} SignalsBalance(initial: real, s: State, sizing: Option<Sizing>, signals: seq<Signal>, bar: Bar, index: int)
    requires Balanced(s, initial)
    ensures Balanced(ProcessSignals(s, sizing, signals, bar, index), initial)
    decreases |signals|
  {
    if signals != [] {
      var signal := signals[0];
      var quantity := SignalQuantity(s, sizing, signal, bar);
      OpenBalances(initial, s, NewTrade(signal.symbol, signal.side, quantity, bar, index, signal.stopLoss, signal.takeProfit));
      SignalsBalance(initial, ProcessSignal(s, sizing, signal, bar, index), sizing, signals[1..], bar, index);
    }
  }

  lemma PythonBarBalances(initial: real, s: State, sizing: Option<Sizing>, everyTenth: bool, symbol: string, tick: PythonTick, index: int)
    requires Balanced(s, initial)
    ensures Balanced(PythonBarStep(s, sizing, everyTenth, symbol, tick, index), initial)
  {
    var s0 := if index >= 200 then s.(warm := true) else s;
    assert Balanced(s0, initial);
    SweepBalances(initial, s0, 0, LevelRule(tick.bar), index);
    var s1 := Sweep(s0, 0, LevelRule(tick.bar), index);
    SignalsBalance(initial, s1, sizing, tick.signals, tick.bar, index);
    var s2 := if s1.warm then ProcessSignals(s1, sizing, tick.signals, tick.bar, index) else s1;
    ExcursionsBalance(initial, s2, symbol, tick.bar);
    RecordBalances(initial, UpdateExcursions(s2, symbol, tick.bar), everyTenth, tick.bar, index);
  }

  lemma PythonFeedsBalance(initial: real, sizing: Option<Sizing>, everyTenth: bool, feeds: seq<PythonFeed>)
    ensures Balanced(PythonRunFeeds(Start(initial), sizing, everyTenth, feeds), initial)
  {
    var p := (t: State) => Balanced(t, initial);
    forall t: State, m: nat, k: nat | m < |feeds| && k < |feeds[m].ticks| && p(t)
      ensures p(PythonBarOf(sizing, everyTenth, feeds[m])(t, k))
    {
      PythonBarBalances(initial, t, sizing, everyTenth, feeds[m].symbol, feeds[m].ticks[k], k);
    }
    PythonFeedsKeep(p, Start(initial), sizing, everyTenth, feeds);
    assert p(PythonRunFeeds(Start(initial), sizing, everyTenth, feeds));
  }

  lemma {:induction false} PythonCloseOutBalances(initial: real, s: State, feeds: seq<PythonFeed>)
    requires Balanced(s, initial)
    ensures Balanced(PythonCloseOut(s, feeds), initial)
    ensures (exists k :: 0 <= k < |feeds| && feeds[k].ticks != []) ==> PythonCloseOut(s, feeds).openTrades == []
    decreases |feeds|
  {
    if feeds != [] {
      if feeds[0].ticks == [] {
        PythonCloseOutBalances(initial, s, feeds[1..]);
        if k :| 0 <= k < |feeds| && feeds[k].ticks != [] {
          assert feeds[1..][k - 1] == feeds[k];
        }
      } else {
        var last := feeds[0].ticks[|feeds[0].ticks| - 1].bar;
        SweepBalances(initial, s, 0, EndRule(last), |feeds[0].ticks| - 1);
        EndRuleClosesAll(s, 0, last, |feeds[0].ticks| - 1);
      }
    }
  }

  /** The Python runner's final cash, longs and shorts mixed. */
  lemma PythonFinalCash(initial: real, sizing: Option<Sizing>, everyTenth: bool, feeds: seq<PythonFeed>)
    requires exists k :: 0 <= k < |feeds| && feeds[k].ticks != []
    ensures var s := PythonRun(initial, sizing, everyTenth, feeds);
            s.openTrades == [] && s.cash == initial + NetPnl(s) + SumOver(s.closedTrades, ShortCost)
  {
    PythonFeedsBalance(initial, sizing, everyTenth, feeds);
    PythonCloseOutBalances(initial, PythonRunFeeds(Start(initial), sizing, everyTenth, feeds), feeds);
  }
}

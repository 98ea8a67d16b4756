/** Which runs trade at all, told from the settings and the bars. */
module BacktestEntries {
  import opened Reals
  import opened Sums
  import opened PositionRows
  import opened Backtest

  /** The run has traded: something is open or closed. */
  predicate Busy(s: State) {
    s.openTrades != [] || s.closedTrades != []
  }

  /** The run has not, so its cash is still the initial capital. */
  predicate Idle(s: State, initial: real) {
    !Busy(s) && s.cash == initial
  }

  /** The tick would make an idle, warmed-up run enter: its condition holds, and the size its
    * capital gives is positive and affordable. */
  predicate Enters(c: Settings, initial: real, symbol: string, tick: Tick) {
    var quantity := PositionSize(c.sizing, initial, tick.bar.close, symbol);
    tick.enter && quantity > 0.0 && tick.bar.close * quantity <= initial
  }

  predicate QuietFeed(c: Settings, initial: real, feed: Feed, warm: bool) {
    forall k :: 0 <= k < |feed.ticks| && (warm || k >= c.warmupBars) ==> !Enters(c, initial, feed.symbol, feed.ticks[k])
  }

  /** No warmed-up tick would make the run enter. The warm-up is counted on each symbol but, once
    * over, is over for all that follow. */
  predicate NeverEnters(c: Settings, initial: real, feeds: seq<Feed>, warm: bool)
    decreases |feeds|
  {
    feeds == [] ||
    (QuietFeed(c, initial, feeds[0], warm)
     && NeverEnters(c, initial, feeds[1..], warm || (feeds[0].ticks != [] && |feeds[0].ticks| - 1 >= c.warmupBars)))
  }

  // ---- A run that has traded has traded ----

  lemma {:induction false} SweepStaysBusy(s: State, k: nat, rule: Trade -> Exit, index: int)
    requires k <= |s.openTrades| && Busy(s)
    ensures Busy(Sweep(s, k, rule, index))
    decreases |s.openTrades| - k
  {
    if k < |s.openTrades| {
      match rule(s.openTrades[k])
      case Stay => SweepStaysBusy(s, k + 1, rule, index);
      case Leave(price, reason) =>
        var next := CloseAt(s, k, price, index, reason);
        assert next.closedTrades != [];
        SweepStaysBusy(next, k, rule, index);
    }
  }

  lemma EntryStaysBusy(s: State, c: Settings, symbol: string, side: Side, bar: Bar, index: int)
    requires Busy(s)
    ensures Busy(ProcessEntry(s, c, symbol, side, bar, index))
  {
    SweepStaysBusy(s, 0, OppositeRule(bar, symbol, side), index);
  }

  lemma FinishStaysBusy(s: State, everyTenth: bool, symbol: string, bar: Bar, index: int)
    ensures var t := RecordEquity(UpdateExcursions(s, symbol, bar), everyTenth, bar, index);
            |t.openTrades| == |s.openTrades| && t.closedTrades == s.closedTrades && t.cash == s.cash && t.warm == s.warm
  {
  }

  lemma BarStaysBusy(s: State, c: Settings, symbol: string, side: Side, tick: Tick, index: int)
    requires Busy(s)
    ensures Busy(BarStep(s, c, symbol, side, tick, index))
  {
    var s0 := WarmUp(s, c, index);
    SweepStaysBusy(s0, 0, ExitsOf(c.exits, tick.bar, index, symbol), index);
    var s1 := Sweep(s0, 0, ExitsOf(c.exits, tick.bar, index, symbol), index);
    EntryStaysBusy(s1, c, symbol, side, tick.bar, index);
    var s2 := if s1.warm && tick.enter then ProcessEntry(s1, c, symbol, side, tick.bar, index) else s1;
    SweepStaysBusy(s2, 0, SignalRule(tick.bar, symbol), index);
    FinishStaysBusy(TradeStep(s, c, symbol, side, tick, index), c.everyTenth, symbol, tick.bar, index);
  }

  // ---- An idle run ----

  lemma IdleEntry(s: State, c: Settings, initial: real, symbol: string, side: Side, tick: Tick, index: int)
    requires Idle(s, initial) && tick.enter
    ensures var t := ProcessEntry(s, c, symbol, side, tick.bar, index);
            if Enters(c, initial, symbol, tick) then Busy(t) else t == s
  {
    assert CurrentEquity(s, tick.bar) == initial;
  }

  lemma IdleBar(s: State, c: Settings, initial: real, symbol: string, side: Side, tick: Tick, index: int)
    requires Idle(s, initial)
    ensures var t := BarStep(s, c, symbol, side, tick, index);
            if (s.warm || index >= c.warmupBars) && Enters(c, initial, symbol, tick) then Busy(t)
            else Idle(t, initial) && t.warm == (s.warm || index >= c.warmupBars)
  {
    var s0 := WarmUp(s, c, index);
    if tick.enter {
      IdleEntry(s0, c, initial, symbol, side, tick, index);
      var s2 := ProcessEntry(s0, c, symbol, side, tick.bar, index);
      if Busy(s2) {
        SweepStaysBusy(s2, 0, SignalRule(tick.bar, symbol), index);
      }
    }
    FinishStaysBusy(TradeStep(s, c, symbol, side, tick, index), c.everyTenth, symbol, tick.bar, index);
  }

  /** After `k` bars of a feed: idle and as warm as the count says, or traded, depending on whether
    * one of those bars made it enter. */
  predicate Reached(s: State, c: Settings, initial: real, feed: Feed, warm: bool, k: nat) {
    if k <= |feed.ticks| && QuietFeed(c, initial, feed.(ticks := feed.ticks[..k]), warm)
    then Idle(s, initial) && s.warm == (warm || (k > 0 && k - 1 >= c.warmupBars))
    else Busy(s)
  }

  lemma QuietStep(c: Settings, initial: real, feed: Feed, warm: bool, k: nat)
    requires k < |feed.ticks|
    ensures QuietFeed(c, initial, feed.(ticks := feed.ticks[..k + 1]), warm) <==>
      && QuietFeed(c, initial, feed.(ticks := feed.ticks[..k]), warm)
      && !((warm || k >= c.warmupBars) && Enters(c, initial, feed.symbol, feed.ticks[k]))
  {
    var before, after := feed.(ticks := feed.ticks[..k]), feed.(ticks := feed.ticks[..k + 1]);
    assert forall j :: 0 <= j < k ==> before.ticks[j] == after.ticks[j];
    assert after.ticks[k] == feed.ticks[k];
  }

  lemma ReachedStep(s: State, c: Settings, initial: real, feed: Feed, side: Side, warm: bool, k: nat)
    requires k < |feed.ticks| && Reached(s, c, initial, feed, warm, k)
    ensures Reached(BarStep(s, c, feed.symbol, side, feed.ticks[k], k), c, initial, feed, warm, k + 1)
  {
    QuietStep(c, initial, feed, warm, k);
    if Busy(s) {
      BarStaysBusy(s, c, feed.symbol, side, feed.ticks[k], k);
    } else {
      IdleBar(s, c, initial, feed.symbol, side, feed.ticks[k], k);
    }
  }

  lemma FeedTradesIff(s: State, c: Settings, initial: real, feed: Feed, side: Side)
    requires Idle(s, initial)
    ensures Reached(RunBars(s, c, feed, side, |feed.ticks|), c, initial, feed, s.warm, |feed.ticks|)
  {
    var p: (State, nat) -> bool := (t: State, k: nat) => Reached(t, c, initial, feed, s.warm, k);
    forall t: State, k: nat | k < |feed.ticks| && p(t, k) ensures p(BarOf(c, feed, side)(t, k), k + 1) {
      ReachedStep(t, c, initial, feed, side, s.warm, k);
    }
    BarsAdvance(p, s, c, feed, side, |feed.ticks|);
    assert p(RunBars(s, c, feed, side, |feed.ticks|), |feed.ticks|);
  }

  lemma FeedsStayBusy(s: State, c: Settings, feeds: seq<Feed>, side: Side)
    requires Busy(s)
    ensures Busy(RunFeeds(s, c, feeds, side))
  {
    forall t: State, m: nat, k: nat | m < |feeds| && k < |feeds[m].ticks| && Busy(t) ensures Busy(BarOf(c, feeds[m], side)(t, k)) {
      BarStaysBusy(t, c, feeds[m].symbol, side, feeds[m].ticks[k], k);
    }
    FeedsKeep(Busy, s, c, feeds, side);
  }

  /** An idle run goes on to trade exactly when some warmed-up tick makes it enter. */
  lemma {:induction false} FeedsTradeIff(s: State, c: Settings, initial: real, feeds: seq<Feed>, side: Side)
    requires Idle(s, initial)
    ensures Busy(RunFeeds(s, c, feeds, side)) <==> !NeverEnters(c, initial, feeds, s.warm)
    decreases |feeds|
  {
    if feeds != [] {
      var feed := feeds[0];
      var after := RunBars(s, c, feed, side, |feed.ticks|);
      FeedTradesIff(s, c, initial, feed, side);
      assert feed.(ticks := feed.ticks[..|feed.ticks|]) == feed;
      if Busy(after) {
        FeedsStayBusy(after, c, feeds[1..], side);
      } else {
        FeedsTradeIff(after, c, initial, feeds[1..], side);
      }
    }
  }

  lemma {:induction false} CloseOutStaysBusy(s: State, feeds: seq<Feed>)
    ensures Busy(CloseOut(s, feeds)) <==> Busy(s)
    decreases |feeds|
  {
    if feeds != [] {
      if feeds[0].ticks == [] {
        CloseOutStaysBusy(s, feeds[1..]);
      } else if Busy(s) {
        SweepStaysBusy(s, 0, EndRule(feeds[0].ticks[|feeds[0].ticks| - 1].bar), |feeds[0].ticks| - 1);
      }
    }
  }

  /** A whole run trades exactly when some warmed-up tick would make it enter on its initial
    * capital. */
  lemma RunTradesIff(initial: real, c: Settings, feeds: seq<Feed>, side: Side)
    ensures Busy(Run(initial, c, feeds, side)) <==> !NeverEnters(c, initial, feeds, false)
  {
    FeedsTradeIff(Start(initial), c, initial, feeds, side);
    CloseOutStaysBusy(RunFeeds(Start(initial), c, feeds, side), feeds);
  }

  // ---- What an entry buys or sells ----

  /** What each sizing is worth: so many units, so much cash, a percentage of equity, or so much that
    * the stop's distance loses a percentage of equity. */
  predicate SizeIs(sizing: Sizing, equity: real, price: real, symbol: string, q: real) {
    match sizing
    case Fixed(amount) => q == amount
    case FixedCash(amount) => if price > 0.0 then q * price == amount else q == 0.0
    case PercentEquity(percent) => if price > 0.0 then q * price * 100.0 == equity * percent else q == 0.0
    case PercentRisk(percent, stopPips) =>
      if stopPips > 0.0 then q * (stopPips * PipValue(symbol)) * 100.0 == equity * percent else q == 0.0
  }

  lemma ShareOf(equity: real, percent: real, unit: real)
    requires unit != 0.0
    ensures equity * percent / 100.0 / unit * unit * 100.0 == equity * percent
  {
    DivMul(equity * percent / 100.0, unit);
    DivMul(equity * percent, 100.0);
  }

  lemma PositionSizeMeans(sizing: Sizing, equity: real, price: real, symbol: string)
    ensures SizeIs(sizing, equity, price, symbol, PositionSize(sizing, equity, price, symbol))
  {
    match sizing
    case FixedCash(amount) =>
      if price > 0.0 { DivMul(amount, price); }
    case PercentEquity(percent) =>
      if price > 0.0 { ShareOf(equity, percent, price); }
    case PercentRisk(percent, stopPips) =>
      if stopPips > 0.0 {
        ProductPositive(stopPips, PipValue(symbol));
        ShareOf(equity, percent, stopPips * PipValue(symbol));
      }
    case _ =>
  }

  lemma SizeIsOne(sizing: Sizing, equity: real, price: real, symbol: string, q: real, r: real)
    requires SizeIs(sizing, equity, price, symbol, q) && SizeIs(sizing, equity, price, symbol, r)
    ensures q == r
  {
    match sizing
    case FixedCash(amount) =>
      if price > 0.0 { Cancel(q, r, price); }
    case PercentEquity(percent) =>
      if price > 0.0 { Cancel(q, r, price); }
    case PercentRisk(percent, stopPips) =>
      if stopPips > 0.0 {
        ProductPositive(stopPips, PipValue(symbol));
        Cancel(q, r, stopPips * PipValue(symbol));
      }
    case _ =>
  }

  lemma SizeIsPositionSize(sizing: Sizing, equity: real, price: real, symbol: string, q: real)
    requires SizeIs(sizing, equity, price, symbol, q)
    ensures q == PositionSize(sizing, equity, price, symbol)
  {
    PositionSizeMeans(sizing, equity, price, symbol);
    SizeIsOne(sizing, equity, price, symbol, q, PositionSize(sizing, equity, price, symbol));
  }

  /** The run has taken one more trade, half a pip off the close, paid for with its value if long and
    * with two hundredths of a percent of it as fees. */
  predicate Takes(s: State, after: State, symbol: string, side: Side, q: real, bar: Bar, index: int) {
    && |after.openTrades| == |s.openTrades| + 1 && after.openTrades[..|s.openTrades|] == s.openTrades
    && var t := after.openTrades[|s.openTrades|];
    && t.symbol == symbol && t.side == side && t.quantity == q && t.entryIndex == index && t.outcome == None
    && t.entryPrice == (if side == Long then bar.close + 0.5 * PipValue(symbol) else bar.close - 0.5 * PipValue(symbol))
    && t.fees * 5000.0 == t.entryPrice * q
    && after.cash == s.cash - t.fees - (if side == Long then t.entryPrice * q else 0.0)
    && after == s.(openTrades := after.openTrades, cash := after.cash, traded := true)
  }

  predicate NoneHeld(trades: seq<Trade>, symbol: string, side: Side) {
    forall k :: 0 <= k < |trades| ==> trades[k].symbol != symbol || trades[k].side != side
  }

  /** What opening a trade of a given quantity does to the run. */
  lemma OpeningTakes(s: State, symbol: string, side: Side, q: real, bar: Bar, index: int, stop: Option<real>, target: Option<real>)
    ensures Takes(s, OpenTrade(s, NewTrade(symbol, side, q, bar, index, stop, target)), symbol, side, q, bar, index)
  {
  }

  /** An entry is taken exactly when nothing of its symbol and side is held, its size is positive and
    * the cash covers that size at the close; and for that size. */
  lemma EntryIsTakenIff(s: State, c: Settings, symbol: string, side: Side, bar: Bar, index: int, q: real)
    requires SizeIs(c.sizing, CurrentEquity(s, bar), bar.close, symbol, q)
    ensures var after := EntryUnlessHeld(s, c, symbol, side, bar, index);
            if NoneHeld(s.openTrades, symbol, side) && q > 0.0 && bar.close * q <= s.cash
            then after == OpenTrade(s, NewTrade(symbol, side, q, bar, index, None, None)) else after == s
  {
    SizeIsPositionSize(c.sizing, CurrentEquity(s, bar), bar.close, symbol, q);
    assert EntryQuantity(s, c.sizing, symbol, side, bar)
      == if Holds(s.openTrades, symbol, side) || q <= 0.0 || bar.close * q > s.cash then 0.0 else q;
  }

  /** The quantity a strategy's signal stands for: its own if positive, else the run's sizing, else
    * ten thousand units. */
  ghost predicate Stands(s: State, sizing: Option<Sizing>, signal: Signal, bar: Bar, q: real) {
    if signal.quantity.Some? && signal.quantity.value > 0.0 then q == signal.quantity.value
    else if sizing.Some? then SizeIs(sizing.value, CurrentEquity(s, bar), bar.close, signal.symbol, q)
    else q == 10000.0
  }

  /** A signal is taken exactly when nothing of its symbol and side is held, its quantity is positive
    * and, for a long only, the cash covers it; with the levels it sets. */
  lemma SignalIsTakenIff(s: State, sizing: Option<Sizing>, signal: Signal, bar: Bar, index: int, q: real)
    requires Stands(s, sizing, signal, bar, q)
    ensures var after := ProcessSignal(s, sizing, signal, bar, index);
            if NoneHeld(s.openTrades, signal.symbol, signal.side) && q > 0.0 && (signal.side == Long ==> bar.close * q <= s.cash)
            then after == OpenTrade(s, NewTrade(signal.symbol, signal.side, q, bar, index, signal.stopLoss, signal.takeProfit))
            else after == s
  {
    if sizing.Some? && !(signal.quantity.Some? && signal.quantity.value > 0.0) {
      SizeIsPositionSize(sizing.value, CurrentEquity(s, bar), bar.close, signal.symbol, q);
    }
  }

  // ---- One trade for each symbol and side ----

  predicate OnePerSide(trades: seq<Trade>) {
    forall i, j :: 0 <= i < j < |trades| ==> trades[i].symbol != trades[j].symbol || trades[i].side != trades[j].side
  }

  lemma {:induction false} SweepKeepsOne(s: State, k: nat, rule: Trade -> Exit, index: int)
    requires k <= |s.openTrades| && OnePerSide(s.openTrades)
    ensures OnePerSide(Sweep(s, k, rule, index).openTrades)
    decreases |s.openTrades| - k
  {
    if k < |s.openTrades| {
      match rule(s.openTrades[k])
      case Stay => SweepKeepsOne(s, k + 1, rule, index);
      case Leave(price, reason) => SweepKeepsOne(CloseAt(s, k, price, index, reason), k, rule, index);
    }
  }

  lemma EntryKeepsOne(s: State, c: Settings, symbol: string, side: Side, bar: Bar, index: int)
    requires OnePerSide(s.openTrades)
    ensures OnePerSide(ProcessEntry(s, c, symbol, side, bar, index).openTrades)
  {
    SweepKeepsOne(s, 0, OppositeRule(bar, symbol, side), index);
  }

  lemma TradesKeepOne(s: State, c: Settings, symbol: string, side: Side, tick: Tick, index: int)
    requires OnePerSide(s.openTrades)
    ensures OnePerSide(TradeStep(s, c, symbol, side, tick, index).openTrades)
  {
    var s0 := WarmUp(s, c, index);
    SweepKeepsOne(s0, 0, ExitsOf(c.exits, tick.bar, index, symbol), index);
    var s1 := Sweep(s0, 0, ExitsOf(c.exits, tick.bar, index, symbol), index);
    EntryKeepsOne(s1, c, symbol, side, tick.bar, index);
    var s2 := if s1.warm && tick.enter then ProcessEntry(s1, c, symbol, side, tick.bar, index) else s1;
    SweepKeepsOne(s2, 0, SignalRule(tick.bar, symbol), index);
  }

  lemma AgingKeepsOne(s: State, everyTenth: bool, symbol: string, bar: Bar, index: int)
    requires OnePerSide(s.openTrades)
    ensures OnePerSide(RecordEquity(UpdateExcursions(s, symbol, bar), everyTenth, bar, index).openTrades)
  {
    var after := UpdateExcursions(s, symbol, bar).openTrades;
    assert forall k :: 0 <= k < |after| ==> after[k].symbol == s.openTrades[k].symbol && after[k].side == s.openTrades[k].side;
  }

  lemma BarKeepsOne(s: State, c: Settings, symbol: string, side: Side, tick: Tick, index: int)
    requires OnePerSide(s.openTrades)
    ensures OnePerSide(BarStep(s, c, symbol, side, tick, index).openTrades)
  {
    TradesKeepOne(s, c, symbol, side, tick, index);
    AgingKeepsOne(TradeStep(s, c, symbol, side, tick, index), c.everyTenth, symbol, tick.bar, index);
  }

  lemma {:induction false} SignalsKeepOne(s: State, sizing: Option<Sizing>, signals: seq<Signal>, bar: Bar, index: int)
    requires OnePerSide(s.openTrades)
    ensures OnePerSide(ProcessSignals(s, sizing, signals, bar, index).openTrades)
    decreases |signals|
  {
    if signals != [] {
      SignalsKeepOne(ProcessSignal(s, sizing, signals[0], bar, index), sizing, signals[1..], bar, index);
    }
  }

  lemma PythonBarKeepsOne(s: State, sizing: Option<Sizing>, everyTenth: bool, symbol: string, tick: PythonTick, index: int)
    requires OnePerSide(s.openTrades)
    ensures OnePerSide(PythonBarStep(s, sizing, everyTenth, symbol, tick, index).openTrades)
  {
    var s0 := if index >= 200 then s.(warm := true) else s;
    SweepKeepsOne(s0, 0, LevelRule(tick.bar), index);
    var s1 := Sweep(s0, 0, LevelRule(tick.bar), index);
    SignalsKeepOne(s1, sizing, tick.signals, tick.bar, index);
    AgingKeepsOne(if s1.warm then ProcessSignals(s1, sizing, tick.signals, tick.bar, index) else s1, everyTenth, symbol, tick.bar, index);
  }

  /** No run of either runner ever holds two trades of one symbol and side. */
  lemma RunsHoldOnePerSide(initial: real, c: Settings, feeds: seq<Feed>, side: Side,
                           sizing: Option<Sizing>, everyTenth: bool, pythonFeeds: seq<PythonFeed>)
    ensures OnePerSide(RunFeeds(Start(initial), c, feeds, side).openTrades)
    ensures OnePerSide(PythonRunFeeds(Start(initial), sizing, everyTenth, pythonFeeds).openTrades)
  {
    var p := (t: State) => OnePerSide(t.openTrades);
    forall t: State, m: nat, k: nat | m < |feeds| && k < |feeds[m].ticks| && p(t)
      ensures p(BarOf(c, feeds[m], side)(t, k))
    {
      BarKeepsOne(t, c, feeds[m].symbol, side, feeds[m].ticks[k], k);
    }
    FeedsKeep(p, Start(initial), c, feeds, side);
    assert p(RunFeeds(Start(initial), c, feeds, side));
    forall t: State, m: nat, k: nat | m < |pythonFeeds| && k < |pythonFeeds[m].ticks| && p(t)
      ensures p(PythonBarOf(sizing, everyTenth, pythonFeeds[m])(t, k))
    {
      PythonBarKeepsOne(t, sizing, everyTenth, pythonFeeds[m].symbol, pythonFeeds[m].ticks[k], k);
    }
    PythonFeedsKeep(p, Start(initial), sizing, everyTenth, pythonFeeds);
    assert p(PythonRunFeeds(Start(initial), sizing, everyTenth, pythonFeeds));
  }
}

/** The condition backtest as it runs: trade records and run state updated in place. Every
  * method is proved against the step functions of the engine. */
module BacktestRunner {
  import opened Sums
  import opened PositionRows
  import opened Backtest
  import BacktestBounds

  class TradeRecord {
    const symbol: string
    const side: Side
    const quantity: real
    const entryPrice: real
    const entryIndex: int
    const fees: real
    const stopLoss: Option<real>
    const takeProfit: Option<real>
    var maxFavorable: real
    var maxAdverse: real
    var outcome: Option<Outcome>

    function View(): Trade
      reads this
    {
      Trade(symbol, side, quantity, entryPrice, entryIndex, fees, stopLoss, takeProfit, maxFavorable, maxAdverse, outcome)
    }

    constructor (t: Trade)
      ensures View() == t
    {
      symbol, side, quantity, entryPrice := t.symbol, t.side, t.quantity, t.entryPrice;
      entryIndex, fees, stopLoss, takeProfit := t.entryIndex, t.fees, t.stopLoss, t.takeProfit;
      maxFavorable, maxAdverse, outcome := t.maxFavorable, t.maxAdverse, t.outcome;
    }

    method UpdateExcursion(bar: Bar)
      modifies this`maxFavorable, this`maxAdverse
      ensures View() == Excursion(old(View()), bar)
    {
      var favorable, adverse;
      if side == Long {
        favorable := bar.high - entryPrice;
        adverse := entryPrice - bar.low;
      } else {
        favorable := entryPrice - bar.low;
        adverse := bar.high - entryPrice;
      }
      maxFavorable := Max(maxFavorable, favorable);
      maxAdverse := Max(maxAdverse, adverse);
    }

    /** Fills in the exit columns and says what the close brings in. */
    method Close(exitPrice: real, index: int, reason: Reason) returns (proceeds: real)
      modifies this`outcome
      ensures View() == Closed(old(View()), exitPrice, index, reason)
      ensures proceeds == Proceeds(old(View()), exitPrice)
    {
      var pnl;
      if side == Long {
        pnl := (exitPrice - entryPrice) * quantity;
        proceeds := exitPrice * quantity;
      } else {
        pnl := (entryPrice - exitPrice) * quantity;
        proceeds := entryPrice * quantity + pnl;
      }
      assert pnl == Pnl(View(), exitPrice);
      outcome := Some(Outcome(exitPrice, index, reason, pnl, index - entryIndex));
    }

    method EntryCost() returns (cost: real)
      ensures cost == OpeningCost(View())
    {
      if side == Long {
        cost := entryPrice * quantity + fees;
      } else {
        cost := fees;
      }
    }
  }

  predicate Distinct(records: seq<TradeRecord>) {
    forall j, k :: 0 <= j < k < |records| ==> records[j] != records[k]
  }

  predicate Shows(records: seq<TradeRecord>, trades: seq<Trade>)
    reads records
  {
    |records| == |trades| && forall k :: 0 <= k < |records| ==> records[k].View() == trades[k]
  }

  lemma RemovalShows(records: seq<TradeRecord>, trades: seq<Trade>, k: nat)
    requires Distinct(records) && |records| == |trades| && k < |records|
    requires forall j :: 0 <= j < |records| && j != k ==> records[j].View() == trades[j]
    ensures Distinct(records[..k] + records[k + 1..])
    ensures Shows(records[..k] + records[k + 1..], trades[..k] + trades[k + 1..])
  {
  }

  lemma AdditionShows(records: seq<TradeRecord>, trades: seq<Trade>, record: TradeRecord)
    requires Distinct(records) && Shows(records, trades) && record !in records
    ensures Distinct(records + [record]) && Shows(records + [record], trades + [record.View()])
  {
  }

  /** `step` takes the engine step for each bar of the feed. */
  ghost predicate StepsThrough(step: (State, nat) -> State, c: Settings, feed: Feed, side: Side) {
    forall s: State, k: nat {:trigger BarStep(s, c, feed.symbol, side, feed.ticks[k], k)} ::
      k < |feed.ticks| ==> step(s, k) == BarStep(s, c, feed.symbol, side, feed.ticks[k], k)
  }

  class Runner {
    const settings: Settings
    var cash: real
    var openPositions: seq<TradeRecord>
    var closedTrades: seq<Trade>
    var equityPoints: seq<EquityPoint>
    var peakEquity: real
    var barsProcessed: nat
    var warmupComplete: bool
    var tradeOccurred: bool
    /** The engine state this object stands for. */
    ghost var state: State
    /** The trade records this object has made. */
    ghost var records: set<TradeRecord>

    ghost predicate Valid()
      reads this, openPositions
    {
      && (forall r :: r in openPositions ==> r in records)
      && Distinct(openPositions) && Shows(openPositions, state.openTrades)
      && state == State(cash, state.openTrades, closedTrades, equityPoints, peakEquity, barsProcessed, warmupComplete, tradeOccurred)
    }

    constructor (settings: Settings, initialCapital: real)
      ensures Valid() && fresh(records) && state == Start(initialCapital) && this.settings == settings
    {
      this.settings := settings;
      cash, peakEquity := initialCapital, initialCapital;
      openPositions, closedTrades, equityPoints := [], [], [];
      barsProcessed, warmupComplete, tradeOccurred := 0, false, false;
      state, records := Start(initialCapital), {};
    }

    method TakeOut(pos: TradeRecord, ghost k: nat, ghost trades: seq<Trade>)
      requires Distinct(openPositions) && k < |openPositions| == |trades| && openPositions[k] == pos
      requires forall j :: 0 <= j < |openPositions| && j != k ==> openPositions[j].View() == trades[j]
      modifies this`openPositions
      ensures openPositions == old(openPositions[..k] + openPositions[k + 1..])
      ensures Distinct(openPositions) && Shows(openPositions, trades[..k] + trades[k + 1..])
    {
      RemovalShows(openPositions, trades, k);
      var j := 0;
      while openPositions[j] != pos
        invariant 0 <= j <= k
        decreases k - j
      {
        j := j + 1;
      }
      openPositions := openPositions[..j] + openPositions[j + 1..];
    }

    /** Closes one open record, returns its cash and puts the finished trade on the closed list. */
    method ClosePosition(pos: TradeRecord, exitPrice: real, index: int, reason: Reason, ghost k: nat)
      requires Valid() && k < |openPositions| && openPositions[k] == pos
      modifies this`cash, this`openPositions, this`closedTrades, this`tradeOccurred, this`state, pos`outcome
      ensures Valid() && openPositions == old(openPositions[..k] + openPositions[k + 1..])
      ensures state == CloseAt(old(state), k, exitPrice, index, reason)
    {
      var proceeds := pos.Close(exitPrice, index, reason);
      TakeOut(pos, k, state.openTrades);
      cash := cash + proceeds;
      closedTrades := closedTrades + [pos.View()];
      tradeOccurred := true;
      state := CloseAt(state, k, exitPrice, index, reason);
    }

    /** Stop loss first, then take profit, then the time limit. */
    method ApplyExitRule(pos: TradeRecord, bar: Bar, index: int, symbol: string) returns (exit: Exit)
      ensures exit == ExitRule(settings.exits, bar, index, symbol, pos.View())
    {
      var exits := settings.exits;
      if pos.symbol != symbol {
        return Stay;
      }
      if exits.stopLossPips != 0.0 {
        var stop := StopLevel(exits, symbol, pos.side, pos.entryPrice);
        if pos.side == Long && bar.low <= stop { return Leave(stop, StopLoss); }
        if pos.side == Short && bar.high >= stop { return Leave(stop, StopLoss); }
      }
      if exits.takeProfitPips != 0.0 {
        var target := TargetLevel(exits, symbol, pos.side, pos.entryPrice);
        if pos.side == Long && bar.high >= target { return Leave(target, TakeProfit); }
        if pos.side == Short && bar.low <= target { return Leave(target, TakeProfit); }
      }
      if exits.maxHoldBars != 0 && index - pos.entryIndex >= exits.maxHoldBars {
        return Leave(bar.close, TimeExit);
      }
      return Stay;
    }

    method DecideExit(pos: TradeRecord, bar: Bar, index: int, symbol: string) returns (exit: Exit)
      ensures exit == ExitRule(settings.exits, bar, index, symbol, pos.View())
      ensures BacktestBounds.RightExit(settings.exits, bar, index, symbol, pos.View(), exit)
    {
      exit := ApplyExitRule(pos, bar, index, symbol);
      BacktestBounds.ExitsAreRight(settings.exits, bar, index, symbol, pos.View());
    }

    /** Acts on one record of a snapshot; `k` is where it stands among the open ones. */
    method Consider(pos: TradeRecord, exit: Exit, ghost rule: Trade -> Exit, index: int, ghost k: nat) returns (ghost next: nat)
      requires Valid() && k < |openPositions| && openPositions[k] == pos && exit == rule(pos.View())
      modifies this`cash, this`openPositions, this`closedTrades, this`tradeOccurred, this`state, pos`outcome
      ensures Valid() && next <= |openPositions| && openPositions[next..] == old(openPositions)[k + 1..]
      ensures Sweep(state, next, rule, index) == Sweep(old(state), k, rule, index)
    {
      match exit {
        case Stay =>
          next := k + 1;
        case Leave(price, reason) =>
          ClosePosition(pos, price, index, reason, k);
          next := k;
      }
    }

    /** Stop loss, take profit and time exits, over a snapshot of the open records. */
    method CheckExits(bar: Bar, index: int, symbol: string)
      requires Valid()
      modifies this`cash, this`openPositions, this`closedTrades, this`tradeOccurred, this`state, records
      ensures Valid()
      ensures state == Sweep(old(state), 0, ExitsOf(settings.exits, bar, index, symbol), index)
    {
      ghost var rule := ExitsOf(settings.exits, bar, index, symbol);
      var snapshot := openPositions;
      ghost var k: nat := 0;
      for n := 0 to |snapshot|
        invariant Valid() && k <= |openPositions| && openPositions[k..] == snapshot[n..]
        invariant Sweep(state, k, rule, index) == Sweep(old(state), 0, rule, index)
      {
        assert openPositions[k] == openPositions[k..][0] == snapshot[n];
        var exit := DecideExit(snapshot[n], bar, index, symbol);
        k := Consider(snapshot[n], exit, rule, index, k);
      }
      assert k == |openPositions|;
    }

    /** The signal, opposite-side and end-of-data closes: one loop over a snapshot each. */
    method CloseWhere(rule: Trade -> Exit, index: int)
      requires Valid()
      modifies this`cash, this`openPositions, this`closedTrades, this`tradeOccurred, this`state, records
      ensures Valid()
      ensures state == Sweep(old(state), 0, rule, index)
    {
      var snapshot := openPositions;
      ghost var k: nat := 0;
      for n := 0 to |snapshot|
        invariant Valid() && k <= |openPositions| && openPositions[k..] == snapshot[n..]
        invariant Sweep(state, k, rule, index) == Sweep(old(state), 0, rule, index)
      {
        assert openPositions[k] == openPositions[k..][0] == snapshot[n];
        var exit := rule(snapshot[n].View());
        k := Consider(snapshot[n], exit, rule, index, k);
      }
      assert k == |openPositions|;
    }

    method GetCurrentEquity(bar: Bar) returns (equity: real)
      requires Valid()
      ensures equity == CurrentEquity(state, bar)
    {
      var unrealized := 0.0;
      ghost var trades, value := state.openTrades, (t: Trade) => UnrealizedOf(t, bar);
      for k := 0 to |openPositions|
        invariant unrealized == SumOver(trades[..k], value)
      {
        SumAppend(trades[..k], trades[k], value);
        assert trades[..k + 1] == trades[..k] + [trades[k]];
        var pos := openPositions[k];
        assert pos.View() == trades[k];
        unrealized := unrealized + if pos.side == Long then (bar.close - pos.entryPrice) * pos.quantity
                                   else (pos.entryPrice - bar.close) * pos.quantity;
      }
      assert trades[..|openPositions|] == trades;
      equity := cash + unrealized;
    }

    method Open(t: Trade)
      requires Valid()
      modifies this`cash, this`openPositions, this`tradeOccurred, this`state, this`records
      ensures Valid() && fresh(records - old(records))
      ensures state == OpenTrade(old(state), t)
    {
      var record := new TradeRecord(t);
      AdditionShows(openPositions, state.openTrades, record);
      openPositions := openPositions + [record];
      records := records + {record};
      var cost := record.EntryCost();
      cash := cash - cost;
      tradeOccurred := true;
      state := OpenTrade(state, t);
    }

    method HoldsSide(symbol: string, side: Side) returns (held: bool)
      requires Valid()
      ensures held <==> Holds(state.openTrades, symbol, side)
    {
      held := false;
      for k := 0 to |openPositions|
        invariant held <==> Holds(state.openTrades[..k], symbol, side)
      {
        assert openPositions[k].View() == state.openTrades[k] == state.openTrades[..k + 1][k];
        assert forall j :: 0 <= j < k ==> state.openTrades[..k + 1][j] == state.openTrades[..k][j];
        if openPositions[k].symbol == symbol && openPositions[k].side == side {
          held := true;
        }
      }
      assert state.openTrades[..|openPositions|] == state.openTrades;
    }

    /** What an entry would trade, or zero when it is not to happen. */
    method SizeEntry(symbol: string, side: Side, bar: Bar) returns (quantity: real)
      requires Valid()
      ensures quantity == EntryQuantity(state, settings.sizing, symbol, side, bar)
    {
      var held := HoldsSide(symbol, side);
      if held {
        return 0.0;
      }
      var equity := GetCurrentEquity(bar);
      quantity := PositionSize(settings.sizing, equity, bar.close, symbol);
      if quantity <= 0.0 {
        return 0.0;
      }
      var cost := bar.close * quantity;
      if cost > cash {
        return 0.0;
      }
    }

    /** The part of an entry that follows the sweep of the opposite side. */
    method EnterUnlessHeld(symbol: string, side: Side, bar: Bar, index: int)
      requires Valid()
      modifies this`cash, this`openPositions, this`tradeOccurred, this`state, this`records
      ensures Valid() && fresh(records - old(records))
      ensures state == EntryUnlessHeld(old(state), settings, symbol, side, bar, index)
    {
      var quantity := SizeEntry(symbol, side, bar);
      if quantity > 0.0 {
        Open(NewTrade(symbol, side, quantity, bar, index, None, None));
      }
    }

    method EnterTrade(symbol: string, side: Side, bar: Bar, index: int)
      requires Valid()
      modifies this`cash, this`openPositions, this`closedTrades, this`tradeOccurred, this`state, this`records, records
      ensures Valid() && fresh(records - old(records))
      ensures state == ProcessEntry(old(state), settings, symbol, side, bar, index)
    {
      if settings.exits.signalExit {
        CloseWhere(OppositeRule(bar, symbol, side), index);
      }
      EnterUnlessHeld(symbol, side, bar, index);
    }

    method UpdateOpenExcursions(symbol: string, bar: Bar)
      requires Valid()
      modifies this`state, records
      ensures Valid() && state == UpdateExcursions(old(state), symbol, bar)
    {
      ghost var after := UpdateExcursions(state, symbol, bar);
      for n := 0 to |openPositions|
        invariant state == old(state) && |openPositions| == |state.openTrades|
        invariant forall j :: 0 <= j < n ==> openPositions[j].View() == after.openTrades[j]
        invariant forall j :: n <= j < |openPositions| ==> openPositions[j].View() == state.openTrades[j]
      {
        if openPositions[n].symbol == symbol {
          openPositions[n].UpdateExcursion(bar);
        }
      }
      state := after;
    }

    method Record(bar: Bar, index: int)
      requires Valid()
      modifies this`peakEquity, this`equityPoints, this`tradeOccurred, this`barsProcessed, this`state
      ensures Valid() && state == RecordEquity(old(state), settings.everyTenth, bar, index)
    {
      var interval := if settings.everyTenth then 10 else 1;
      if index % interval == 0 || tradeOccurred {
        var equity := GetCurrentEquity(bar);
        peakEquity := Max(equity, peakEquity);
        var drawdown := DrawdownPct(peakEquity, equity);
        equityPoints := equityPoints + [EquityPoint(index, equity, cash, equity - cash, drawdown)];
        tradeOccurred := false;
      }
      barsProcessed := barsProcessed + 1;
      state := RecordEquity(state, settings.everyTenth, bar, index);
    }

    method NoteWarmUp(index: int)
      requires Valid()
      modifies this`warmupComplete, this`state
      ensures Valid() && state == WarmUp(old(state), settings, index)
    {
      if index >= settings.warmupBars && !warmupComplete {
        warmupComplete := true;
      }
      state := WarmUp(state, settings, index);
    }

    /** The exits, the entry and the signal exits of one bar. */
    method TradeOnBar(symbol: string, side: Side, tick: Tick, index: int)
      requires Valid()
      modifies this, records
      ensures Valid() && fresh(records - old(records))
      ensures state == TradeStep(old(state), settings, symbol, side, tick, index)
    {
      NoteWarmUp(index);
      CheckExits(tick.bar, index, symbol);
      if warmupComplete {
        if tick.enter {
          EnterTrade(symbol, side, tick.bar, index);
        }
        if tick.leave {
          CloseWhere(SignalRule(tick.bar, symbol), index);
        }
      }
    }

    /** Everything that happens on one bar, in the runner's order. */
    method ProcessBar(symbol: string, side: Side, tick: Tick, index: int)
      requires Valid()
      modifies this, records
      ensures Valid() && fresh(records - old(records))
      ensures state == BarStep(old(state), settings, symbol, side, tick, index)
    {
      TradeOnBar(symbol, side, tick, index);
      UpdateOpenExcursions(symbol, tick.bar);
      Record(tick.bar, index);
    }

    method ProcessNext(feed: Feed, side: Side, n: nat, ghost step: (State, nat) -> State)
      requires Valid() && n < |feed.ticks| && StepsThrough(step, settings, feed, side)
      modifies this, records
      ensures Valid() && fresh(records - old(records))
      ensures state == step(old(state), n)
    {
      ProcessBar(feed.symbol, side, feed.ticks[n], n);
    }

    method ProcessBars(feed: Feed, side: Side, ghost step: (State, nat) -> State)
      requires Valid() && StepsThrough(step, settings, feed, side)
      modifies this, records
      ensures Valid() && fresh(records - old(records))
      ensures state == Walk(old(state), step, |feed.ticks|)
    {
      for n := 0 to |feed.ticks|
        invariant Valid() && fresh(records - old(records))
        invariant state == Walk(old(state), step, n)
      {
        ProcessNext(feed, side, n, step);
      }
    }

    /** One symbol's bars, in order. */
    method ProcessFeed(feed: Feed, side: Side)
      requires Valid()
      modifies this, records
      ensures Valid() && fresh(records - old(records))
      ensures state == RunBars(old(state), settings, feed, side, |feed.ticks|)
    {
      ProcessBars(feed, side, BarOf(settings, feed, side));
    }

    /** Closes what is left at the last bar of the first symbol that has bars. */
    method CloseRemaining(feeds: seq<Feed>)
      requires Valid()
      modifies this, records
      ensures Valid() && state == CloseOut(old(state), feeds)
    {
      for m := 0 to |feeds|
        invariant Valid() && openPositions == old(openPositions) && state == old(state)
        invariant CloseOut(state, feeds[m..]) == CloseOut(state, feeds)
      {
        var ticks := feeds[m].ticks;
        if ticks != [] {
          CloseWhere(EndRule(ticks[|ticks| - 1].bar), |ticks| - 1);
          return;
        }
        assert feeds[m..][1..] == feeds[m + 1..];
      }
    }

    /** The whole backtest: every symbol's bars, then the closes at the end of data. */
    method RunAll(feeds: seq<Feed>, side: Side)
      requires Valid()
      modifies this, records
      ensures Valid() && state == CloseOut(RunFeeds(old(state), settings, feeds, side), feeds)
    {
      for m := 0 to |feeds|
        invariant Valid() && fresh(records - old(records))
        invariant RunFeeds(state, settings, feeds[m..], side) == RunFeeds(old(state), settings, feeds, side)
      {
        assert feeds[m..][1..] == feeds[m + 1..];
        ProcessFeed(feeds[m], side);
      }
      CloseRemaining(feeds);
    }
  }

  method RunBacktest(initialCapital: real, settings: Settings, feeds: seq<Feed>, side: Side) returns (runner: Runner)
    ensures runner.Valid() && runner.state == Run(initialCapital, settings, feeds, side)
  {
    runner := new Runner(settings, initialCapital);
    runner.RunAll(feeds, side);
  }
}

/** The Python strategy backtest as it runs: the same trade records and run state, moved by the
  * signals a strategy returns for each bar. */
module PythonRunner {
  import opened Sums
  import opened PositionRows
  import opened Backtest
  import opened BacktestRunner
  import PythonExits

  /** Per-signal stop loss, then take profit. */
  method DecideLevels(pos: TradeRecord, bar: Bar) returns (exit: Exit)
    ensures exit == LevelRule(bar)(pos.View())
    ensures PythonExits.RightLevel(bar, pos.View(), exit)
  {
    if pos.stopLoss.Some? {
      var stop := pos.stopLoss.value;
      if pos.side == Long && bar.low <= stop {
        return Leave(stop, StopLoss);
      } else if pos.side == Short && bar.high >= stop {
        return Leave(stop, StopLoss);
      }
    }
    if pos.takeProfit.Some? {
      var target := pos.takeProfit.value;
      if pos.side == Long && bar.high >= target {
        return Leave(target, TakeProfit);
      } else if pos.side == Short && bar.low <= target {
        return Leave(target, TakeProfit);
      }
    }
    return Stay;
  }

  method CheckExits(run: Runner, bar: Bar, index: int)
    requires run.Valid()
    modifies run`cash, run`openPositions, run`closedTrades, run`tradeOccurred, run`state, run.records
    ensures run.Valid() && run.state == Sweep(old(run.state), 0, LevelRule(bar), index)
  {
    ghost var rule := LevelRule(bar);
    var snapshot := run.openPositions;
    ghost var k: nat := 0;
    for n := 0 to |snapshot|
      invariant run.Valid() && k <= |run.openPositions| && run.openPositions[k..] == snapshot[n..]
      invariant Sweep(run.state, k, rule, index) == Sweep(old(run.state), 0, rule, index)
    {
      assert run.openPositions[k] == run.openPositions[k..][0] == snapshot[n];
      var exit := DecideLevels(snapshot[n], bar);
      k := run.Consider(snapshot[n], exit, rule, index, k);
    }
    assert k == |run.openPositions|;
  }

  /** The signal's own quantity if positive, else the run's sizing, else 10000 units. */
  method Quantity(run: Runner, sizing: Option<Sizing>, signal: Signal, bar: Bar) returns (quantity: real)
    requires run.Valid()
    ensures quantity == SignalQuantity(run.state, sizing, signal, bar)
  {
    if signal.quantity.Some? && signal.quantity.value > 0.0 {
      quantity := signal.quantity.value;
    } else if sizing.Some? {
      var equity := run.GetCurrentEquity(bar);
      quantity := PositionSize(sizing.value, equity, bar.close, signal.symbol);
    } else {
      quantity := 10000.0;
    }
  }

  method EnterOnSignal(run: Runner, sizing: Option<Sizing>, signal: Signal, bar: Bar, index: int)
    requires run.Valid()
    modifies run`cash, run`openPositions, run`tradeOccurred, run`state, run`records
    ensures run.Valid() && fresh(run.records - old(run.records))
    ensures run.state == ProcessSignal(old(run.state), sizing, signal, bar, index)
  {
    var held := run.HoldsSide(signal.symbol, signal.side);
    if held {
      return;
    }
    var quantity := Quantity(run, sizing, signal, bar);
    if quantity <= 0.0 {
      return;
    }
    var cost := bar.close * quantity;
    if signal.side == Long && cost > run.cash {
      return;
    }
    run.Open(NewTrade(signal.symbol, signal.side, quantity, bar, index, signal.stopLoss, signal.takeProfit));
  }

  method EnterOnSignals(run: Runner, sizing: Option<Sizing>, signals: seq<Signal>, bar: Bar, index: int)
    requires run.Valid()
    modifies run`cash, run`openPositions, run`tradeOccurred, run`state, run`records
    ensures run.Valid() && fresh(run.records - old(run.records))
    ensures run.state == ProcessSignals(old(run.state), sizing, signals, bar, index)
  {
    for n := 0 to |signals|
      invariant run.Valid() && fresh(run.records - old(run.records))
      invariant ProcessSignals(run.state, sizing, signals[n..], bar, index) == ProcessSignals(old(run.state), sizing, signals, bar, index)
    {
      assert signals[n..][1..] == signals[n + 1..];
      EnterOnSignal(run, sizing, signals[n], bar, index);
    }
  }

  /** Marks the warm-up done from the 200th bar on. */
  method NoteWarmUp(run: Runner, index: int)
    requires run.Valid()
    modifies run`warmupComplete, run`state
    ensures run.Valid() && run.state == if index >= 200 then old(run.state).(warm := true) else old(run.state)
  {
    if index >= 200 && !run.warmupComplete {
      run.warmupComplete := true;
      run.state := run.state.(warm := true);
    }
  }

  method ProcessBar(run: Runner, sizing: Option<Sizing>, symbol: string, tick: PythonTick, index: int)
    requires run.Valid()
    modifies run, run.records
    ensures run.Valid() && fresh(run.records - old(run.records))
    ensures run.state == PythonBarStep(old(run.state), sizing, run.settings.everyTenth, symbol, tick, index)
  {
    NoteWarmUp(run, index);
    CheckExits(run, tick.bar, index);
    if run.warmupComplete {
      EnterOnSignals(run, sizing, tick.signals, tick.bar, index);
    }
    run.UpdateOpenExcursions(symbol, tick.bar);
    run.Record(tick.bar, index);
  }

  /** `step` takes the engine step for each bar of the feed. */
  ghost predicate StepsThrough(step: (State, nat) -> State, sizing: Option<Sizing>, everyTenth: bool, feed: PythonFeed) {
    forall s: State, k: nat {:trigger PythonBarStep(s, sizing, everyTenth, feed.symbol, feed.ticks[k], k)} ::
      k < |feed.ticks| ==> step(s, k) == PythonBarStep(s, sizing, everyTenth, feed.symbol, feed.ticks[k], k)
  }

  method ProcessNext(run: Runner, sizing: Option<Sizing>, feed: PythonFeed, n: nat, ghost step: (State, nat) -> State)
    requires run.Valid() && n < |feed.ticks| && StepsThrough(step, sizing, run.settings.everyTenth, feed)
    modifies run, run.records
    ensures run.Valid() && fresh(run.records - old(run.records))
    ensures run.state == step(old(run.state), n)
  {
    ProcessBar(run, sizing, feed.symbol, feed.ticks[n], n);
  }

  method ProcessBars(run: Runner, sizing: Option<Sizing>, feed: PythonFeed, ghost step: (State, nat) -> State)
    requires run.Valid() && StepsThrough(step, sizing, run.settings.everyTenth, feed)
    modifies run, run.records
    ensures run.Valid() && fresh(run.records - old(run.records))
    ensures run.state == Walk(old(run.state), step, |feed.ticks|)
  {
    for n := 0 to |feed.ticks|
      invariant run.Valid() && fresh(run.records - old(run.records))
      invariant run.state == Walk(old(run.state), step, n)
    {
      ProcessNext(run, sizing, feed, n, step);
    }
  }

  method ProcessFeed(run: Runner, sizing: Option<Sizing>, feed: PythonFeed)
    requires run.Valid()
    modifies run, run.records
    ensures run.Valid() && fresh(run.records - old(run.records))
    ensures run.state == PythonRunBars(old(run.state), sizing, run.settings.everyTenth, feed, |feed.ticks|)
  {
    ProcessBars(run, sizing, feed, PythonBarOf(sizing, run.settings.everyTenth, feed));
  }

  method CloseRemaining(run: Runner, feeds: seq<PythonFeed>)
    requires run.Valid()
    modifies run, run.records
    ensures run.Valid() && run.state == PythonCloseOut(old(run.state), feeds)
  {
    for m := 0 to |feeds|
      invariant run.Valid() && run.openPositions == old(run.openPositions) && run.records == old(run.records)
      invariant run.state == old(run.state) && PythonCloseOut(run.state, feeds[m..]) == PythonCloseOut(run.state, feeds)
    {
      var ticks := feeds[m].ticks;
      if ticks != [] {
        run.CloseWhere(EndRule(ticks[|ticks| - 1].bar), |ticks| - 1);
        return;
      }
      assert feeds[m..][1..] == feeds[m + 1..];
    }
  }

  method RunPythonBacktest(run: Runner, sizing: Option<Sizing>, feeds: seq<PythonFeed>)
    requires run.Valid()
    modifies run, run.records
    ensures run.Valid()
    ensures run.state == PythonCloseOut(PythonRunFeeds(old(run.state), sizing, run.settings.everyTenth, feeds), feeds)
  {
    for m := 0 to |feeds|
      invariant run.Valid() && fresh(run.records - old(run.records))
      invariant PythonRunFeeds(run.state, sizing, run.settings.everyTenth, feeds[m..])
             == PythonRunFeeds(old(run.state), sizing, run.settings.everyTenth, feeds)
    {
      assert feeds[m..][1..] == feeds[m + 1..];
      ProcessFeed(run, sizing, feeds[m]);
    }
    CloseRemaining(run, feeds);
  }
}

/** What the stop, the target and the time limit guarantee for every trade of a run. */
module BacktestBounds {
  import opened Reals
  import opened Sums
  import opened PositionRows
  import opened Backtest

  /** Price move in the trade's favour. */
  function Move(t: Trade, price: real): real {
    if t.side == Long then price - t.entryPrice else t.entryPrice - price
  }

  lemma PnlIsMove(t: Trade, price: real)
    ensures Pnl(t, price) == Move(t, price) * t.quantity
  {}

  /** The exits a run is asked to enforce: each is off when zero. */
  predicate SaneExits(exits: ExitConfig) {
    exits.stopLossPips >= 0.0 && exits.takeProfitPips >= 0.0 && exits.maxHoldBars >= 0
  }

  predicate WellFormed(bar: Bar) {
    bar.low <= bar.close <= bar.high
  }

  /** The widest adverse move a stop allows. The entry pays half a pip of slippage, so a trade
    * closed on its own entry bar moves that much even under a tighter stop. */
  function LossLimit(exits: ExitConfig, symbol: string): real {
    if exits.stopLossPips >= 0.5 then exits.stopLossPips * PipValue(symbol) else 0.5 * PipValue(symbol)
  }

  function GainLimit(exits: ExitConfig, symbol: string): real {
    exits.takeProfitPips * PipValue(symbol)
  }

  predicate MoveWithin(exits: ExitConfig, symbol: string, move: real) {
    && (exits.stopLossPips != 0.0 ==> -LossLimit(exits, symbol) <= move)
    && (exits.takeProfitPips != 0.0 ==> move <= GainLimit(exits, symbol))
  }

  /** An open trade that may be closed at this bar's close without breaking a limit. */
  predicate Covered(t: Trade, exits: ExitConfig, symbol: string, bar: Bar, index: int) {
    && t.symbol == symbol && t.quantity > 0.0
    && t.entryIndex <= index && (exits.maxHoldBars != 0 ==> index - t.entryIndex < exits.maxHoldBars)
    && MoveWithin(exits, symbol, Move(t, bar.close))
  }

  /** A closed trade within all its limits. */
  predicate Limited(t: Trade, exits: ExitConfig, symbol: string) {
    && t.outcome.Some?
    && (exits.stopLossPips != 0.0 ==> -(LossLimit(exits, symbol) * t.quantity) <= t.outcome.value.pnl)
    && (exits.takeProfitPips != 0.0 ==> t.outcome.value.pnl <= GainLimit(exits, symbol) * t.quantity)
    && 0 <= t.outcome.value.holdBars && (exits.maxHoldBars != 0 ==> t.outcome.value.holdBars <= exits.maxHoldBars)
  }

  lemma ScaledLimits(move: real, limit: real, quantity: real)
    requires quantity > 0.0
    ensures move <= limit ==> move * quantity <= limit * quantity
    ensures -limit <= move ==> -(limit * quantity) <= move * quantity
  {
    if move <= limit {
      ProductNonNegative(limit - move, quantity);
    }
    if -limit <= move {
      ProductNonNegative(move + limit, quantity);
    }
  }

  // ---- What an exit decision means ----

  predicate StopReached(exits: ExitConfig, bar: Bar, symbol: string, t: Trade) {
    t.symbol == symbol && exits.stopLossPips != 0.0 && Adverse(t, bar) >= exits.stopLossPips * PipValue(symbol)
  }

  predicate TargetReached(exits: ExitConfig, bar: Bar, symbol: string, t: Trade) {
    t.symbol == symbol && exits.takeProfitPips != 0.0 && Favorable(t, bar) >= exits.takeProfitPips * PipValue(symbol)
  }

  predicate TimeReached(exits: ExitConfig, index: int, symbol: string, t: Trade) {
    t.symbol == symbol && exits.maxHoldBars != 0 && index - t.entryIndex >= exits.maxHoldBars
  }

  /** A stop exit comes exactly when the bar moves the stop's distance against the trade, and loses
    * just that; a target exit exactly when the bar moves the target's distance in its favour and
    * not the stop's against it, and gains just that; a time exit, at the close, exactly when only
    * the bar limit is reached. */
  ghost predicate RightExit(exits: ExitConfig, bar: Bar, index: int, symbol: string, t: Trade, exit: Exit) {
    var pip := PipValue(symbol);
    && (exit.Leave? && exit.reason == StopLoss <==> StopReached(exits, bar, symbol, t))
    && (exit.Leave? && exit.reason == TakeProfit <==> TargetReached(exits, bar, symbol, t) && !StopReached(exits, bar, symbol, t))
    && (exit.Stay? <==> !StopReached(exits, bar, symbol, t) && !TargetReached(exits, bar, symbol, t) && !TimeReached(exits, index, symbol, t))
    && (exit.Leave? ==> exit.reason == StopLoss || exit.reason == TakeProfit || (exit.reason == TimeExit && exit.price == bar.close))
    && (exit.Leave? && exit.reason == StopLoss ==> Move(t, exit.price) == -(exits.stopLossPips * pip))
    && (exit.Leave? && exit.reason == TakeProfit ==> Move(t, exit.price) == exits.takeProfitPips * pip)
  }

  lemma ExitsAreRight(exits: ExitConfig, bar: Bar, index: int, symbol: string, t: Trade)
    ensures RightExit(exits, bar, index, symbol, t, ExitRule(exits, bar, index, symbol, t))
  {
  }

  lemma LossWithin(t: Trade, price: real, limit: real)
    requires t.quantity > 0.0 && -limit <= Move(t, price)
    ensures -(limit * t.quantity) <= Pnl(t, price)
  {
    PnlIsMove(t, price);
    ScaledLimits(Move(t, price), limit, t.quantity);
  }

  lemma GainWithin(t: Trade, price: real, limit: real)
    requires t.quantity > 0.0 && Move(t, price) <= limit
    ensures Pnl(t, price) <= limit * t.quantity
  {
    PnlIsMove(t, price);
    ScaledLimits(Move(t, price), limit, t.quantity);
  }

  /** Closing at a price whose move is within limits gives a limited trade. */
  lemma CloseWithin(t: Trade, exits: ExitConfig, symbol: string, price: real, index: int, reason: Reason)
    requires t.quantity > 0.0 && t.entryIndex <= index && (exits.maxHoldBars != 0 ==> index - t.entryIndex <= exits.maxHoldBars)
    requires MoveWithin(exits, symbol, Move(t, price))
    ensures Limited(Closed(t, price, index, reason), exits, symbol)
  {
    if exits.stopLossPips != 0.0 {
      LossWithin(t, price, LossLimit(exits, symbol));
    }
    if exits.takeProfitPips != 0.0 {
      GainWithin(t, price, GainLimit(exits, symbol));
    }
  }

  ghost predicate AllLimited(trades: seq<Trade>, exits: ExitConfig, symbol: string) {
    forall k :: 0 <= k < |trades| ==> Limited(trades[k], exits, symbol)
  }

  /** A sweep whose rule only ever closes within limits keeps the closed trades limited, and
    * leaves open exactly trades it was told to keep. */
  lemma {:induction false} SweepLimits(s: State, k: nat, rule: Trade -> Exit, index: int, exits: ExitConfig, symbol: string)
    requires k <= |s.openTrades| && AllLimited(s.closedTrades, exits, symbol)
    requires forall j :: k <= j < |s.openTrades| && rule(s.openTrades[j]).Leave? ==>
      Limited(Closed(s.openTrades[j], rule(s.openTrades[j]).price, index, rule(s.openTrades[j]).reason), exits, symbol)
    ensures AllLimited(Sweep(s, k, rule, index).closedTrades, exits, symbol)
    ensures forall t :: t in Sweep(s, k, rule, index).openTrades ==>
      t in s.openTrades[..k] || (t in s.openTrades && rule(t).Stay?)
    decreases |s.openTrades| - k
  {
    if k < |s.openTrades| {
      match rule(s.openTrades[k])
      case Stay =>
        SweepLimits(s, k + 1, rule, index, exits, symbol);
        assert s.openTrades[..k + 1] == s.openTrades[..k] + [s.openTrades[k]];
      case Leave(price, reason) =>
        var s1 := CloseAt(s, k, price, index, reason);
        assert forall j :: k <= j < |s1.openTrades| ==> s1.openTrades[j] == s.openTrades[j + 1];
        assert s1.openTrades[..k] == s.openTrades[..k];
        SweepLimits(s1, k, rule, index, exits, symbol);
    }
  }

  /** The state after bar `index`: closed trades limited, open ones covered at its close. */
  ghost predicate Guarded(s: State, exits: ExitConfig, symbol: string, bar: Bar, index: int) {
    && AllLimited(s.closedTrades, exits, symbol)
    && forall t :: t in s.openTrades ==> Covered(t, exits, symbol, bar, index)
  }

  /** An open trade as the next bar finds it. */
  predicate Carried(t: Trade, exits: ExitConfig, symbol: string, index: int) {
    && t.symbol == symbol && t.quantity > 0.0
    && t.entryIndex < index && (exits.maxHoldBars != 0 ==> index - t.entryIndex <= exits.maxHoldBars)
  }

  lemma ExitsAreWithin(t: Trade, exits: ExitConfig, symbol: string, bar: Bar, index: int)
    requires SaneExits(exits) && WellFormed(bar) && Carried(t, exits, symbol, index)
    ensures match ExitRule(exits, bar, index, symbol, t)
            case Stay => Covered(t, exits, symbol, bar, index)
            case Leave(price, reason) => Limited(Closed(t, price, index, reason), exits, symbol)
  {
    var pip := PipValue(symbol);
    ProductNonNegative(exits.takeProfitPips, pip);
    ProductNonNegative(exits.stopLossPips, pip);
    if exits.stopLossPips < 0.5 {
      ProductNonNegative(0.5 - exits.stopLossPips, pip);
    }
    assert exits.stopLossPips * pip <= LossLimit(exits, symbol);
    match ExitRule(exits, bar, index, symbol, t)
    case Stay =>
    case Leave(price, reason) =>
      CloseWithin(t, exits, symbol, price, index, reason);
  }

  lemma CheckExitsGuards(s: State, exits: ExitConfig, symbol: string, bar: Bar, index: int)
    requires SaneExits(exits) && WellFormed(bar) && AllLimited(s.closedTrades, exits, symbol)
    requires forall t :: t in s.openTrades ==> Carried(t, exits, symbol, index)
    ensures Guarded(Sweep(s, 0, ExitsOf(exits, bar, index, symbol), index), exits, symbol, bar, index)
  {
    forall t | t in s.openTrades
      ensures match ExitRule(exits, bar, index, symbol, t)
              case Stay => Covered(t, exits, symbol, bar, index)
              case Leave(price, reason) => Limited(Closed(t, price, index, reason), exits, symbol)
    {
      ExitsAreWithin(t, exits, symbol, bar, index);
    }
    SweepLimits(s, 0, ExitsOf(exits, bar, index, symbol), index, exits, symbol);
  }

  /** Any rule that only closes at the bar's close keeps a guarded state guarded. */
  lemma SweepAtCloseGuards(s: State, rule: Trade -> Exit, exits: ExitConfig, symbol: string, bar: Bar, index: int)
    requires Guarded(s, exits, symbol, bar, index)
    requires forall t :: t in s.openTrades && rule(t).Leave? ==> rule(t).price == bar.close
    ensures Guarded(Sweep(s, 0, rule, index), exits, symbol, bar, index)
  {
    forall t | t in s.openTrades && rule(t).Leave?
      ensures Limited(Closed(t, rule(t).price, index, rule(t).reason), exits, symbol)
    {
      CloseWithin(t, exits, symbol, bar.close, index, rule(t).reason);
    }
    SweepLimits(s, 0, rule, index, exits, symbol);
  }

  /** A new trade is covered on its own entry bar: it is half a pip under water. */
  lemma NewTradeIsCovered(exits: ExitConfig, symbol: string, side: Side, quantity: real, bar: Bar, index: int)
    requires SaneExits(exits) && quantity > 0.0
    ensures Covered(NewTrade(symbol, side, quantity, bar, index, None, None), exits, symbol, bar, index)
  {
    var t := NewTrade(symbol, side, quantity, bar, index, None, None);
    var pip := PipValue(symbol);
    assert Move(t, bar.close) == -(0.5 * pip);
    if exits.stopLossPips >= 0.5 {
      ProductNonNegative(exits.stopLossPips - 0.5, pip);
    }
    ProductNonNegative(exits.takeProfitPips, pip);
  }

  lemma EntryGuards(s: State, c: Settings, symbol: string, side: Side, bar: Bar, index: int)
    requires SaneExits(c.exits) && Guarded(s, c.exits, symbol, bar, index)
    ensures Guarded(ProcessEntry(s, c, symbol, side, bar, index), c.exits, symbol, bar, index)
  {
    SweepAtCloseGuards(s, OppositeRule(bar, symbol, side), c.exits, symbol, bar, index);
    var s1 := if c.exits.signalExit then Sweep(s, 0, OppositeRule(bar, symbol, side), index) else s;
    var quantity := PositionSize(c.sizing, CurrentEquity(s1, bar), bar.close, symbol);
    if quantity > 0.0 {
      NewTradeIsCovered(c.exits, symbol, side, quantity, bar, index);
    }
  }

  lemma FinishGuards(s: State, exits: ExitConfig, everyTenth: bool, symbol: string, bar: Bar, index: int)
    requires Guarded(s, exits, symbol, bar, index)
    ensures Guarded(RecordEquity(UpdateExcursions(s, symbol, bar), everyTenth, bar, index), exits, symbol, bar, index)
  {
    var after := UpdateExcursions(s, symbol, bar).openTrades;
    forall t | t in after ensures Covered(t, exits, symbol, bar, index) {
      var k :| 0 <= k < |after| && after[k] == t;
      assert s.openTrades[k] in s.openTrades;
      assert t == s.openTrades[k].(maxFavorable := t.maxFavorable, maxAdverse := t.maxAdverse);
    }
  }

  lemma BarGuards(s: State, c: Settings, symbol: string, side: Side, tick: Tick, index: int)
    requires SaneExits(c.exits) && WellFormed(tick.bar) && AllLimited(s.closedTrades, c.exits, symbol)
    requires forall t :: t in s.openTrades ==> Carried(t, c.exits, symbol, index)
    ensures Guarded(BarStep(s, c, symbol, side, tick, index), c.exits, symbol, tick.bar, index)
  {
    var s0 := WarmUp(s, c, index);
    CheckExitsGuards(s0, c.exits, symbol, tick.bar, index);
    var s1 := Sweep(s0, 0, ExitsOf(c.exits, tick.bar, index, symbol), index);
    EntryGuards(s1, c, symbol, side, tick.bar, index);
    var s2 := if s1.warm && tick.enter then ProcessEntry(s1, c, symbol, side, tick.bar, index) else s1;
    SweepAtCloseGuards(s2, SignalRule(tick.bar, symbol), c.exits, symbol, tick.bar, index);
    var s3 := if s2.warm && tick.leave then Sweep(s2, 0, SignalRule(tick.bar, symbol), index) else s2;
    FinishGuards(s3, c.exits, c.everyTenth, symbol, tick.bar, index);
  }

  lemma {:induction false} BarsGuard(s: State, c: Settings, feed: Feed, side: Side, n: nat)
    requires SaneExits(c.exits) && (forall k :: 0 <= k < |feed.ticks| ==> WellFormed(feed.ticks[k].bar))
    requires s.openTrades == [] && s.closedTrades == [] && 0 < n <= |feed.ticks|
    ensures Guarded(RunBars(s, c, feed, side, n), c.exits, feed.symbol, feed.ticks[n - 1].bar, n - 1)
  {
    var before := RunBars(s, c, feed, side, n - 1);
    if n > 1 {
      BarsGuard(s, c, feed, side, n - 1);
      assert forall t :: t in before.openTrades ==> Covered(t, c.exits, feed.symbol, feed.ticks[n - 2].bar, n - 2);
    }
    BarGuards(before, c, feed.symbol, side, feed.ticks[n - 1], n - 1);
  }

  lemma RunOfOneFeed(initial: real, c: Settings, feed: Feed, side: Side)
    ensures var n := |feed.ticks|;
            Run(initial, c, [feed], side)
            == if n == 0 then Start(initial)
               else Sweep(RunBars(Start(initial), c, feed, side, n), 0, EndRule(feed.ticks[n - 1].bar), n - 1)
  {
    var n, start := |feed.ticks|, Start(initial);
    assert [feed][1..] == [];
    assert RunFeeds(start, c, [feed], side) == RunFeeds(RunBars(start, c, feed, side, n), c, [], side);
    if n == 0 {
      assert CloseOut(start, [feed]) == CloseOut(start, []);
    }
  }

  /** Every closed trade of a single-symbol run, however it was closed, is within its stop, its
    * target and its time limit. */
  lemma EveryTradeIsLimited(initial: real, c: Settings, feed: Feed, side: Side)
    requires SaneExits(c.exits) && (forall k :: 0 <= k < |feed.ticks| ==> WellFormed(feed.ticks[k].bar))
    ensures AllLimited(Run(initial, c, [feed], side).closedTrades, c.exits, feed.symbol)
  {
    var n := |feed.ticks|;
    var start := Start(initial);
    RunOfOneFeed(initial, c, feed, side);
    if n > 0 {
      BarsGuard(start, c, feed, side, n);
      SweepAtCloseGuards(RunBars(start, c, feed, side, n), EndRule(feed.ticks[n - 1].bar), c.exits, feed.symbol, feed.ticks[n - 1].bar, n - 1);
    }
  }

  /** Half a pip is where the stop's own promise starts: a trade closed at the close of its
    * entry bar respects a stop exactly when the stop is at least that wide. */
  lemma EntryBarExitRespectsStopIff(exits: ExitConfig, symbol: string, side: Side, quantity: real, bar: Bar, index: int)
    requires quantity > 0.0
    ensures var t := NewTrade(symbol, side, quantity, bar, index, None, None);
            Pnl(t, bar.close) >= -(exits.stopLossPips * PipValue(symbol) * quantity) <==> exits.stopLossPips >= 0.5
  {
    var t := NewTrade(symbol, side, quantity, bar, index, None, None);
    var unit := PipValue(symbol) * quantity;
    PnlIsMove(t, bar.close);
    assert unit > 0.0;
    assert exits.stopLossPips * PipValue(symbol) * quantity == exits.stopLossPips * unit;
    assert Pnl(t, bar.close) == -(0.5 * unit) by {
      assert Move(t, bar.close) == -(0.5 * PipValue(symbol));
    }
    assert exits.stopLossPips * unit - 0.5 * unit == (exits.stopLossPips - 0.5) * unit;
    if exits.stopLossPips >= 0.5 {
      ProductNonNegative(exits.stopLossPips - 0.5, unit);
    } else {
      assert (exits.stopLossPips - 0.5) * unit < 0.0;
    }
  }
}

/** The backtest engine's state and the step it takes on every bar, for the condition runner
  * and for the Python strategy runner. */
module Backtest {
  import opened Sums
  import opened PositionRows

  datatype Bar = Bar(high: real, low: real, close: real)

  datatype Reason = StopLoss | TakeProfit | TimeExit | SignalExit | EndOfData

  datatype Trade = Trade(
    symbol: string,
    side: Side,
    quantity: real,
    entryPrice: real,
    entryIndex: int,
    fees: real,
    stopLoss: Option<real>,
    takeProfit: Option<real>,
    maxFavorable: real,
    maxAdverse: real,
    outcome: Option<Outcome>)

  /** The exit columns, filled in when the trade closes. */
  datatype Outcome = Outcome(exitPrice: real, exitIndex: int, reason: Reason, pnl: real, holdBars: int)

  /** Zero stands for an absent setting, as it does in the source's truth tests. */
  datatype ExitConfig = ExitConfig(stopLossPips: real, takeProfitPips: real, maxHoldBars: int, signalExit: bool)

  datatype Sizing =
    | Fixed(amount: real)
    | FixedCash(amount: real)
    | PercentEquity(percent: real)
    | PercentRisk(percent: real, stopPips: real)

  datatype EquityPoint = EquityPoint(barIndex: int, equity: real, cash: real, unrealized: real, drawdownPct: real)

  datatype State = State(
    cash: real,
    openTrades: seq<Trade>,
    closedTrades: seq<Trade>,
    points: seq<EquityPoint>,
    peakEquity: real,
    barsProcessed: nat,
    warm: bool,
    traded: bool)

  /** The run's settings; `everyTenth` is the one-minute timeframe's sampling. */
  datatype Settings = Settings(sizing: Sizing, exits: ExitConfig, everyTenth: bool, warmupBars: int)

  function Start(initialCapital: real): State {
    State(initialCapital, [], [], [], initialCapital, 0, false, false)
  }

  function Upper(c: char): char {
    if 'a' <= c <= 'z' then (c as int - 32) as char else c
  }

  predicate IsYenPair(symbol: string) {
    exists i :: 0 <= i <= |symbol| - 3 && Upper(symbol[i]) == 'J' && Upper(symbol[i + 1]) == 'P' && Upper(symbol[i + 2]) == 'Y'
  }

  function PipValue(symbol: string): real {
    if IsYenPair(symbol) then 0.01 else 0.0001
  }

  function PositionSize(sizing: Sizing, equity: real, price: real, symbol: string): real {
    match sizing
    case Fixed(amount) => amount
    case FixedCash(amount) => if price <= 0.0 then 0.0 else amount / price
    case PercentEquity(percent) => if price <= 0.0 then 0.0 else equity * percent / 100.0 / price
    case PercentRisk(percent, stopPips) =>
      if stopPips <= 0.0 then 0.0 else equity * percent / 100.0 / (stopPips * PipValue(symbol))
  }

  /** Half a pip of slippage, always against the trade. */
  function FillPrice(side: Side, close: real, symbol: string): real {
    if side == Long then close + 0.5 * PipValue(symbol) else close - 0.5 * PipValue(symbol)
  }

  function TradingFees(price: real, quantity: real): real {
    price * quantity * 2.0 / 10000.0
  }

  function Pnl(t: Trade, exitPrice: real): real {
    if t.side == Long then (exitPrice - t.entryPrice) * t.quantity else (t.entryPrice - exitPrice) * t.quantity
  }

  function UnrealizedOf(t: Trade, bar: Bar): real {
    Pnl(t, bar.close)
  }

  ghost function CurrentEquity(s: State, bar: Bar): real {
    s.cash + SumOver(s.openTrades, (t: Trade) => UnrealizedOf(t, bar))
  }

  // ---- Opening and closing ----

  /** A long pays for its entry value and its fees, a short for its fees only. */
  function OpeningCost(t: Trade): real {
    if t.side == Long then t.entryPrice * t.quantity + t.fees else t.fees
  }

  function OpenTrade(s: State, t: Trade): State {
    s.(openTrades := s.openTrades + [t],
       cash := s.cash - OpeningCost(t),
       traded := true)
  }

  function Closed(t: Trade, exitPrice: real, index: int, reason: Reason): Trade {
    t.(outcome := Some(Outcome(exitPrice, index, reason, Pnl(t, exitPrice), index - t.entryIndex)))
  }

  /** A long gets its exit value back; a short gets its entry value plus its profit, although
    * opening it cost only the fees. */
  function Proceeds(t: Trade, exitPrice: real): real {
    if t.side == Long then exitPrice * t.quantity else t.entryPrice * t.quantity + Pnl(t, exitPrice)
  }

  function CloseAt(s: State, k: nat, exitPrice: real, index: int, reason: Reason): State
    requires k < |s.openTrades|
  {
    var t := s.openTrades[k];
    s.(openTrades := s.openTrades[..k] + s.openTrades[k + 1..],
       closedTrades := s.closedTrades + [Closed(t, exitPrice, index, reason)],
       cash := s.cash + Proceeds(t, exitPrice),
       traded := true)
  }

  datatype Exit = Stay | Leave(price: real, reason: Reason)

  /** Walks the open trades from position `k` on, closing those the rule says to. */
  function Sweep(s: State, k: nat, rule: Trade -> Exit, index: int): State
    requires k <= |s.openTrades|
    decreases |s.openTrades| - k
  {
    if k == |s.openTrades| then s
    else match rule(s.openTrades[k])
         case Stay => Sweep(s, k + 1, rule, index)
         case Leave(price, reason) => Sweep(CloseAt(s, k, price, index, reason), k, rule, index)
  }

  function StopLevel(exits: ExitConfig, symbol: string, side: Side, entryPrice: real): real {
    if side == Long then entryPrice - exits.stopLossPips * PipValue(symbol) else entryPrice + exits.stopLossPips * PipValue(symbol)
  }

  function TargetLevel(exits: ExitConfig, symbol: string, side: Side, entryPrice: real): real {
    if side == Long then entryPrice + exits.takeProfitPips * PipValue(symbol) else entryPrice - exits.takeProfitPips * PipValue(symbol)
  }

  /** Stop loss, then take profit, then time. */
  function ExitRule(exits: ExitConfig, bar: Bar, index: int, symbol: string, t: Trade): Exit {
    var stop, target := StopLevel(exits, symbol, t.side, t.entryPrice), TargetLevel(exits, symbol, t.side, t.entryPrice);
    if t.symbol != symbol then Stay
    else if exits.stopLossPips != 0.0 && (if t.side == Long then bar.low <= stop else bar.high >= stop) then Leave(stop, StopLoss)
    else if exits.takeProfitPips != 0.0 && (if t.side == Long then bar.high >= target else bar.low <= target) then Leave(target, TakeProfit)
    else if exits.maxHoldBars != 0 && index - t.entryIndex >= exits.maxHoldBars then Leave(bar.close, TimeExit)
    else Stay
  }

  function ExitsOf(exits: ExitConfig, bar: Bar, index: int, symbol: string): Trade -> Exit {
    (t: Trade) => ExitRule(exits, bar, index, symbol, t)
  }

  function OppositeRule(bar: Bar, symbol: string, side: Side): Trade -> Exit {
    (t: Trade) => if t.symbol == symbol && t.side != side then Leave(bar.close, SignalExit) else Stay
  }

  function SignalRule(bar: Bar, symbol: string): Trade -> Exit {
    (t: Trade) => if t.symbol == symbol then Leave(bar.close, SignalExit) else Stay
  }

  function EndRule(bar: Bar): Trade -> Exit {
    (t: Trade) => Leave(bar.close, EndOfData)
  }

  predicate Holds(trades: seq<Trade>, symbol: string, side: Side) {
    exists k :: 0 <= k < |trades| && trades[k].symbol == symbol && trades[k].side == side
  }

  function NewTrade(symbol: string, side: Side, quantity: real, bar: Bar, index: int,
                    stopLoss: Option<real>, takeProfit: Option<real>): Trade {
    var price := FillPrice(side, bar.close, symbol);
    Trade(symbol, side, quantity, price, index, TradingFees(price, quantity), stopLoss, takeProfit, 0.0, 0.0, None)
  }

  /** The quantity an entry would buy or sell; zero when a side already held, the sizing or the
    * cash forbids it. */
  ghost function EntryQuantity(s: State, sizing: Sizing, symbol: string, side: Side, bar: Bar): real {
    var quantity := PositionSize(sizing, CurrentEquity(s, bar), bar.close, symbol);
    if Holds(s.openTrades, symbol, side) || quantity <= 0.0 || bar.close * quantity > s.cash then 0.0 else quantity
  }

  ghost function EntryUnlessHeld(s: State, c: Settings, symbol: string, side: Side, bar: Bar, index: int): State {
    var quantity := EntryQuantity(s, c.sizing, symbol, side, bar);
    if quantity <= 0.0 then s else OpenTrade(s, NewTrade(symbol, side, quantity, bar, index, None, None))
  }

  ghost function ProcessEntry(s: State, c: Settings, symbol: string, side: Side, bar: Bar, index: int): State {
    var s1 := if c.exits.signalExit then Sweep(s, 0, OppositeRule(bar, symbol, side), index) else s;
    EntryUnlessHeld(s1, c, symbol, side, bar, index)
  }

  // ---- Bookkeeping of one bar ----

  function Favorable(t: Trade, bar: Bar): real {
    if t.side == Long then bar.high - t.entryPrice else t.entryPrice - bar.low
  }

  function Adverse(t: Trade, bar: Bar): real {
    if t.side == Long then t.entryPrice - bar.low else bar.high - t.entryPrice
  }

  function Excursion(t: Trade, bar: Bar): Trade {
    t.(maxFavorable := Max(t.maxFavorable, Favorable(t, bar)), maxAdverse := Max(t.maxAdverse, Adverse(t, bar)))
  }

  function UpdateExcursions(s: State, symbol: string, bar: Bar): State {
    s.(openTrades := seq(|s.openTrades|, k requires 0 <= k < |s.openTrades| =>
         if s.openTrades[k].symbol == symbol then Excursion(s.openTrades[k], bar) else s.openTrades[k]))
  }

  function DrawdownPct(peak: real, equity: real): real {
    if peak > 0.0 then (peak - equity) / peak * 100.0 else 0.0
  }

  ghost function RecordEquity(s: State, everyTenth: bool, bar: Bar, index: int): State {
    var sampled := if !everyTenth || index % 10 == 0 || s.traded then
                     var equity := CurrentEquity(s, bar);
                     var peak := Max(equity, s.peakEquity);
                     s.(peakEquity := peak,
                        points := s.points + [EquityPoint(index, equity, s.cash, equity - s.cash, DrawdownPct(peak, equity))],
                        traded := false)
                   else s;
    sampled.(barsProcessed := s.barsProcessed + 1)
  }

  function WarmUp(s: State, c: Settings, index: int): State {
    if index >= c.warmupBars then s.(warm := true) else s
  }

  // ---- The condition runner ----

  /** One bar with the verdicts of the entry and exit conditions on the window it ends. */
  datatype Tick = Tick(bar: Bar, enter: bool, leave: bool)

  datatype Feed = Feed(symbol: string, ticks: seq<Tick>)

  /** The exits, the entry and the signal exits of one bar, in that order. */
  ghost function TradeStep(s: State, c: Settings, symbol: string, side: Side, tick: Tick, index: int): State {
    var s1 := Sweep(WarmUp(s, c, index), 0, ExitsOf(c.exits, tick.bar, index, symbol), index);
    var s2 := if s1.warm && tick.enter then ProcessEntry(s1, c, symbol, side, tick.bar, index) else s1;
    if s2.warm && tick.leave then Sweep(s2, 0, SignalRule(tick.bar, symbol), index) else s2
  }

  ghost function BarStep(s: State, c: Settings, symbol: string, side: Side, tick: Tick, index: int): State {
    RecordEquity(UpdateExcursions(TradeStep(s, c, symbol, side, tick, index), symbol, tick.bar), c.everyTenth, tick.bar, index)
  }

  /** Takes one step for each of the first `n` bars. */
  ghost function Walk(s: State, step: (State, nat) -> State, n: nat): State {
    if n == 0 then s else step(Walk(s, step, n - 1), n - 1)
  }

  ghost function BarOf(c: Settings, feed: Feed, side: Side): (State, nat) -> State {
    (s: State, k: nat) => if k < |feed.ticks| then BarStep(s, c, feed.symbol, side, feed.ticks[k], k) else s
  }

  ghost function RunBars(s: State, c: Settings, feed: Feed, side: Side, n: nat): State {
    Walk(s, BarOf(c, feed, side), n)
  }

  ghost function RunFeeds(s: State, c: Settings, feeds: seq<Feed>, side: Side): State
    decreases |feeds|
  {
    if feeds == [] then s
    else RunFeeds(RunBars(s, c, feeds[0], side, |feeds[0].ticks|), c, feeds[1..], side)
  }

  /** Closes what is left at the last bar of the first symbol that has bars. */
  function CloseOut(s: State, feeds: seq<Feed>): State
    decreases |feeds|
  {
    if feeds == [] then s
    else if feeds[0].ticks == [] then CloseOut(s, feeds[1..])
    else Sweep(s, 0, EndRule(feeds[0].ticks[|feeds[0].ticks| - 1].bar), |feeds[0].ticks| - 1)
  }

  ghost function Run(initialCapital: real, c: Settings, feeds: seq<Feed>, side: Side): State {
    CloseOut(RunFeeds(Start(initialCapital), c, feeds, side), feeds)
  }

  // ---- Invariants of runs ----

  /** Whatever every step carries from one bar count to the next holds after every bar. */
  lemma {:induction false} WalkKeeps(p: (State, nat) -> bool, s: State, step: (State, nat) -> State, n: nat)
    requires p(s, 0) && forall t: State, k: nat :: k < n && p(t, k) ==> p(step(t, k), k + 1)
    ensures p(Walk(s, step, n), n)
  {
    if n > 0 {
      WalkKeeps(p, s, step, n - 1);
    }
  }

  lemma BarsAdvance(p: (State, nat) -> bool, s: State, c: Settings, feed: Feed, side: Side, n: nat)
    requires p(s, 0) && n <= |feed.ticks|
    requires forall t: State, k: nat :: k < |feed.ticks| && p(t, k) ==> p(BarOf(c, feed, side)(t, k), k + 1)
    ensures p(RunBars(s, c, feed, side, n), n)
  {
    WalkKeeps(p, s, BarOf(c, feed, side), n);
  }

  lemma {:induction false} FeedsKeep(p: State -> bool, s: State, c: Settings, feeds: seq<Feed>, side: Side)
    requires p(s)
    requires forall t: State, m: nat, k: nat :: m < |feeds| && k < |feeds[m].ticks| && p(t) ==> p(BarOf(c, feeds[m], side)(t, k))
    ensures p(RunFeeds(s, c, feeds, side))
    decreases |feeds|
  {
    if feeds != [] {
      WalkKeeps((t: State, k: nat) => p(t), s, BarOf(c, feeds[0], side), |feeds[0].ticks|);
      assert forall m: nat :: m < |feeds[1..]| ==> feeds[1..][m] == feeds[m + 1];
      FeedsKeep(p, RunBars(s, c, feeds[0], side, |feeds[0].ticks|), c, feeds[1..], side);
    }
  }

  lemma {:induction false} CloseOutKeeps(p: State -> bool, s: State, feeds: seq<Feed>)
    requires p(s)
    requires forall m: nat :: m < |feeds| && feeds[m].ticks != [] ==>
      p(Sweep(s, 0, EndRule(feeds[m].ticks[|feeds[m].ticks| - 1].bar), |feeds[m].ticks| - 1))
    ensures p(CloseOut(s, feeds))
    decreases |feeds|
  {
    if feeds != [] && feeds[0].ticks == [] {
      assert forall m: nat :: m < |feeds[1..]| ==> feeds[1..][m] == feeds[m + 1];
      CloseOutKeeps(p, s, feeds[1..]);
    }
  }

  // ---- The Python strategy runner ----

  datatype Signal = Signal(symbol: string, side: Side, quantity: Option<real>, stopLoss: Option<real>, takeProfit: Option<real>)

  /** One bar with the signals the strategy returned for it. */
  datatype PythonTick = PythonTick(bar: Bar, signals: seq<Signal>)

  datatype PythonFeed = PythonFeed(symbol: string, ticks: seq<PythonTick>)

  /** Per-signal levels, checked for every open trade whatever its symbol. */
  function LevelRule(bar: Bar): Trade -> Exit {
    (t: Trade) =>
      if t.stopLoss.Some? && (if t.side == Long then bar.low <= t.stopLoss.value else bar.high >= t.stopLoss.value)
      then Leave(t.stopLoss.value, StopLoss)
      else if t.takeProfit.Some? && (if t.side == Long then bar.high >= t.takeProfit.value else bar.low <= t.takeProfit.value)
      then Leave(t.takeProfit.value, TakeProfit)
      else Stay
  }

  ghost function SignalQuantity(s: State, sizing: Option<Sizing>, signal: Signal, bar: Bar): real {
    if signal.quantity.Some? && signal.quantity.value > 0.0 then signal.quantity.value
    else if sizing.Some? then PositionSize(sizing.value, CurrentEquity(s, bar), bar.close, signal.symbol)
    else 10000.0
  }

  /** Only longs need the cash for their cost. */
  ghost function ProcessSignal(s: State, sizing: Option<Sizing>, signal: Signal, bar: Bar, index: int): State {
    if Holds(s.openTrades, signal.symbol, signal.side) then s
    else
      var quantity := SignalQuantity(s, sizing, signal, bar);
      if quantity <= 0.0 || (signal.side == Long && bar.close * quantity > s.cash) then s
      else OpenTrade(s, NewTrade(signal.symbol, signal.side, quantity, bar, index, signal.stopLoss, signal.takeProfit))
  }

  ghost function ProcessSignals(s: State, sizing: Option<Sizing>, signals: seq<Signal>, bar: Bar, index: int): State
    decreases |signals|
  {
    if signals == [] then s
    else ProcessSignals(ProcessSignal(s, sizing, signals[0], bar, index), sizing, signals[1..], bar, index)
  }

  ghost function PythonBarStep(s: State, sizing: Option<Sizing>, everyTenth: bool, symbol: string, tick: PythonTick, index: int): State {
    var s0 := if index >= 200 then s.(warm := true) else s;
    var s1 := Sweep(s0, 0, LevelRule(tick.bar), index);
    var s2 := if s1.warm then ProcessSignals(s1, sizing, tick.signals, tick.bar, index) else s1;
    RecordEquity(UpdateExcursions(s2, symbol, tick.bar), everyTenth, tick.bar, index)
  }

  ghost function PythonBarOf(sizing: Option<Sizing>, everyTenth: bool, feed: PythonFeed): (State, nat) -> State {
    (s: State, k: nat) => if k < |feed.ticks| then PythonBarStep(s, sizing, everyTenth, feed.symbol, feed.ticks[k], k) else s
  }

  ghost function PythonRunBars(s: State, sizing: Option<Sizing>, everyTenth: bool, feed: PythonFeed, n: nat): State {
    Walk(s, PythonBarOf(sizing, everyTenth, feed), n)
  }

  ghost function PythonRunFeeds(s: State, sizing: Option<Sizing>, everyTenth: bool, feeds: seq<PythonFeed>): State
    decreases |feeds|
  {
    if feeds == [] then s
    else PythonRunFeeds(PythonRunBars(s, sizing, everyTenth, feeds[0], |feeds[0].ticks|), sizing, everyTenth, feeds[1..])
  }

  function PythonCloseOut(s: State, feeds: seq<PythonFeed>): State
    decreases |feeds|
  {
    if feeds == [] then s
    else if feeds[0].ticks == [] then PythonCloseOut(s, feeds[1..])
    else Sweep(s, 0, EndRule(feeds[0].ticks[|feeds[0].ticks| - 1].bar), |feeds[0].ticks| - 1)
  }

  ghost function PythonRun(initialCapital: real, sizing: Option<Sizing>, everyTenth: bool, feeds: seq<PythonFeed>): State {
    PythonCloseOut(PythonRunFeeds(Start(initialCapital), sizing, everyTenth, feeds), feeds)
  }

  lemma {:induction false} PythonFeedsKeep(p: State -> bool, s: State, sizing: Option<Sizing>, everyTenth: bool, feeds: seq<PythonFeed>)
    requires p(s)
    requires forall t: State, m: nat, k: nat :: m < |feeds| && k < |feeds[m].ticks| && p(t) ==> p(PythonBarOf(sizing, everyTenth, feeds[m])(t, k))
    ensures p(PythonRunFeeds(s, sizing, everyTenth, feeds))
    decreases |feeds|
  {
    if feeds != [] {
      WalkKeeps((t: State, k: nat) => p(t), s, PythonBarOf(sizing, everyTenth, feeds[0]), |feeds[0].ticks|);
      assert forall m: nat :: m < |feeds[1..]| ==> feeds[1..][m] == feeds[m + 1];
      PythonFeedsKeep(p, PythonRunBars(s, sizing, everyTenth, feeds[0], |feeds[0].ticks|), sizing, everyTenth, feeds[1..]);
    }
  }
}

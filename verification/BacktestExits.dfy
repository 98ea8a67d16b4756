/** Which trades a bar closes, at what price and why, and what that means over a run. */
module BacktestExits {
  import opened PositionRows
  import opened Backtest
  import opened BacktestBounds

  // ---- What a sweep keeps and closes ----

  function Kept(trades: seq<Trade>, rule: Trade -> Exit): seq<Trade> {
    if trades == [] then []
    else (if rule(trades[0]).Stay? then [trades[0]] else []) + Kept(trades[1..], rule)
  }

  function Left(trades: seq<Trade>, rule: Trade -> Exit, index: int): seq<Trade> {
    if trades == [] then []
    else
      var exit := rule(trades[0]);
      (if exit.Leave? then [Closed(trades[0], exit.price, index, exit.reason)] else []) + Left(trades[1..], rule, index)
  }

  lemma PrefixJoins(trades: seq<Trade>, k: nat, rest: seq<Trade>)
    requires k < |trades|
    ensures trades[..k + 1] + rest == trades[..k] + ([trades[k]] + rest)
  {
  }

  lemma RemovalSplits(trades: seq<Trade>, k: nat)
    requires k < |trades|
    ensures var left := trades[..k] + trades[k + 1..]; left[..k] == trades[..k] && left[k..] == trades[k + 1..]
  {
  }

  lemma {:induction false} SweepKeeps(s: State, k: nat, rule: Trade -> Exit, index: int)
    requires k <= |s.openTrades|
    ensures Sweep(s, k, rule, index).openTrades == s.openTrades[..k] + Kept(s.openTrades[k..], rule)
    decreases |s.openTrades| - k
  {
    if k < |s.openTrades| {
      var rest := s.openTrades[k..];
      assert rest[0] == s.openTrades[k] && rest[1..] == s.openTrades[k + 1..];
      match rule(s.openTrades[k])
      case Stay =>
        SweepKeeps(s, k + 1, rule, index);
        PrefixJoins(s.openTrades, k, Kept(rest[1..], rule));
      case Leave(price, reason) =>
        var next := CloseAt(s, k, price, index, reason);
        RemovalSplits(s.openTrades, k);
        SweepKeeps(next, k, rule, index);
    }
  }

  lemma {:induction false} SweepCloses(s: State, k: nat, rule: Trade -> Exit, index: int)
    requires k <= |s.openTrades|
    ensures Sweep(s, k, rule, index).closedTrades == s.closedTrades + Left(s.openTrades[k..], rule, index)
    ensures Sweep(s, k, rule, index).warm == s.warm
    decreases |s.openTrades| - k
  {
    if k < |s.openTrades| {
      var rest := s.openTrades[k..];
      assert rest[0] == s.openTrades[k] && rest[1..] == s.openTrades[k + 1..];
      match rule(s.openTrades[k])
      case Stay => SweepCloses(s, k + 1, rule, index);
      case Leave(price, reason) =>
        var next := CloseAt(s, k, price, index, reason);
        RemovalSplits(s.openTrades, k);
        SweepCloses(next, k, rule, index);
    }
  }

  lemma {:induction false} KeptAre(trades: seq<Trade>, rule: Trade -> Exit, t: Trade)
    ensures t in Kept(trades, rule) <==> t in trades && rule(t).Stay?
  {
    if trades != [] {
      KeptAre(trades[1..], rule, t);
      assert trades == [trades[0]] + trades[1..];
    }
  }

  lemma {:induction false} LeftAre(trades: seq<Trade>, rule: Trade -> Exit, index: int, d: Trade)
    ensures d in Left(trades, rule, index) <==>
      exists t :: t in trades && rule(t).Leave? && d == Closed(t, rule(t).price, index, rule(t).reason)
  {
    if trades != [] {
      LeftAre(trades[1..], rule, index, d);
      assert forall t :: t in trades <==> t == trades[0] || t in trades[1..];
    }
  }

  /** A whole sweep, trade by trade. */
  lemma SweepFates(s: State, rule: Trade -> Exit, index: int)
    ensures var after := Sweep(s, 0, rule, index);
            && after.warm == s.warm && s.closedTrades <= after.closedTrades
            && (forall t :: t in after.openTrades <==> t in s.openTrades && rule(t).Stay?)
            && (forall d :: d in after.closedTrades <==> d in s.closedTrades || FromSweep(s, rule, index, d))
  {
    var after := Sweep(s, 0, rule, index);
    SweepKeeps(s, 0, rule, index);
    SweepCloses(s, 0, rule, index);
    assert s.openTrades[0..] == s.openTrades;
    forall t ensures t in after.openTrades <==> t in s.openTrades && rule(t).Stay? {
      KeptAre(s.openTrades, rule, t);
    }
    forall d ensures d in after.closedTrades <==> d in s.closedTrades || FromSweep(s, rule, index, d) {
      LeftAre(s.openTrades, rule, index, d);
    }
  }

  ghost predicate FromSweep(s: State, rule: Trade -> Exit, index: int, d: Trade) {
    exists t :: t in s.openTrades && rule(t).Leave? && d == Closed(t, rule(t).price, index, rule(t).reason)
  }

  // ---- One bar ----

  /** What one bar decides on: `warm` says that the warm-up is over. */
  datatype Moment = Moment(c: Settings, symbol: string, side: Side, tick: Tick, index: int, warm: bool)

  predicate LevelReached(m: Moment, t: Trade) {
    StopReached(m.c.exits, m.tick.bar, m.symbol, t) || TargetReached(m.c.exits, m.tick.bar, m.symbol, t)
    || TimeReached(m.c.exits, m.index, m.symbol, t)
  }

  /** The exit condition holds, or an entry the other way is asked for and signal exits are on. */
  predicate SignalGiven(m: Moment, t: Trade) {
    t.symbol == m.symbol && m.warm && (m.tick.leave || (m.tick.enter && m.c.exits.signalExit && t.side != m.side))
  }

  predicate Remains(m: Moment, t: Trade) {
    !LevelReached(m, t) && !SignalGiven(m, t)
  }

  /** `d` is `t` closed on this bar: at its stop, its target, or else at the bar's close. */
  predicate Exited(m: Moment, t: Trade, d: Trade) {
    var exits, bar, pip := m.c.exits, m.tick.bar, PipValue(m.symbol);
    && d.outcome.Some? && d == t.(outcome := d.outcome)
    && d.outcome.value.exitIndex == m.index && d.outcome.value.holdBars == m.index - t.entryIndex
    && d.outcome.value.pnl == Move(t, d.outcome.value.exitPrice) * t.quantity
    && match d.outcome.value.reason
       case StopLoss =>
         StopReached(exits, bar, m.symbol, t) && Move(t, d.outcome.value.exitPrice) == -(exits.stopLossPips * pip)
       case TakeProfit =>
         && TargetReached(exits, bar, m.symbol, t) && !StopReached(exits, bar, m.symbol, t)
         && Move(t, d.outcome.value.exitPrice) == exits.takeProfitPips * pip
       case TimeExit =>
         && TimeReached(exits, m.index, m.symbol, t) && !StopReached(exits, bar, m.symbol, t) && !TargetReached(exits, bar, m.symbol, t)
         && d.outcome.value.exitPrice == bar.close
       case SignalExit =>
         SignalGiven(m, t) && !LevelReached(m, t) && d.outcome.value.exitPrice == bar.close
       case EndOfData => false
  }

  /** A trade entered on this bar. */
  predicate Entered(m: Moment, t: Trade) {
    && m.warm && m.tick.enter && t.outcome.None?
    && t.symbol == m.symbol && t.side == m.side && t.entryIndex == m.index && t.quantity > 0.0
  }

  /** `d` is such a trade, closed again by the exit condition of the same bar. */
  predicate InAndOut(m: Moment, d: Trade) {
    && m.warm && m.tick.enter && m.tick.leave
    && d.symbol == m.symbol && d.side == m.side && d.entryIndex == m.index
    && d.outcome.Some? && d.outcome.value.exitIndex == m.index && d.outcome.value.reason == SignalExit
    && d.outcome.value.exitPrice == m.tick.bar.close
  }

  /** What a bar does to the trades, told without its order of work. */
  ghost predicate Sorted(m: Moment, s: State, after: State) {
    && s.closedTrades <= after.closedTrades
    && (forall t :: t in s.openTrades && Remains(m, t) ==> t in after.openTrades)
    && (forall t :: t in s.openTrades && !Remains(m, t) ==> ExitedInto(m, t, after.closedTrades))
    && (forall t :: t in after.openTrades ==> (t in s.openTrades && Remains(m, t)) || (Entered(m, t) && !m.tick.leave))
    && (forall d :: d in after.closedTrades ==> d in s.closedTrades || InAndOut(m, d) || ExitedFrom(m, s.openTrades, d))
  }

  ghost predicate ExitedInto(m: Moment, t: Trade, closed: seq<Trade>) {
    exists d :: d in closed && Exited(m, t, d)
  }

  ghost predicate ExitedFrom(m: Moment, open: seq<Trade>, d: Trade) {
    exists t :: t in open && Exited(m, t, d)
  }

  function MomentOf(s: State, c: Settings, symbol: string, side: Side, tick: Tick, index: int): Moment {
    Moment(c, symbol, side, tick, index, s.warm || index >= c.warmupBars)
  }

  lemma RightExitIsExit(m: Moment, t: Trade, exit: Exit)
    requires RightExit(m.c.exits, m.tick.bar, m.index, m.symbol, t, exit)
    ensures exit.Stay? <==> !LevelReached(m, t)
    ensures exit.Leave? ==> Exited(m, t, Closed(t, exit.price, m.index, exit.reason))
  {
    if exit.Leave? {
      PnlIsMove(t, exit.price);
    }
  }

  lemma LevelExits(m: Moment, t: Trade)
    ensures var exit := ExitsOf(m.c.exits, m.tick.bar, m.index, m.symbol)(t);
            && (exit.Stay? <==> !LevelReached(m, t))
            && (exit.Leave? ==> Exited(m, t, Closed(t, exit.price, m.index, exit.reason)))
  {
    ExitsAreRight(m.c.exits, m.tick.bar, m.index, m.symbol, t);
    RightExitIsExit(m, t, ExitRule(m.c.exits, m.tick.bar, m.index, m.symbol, t));
  }

  /** The stop, target and time exits of a bar. */
  ghost predicate LevelStage(m: Moment, s: State, after: State) {
    && after.warm == s.warm && s.closedTrades <= after.closedTrades
    && (forall t :: t in after.openTrades <==> t in s.openTrades && !LevelReached(m, t))
    && (forall t :: t in s.openTrades && LevelReached(m, t) ==> ExitedInto(m, t, after.closedTrades))
    && (forall d :: d in after.closedTrades ==> d in s.closedTrades || ExitedFrom(m, s.openTrades, d))
  }

  lemma LevelsSort(m: Moment, s: State)
    ensures LevelStage(m, s, Sweep(s, 0, ExitsOf(m.c.exits, m.tick.bar, m.index, m.symbol), m.index))
  {
    var rule := ExitsOf(m.c.exits, m.tick.bar, m.index, m.symbol);
    var after := Sweep(s, 0, rule, m.index);
    SweepFates(s, rule, m.index);
    forall t ensures rule(t).Stay? <==> !LevelReached(m, t)
      ensures rule(t).Leave? ==> Exited(m, t, Closed(t, rule(t).price, m.index, rule(t).reason))
    {
      LevelExits(m, t);
    }
    forall t | t in s.openTrades && LevelReached(m, t) ensures ExitedInto(m, t, after.closedTrades) {
      assert FromSweep(s, rule, m.index, Closed(t, rule(t).price, m.index, rule(t).reason));
    }
  }

  /** The part of a bar after the level exits: trades in `gone` are closed at the bar's close, the
    * rest stay, and a trade may have been entered. */
  ghost predicate Stage(m: Moment, s: State, gone: Trade -> bool, after: State) {
    && after.warm == s.warm && s.closedTrades <= after.closedTrades
    && (forall t :: t in s.openTrades && !gone(t) ==> t in after.openTrades)
    && (forall t :: t in s.openTrades && gone(t) ==> AtClose(m, t) in after.closedTrades)
    && (forall t :: t in after.openTrades ==> (t in s.openTrades && !gone(t)) || Entered(m, t))
    && (forall d :: d in after.closedTrades ==> d in s.closedTrades || GoneFrom(m, s.openTrades, gone, d))
  }

  function AtClose(m: Moment, t: Trade): Trade {
    Closed(t, m.tick.bar.close, m.index, SignalExit)
  }

  ghost predicate GoneFrom(m: Moment, open: seq<Trade>, gone: Trade -> bool, d: Trade) {
    exists t :: t in open && gone(t) && d == AtClose(m, t)
  }

  /** A sweep whose rule closes exactly the trades in `gone`, at the bar's close. */
  lemma SignalsSort(m: Moment, s: State, rule: Trade -> Exit, gone: Trade -> bool)
    requires forall t :: rule(t) == if gone(t) then Leave(m.tick.bar.close, SignalExit) else Stay
    ensures Stage(m, s, gone, Sweep(s, 0, rule, m.index))
    ensures forall t :: t in Sweep(s, 0, rule, m.index).openTrades ==> t in s.openTrades && !gone(t)
  {
    var after := Sweep(s, 0, rule, m.index);
    SweepFates(s, rule, m.index);
    forall t | t in s.openTrades && gone(t) ensures AtClose(m, t) in after.closedTrades {
      assert rule(t).Leave?;
      assert FromSweep(s, rule, m.index, AtClose(m, t));
    }
    forall d | d in after.closedTrades && d !in s.closedTrades ensures GoneFrom(m, s.openTrades, gone, d) {
      assert FromSweep(s, rule, m.index, d);
    }
  }

  function Opposed(m: Moment): Trade -> bool {
    (t: Trade) => t.symbol == m.symbol && m.c.exits.signalExit && t.side != m.side
  }

  function OfSymbol(m: Moment): Trade -> bool {
    (t: Trade) => t.symbol == m.symbol
  }

  /** The entry of a bar, with the closes of the other side that come first. */
  lemma EntrySorts(m: Moment, s: State)
    requires m.warm && m.tick.enter
    ensures Stage(m, s, Opposed(m), ProcessEntry(s, m.c, m.symbol, m.side, m.tick.bar, m.index))
  {
    var rule := OppositeRule(m.tick.bar, m.symbol, m.side);
    if m.c.exits.signalExit {
      SignalsSort(m, s, rule, Opposed(m));
    }
  }

  ghost predicate EntryStage(m: Moment, s: State, after: State) {
    if m.warm && m.tick.enter then Stage(m, s, Opposed(m), after) else after == s
  }

  ghost predicate LeaveStage(m: Moment, s: State, after: State) {
    if m.warm && m.tick.leave
    then Stage(m, s, OfSymbol(m), after) && forall t :: t in after.openTrades ==> t in s.openTrades && !OfSymbol(m)(t)
    else after == s
  }

  lemma AtCloseIsExit(m: Moment, t: Trade)
    requires SignalGiven(m, t) && !LevelReached(m, t)
    ensures Exited(m, t, AtClose(m, t))
  {
    PnlIsMove(t, m.tick.bar.close);
  }

  lemma StagesExit(m: Moment, s: State, s1: State, s2: State, after: State, t: Trade)
    requires LevelStage(m, s, s1) && EntryStage(m, s1, s2) && LeaveStage(m, s2, after)
    requires t in s.openTrades && !Remains(m, t)
    ensures ExitedInto(m, t, after.closedTrades)
  {
    if LevelReached(m, t) {
      var d :| d in s1.closedTrades && Exited(m, t, d);
      assert d in s2.closedTrades && d in after.closedTrades;
    } else {
      AtCloseIsExit(m, t);
      assert t in s1.openTrades;
      if m.tick.enter && Opposed(m)(t) {
        assert AtClose(m, t) in s2.closedTrades;
      } else {
        assert t in s2.openTrades && OfSymbol(m)(t);
      }
      assert AtClose(m, t) in after.closedTrades;
    }
  }

  lemma StagesClose(m: Moment, s: State, s1: State, s2: State, after: State, d: Trade)
    requires LevelStage(m, s, s1) && EntryStage(m, s1, s2) && LeaveStage(m, s2, after)
    requires d in after.closedTrades
    ensures d in s.closedTrades || InAndOut(m, d) || ExitedFrom(m, s.openTrades, d)
  {
    if d !in s1.closedTrades {
      if d in s2.closedTrades {
        var t :| t in s1.openTrades && Opposed(m)(t) && d == AtClose(m, t);
        AtCloseIsExit(m, t);
      } else {
        var t :| t in s2.openTrades && OfSymbol(m)(t) && d == AtClose(m, t);
        if t in s1.openTrades {
          AtCloseIsExit(m, t);
        }
      }
    }
  }

  /** The levels, then the two signal stages, sort the trades. */
  lemma StagesSort(m: Moment, s: State, s1: State, s2: State, after: State)
    requires LevelStage(m, s, s1) && EntryStage(m, s1, s2) && LeaveStage(m, s2, after)
    ensures Sorted(m, s, after)
  {
    forall t | t in s.openTrades && !Remains(m, t) ensures ExitedInto(m, t, after.closedTrades) {
      StagesExit(m, s, s1, s2, after, t);
    }
    forall d | d in after.closedTrades ensures d in s.closedTrades || InAndOut(m, d) || ExitedFrom(m, s.openTrades, d) {
      StagesClose(m, s, s1, s2, after, d);
    }
    forall t | t in after.openTrades ensures (t in s.openTrades && Remains(m, t)) || (Entered(m, t) && !m.tick.leave) {
      assert t in s2.openTrades;
    }
  }

  lemma TradesSort(s: State, c: Settings, symbol: string, side: Side, tick: Tick, index: int)
    ensures Sorted(MomentOf(s, c, symbol, side, tick, index), s, TradeStep(s, c, symbol, side, tick, index))
  {
    var m := MomentOf(s, c, symbol, side, tick, index);
    var s0 := WarmUp(s, c, index);
    LevelsSort(m, s0);
    var s1 := Sweep(s0, 0, ExitsOf(c.exits, tick.bar, index, symbol), index);
    var s2 := if s1.warm && tick.enter then ProcessEntry(s1, c, symbol, side, tick.bar, index) else s1;
    if m.warm && tick.enter {
      EntrySorts(m, s1);
    }
    var after := TradeStep(s, c, symbol, side, tick, index);
    if m.warm && tick.leave {
      SignalsSort(m, s2, SignalRule(tick.bar, symbol), OfSymbol(m));
    }
    StagesSort(m, s0, s1, s2, after);
  }

  // ---- The whole bar ----

  /** An open trade as the bar leaves it: its excursions follow the bars of its symbol. */
  function Aged(m: Moment, t: Trade): Trade {
    if t.symbol == m.symbol then Excursion(t, m.tick.bar) else t
  }

  ghost predicate AgedFrom(m: Moment, open: seq<Trade>, u: Trade) {
    exists t :: u == Aged(m, t) && ((t in open && Remains(m, t)) || (Entered(m, t) && !m.tick.leave))
  }

  /** What a bar does to every trade: those that neither a level nor a signal takes out stay open,
    * the others are closed for that cause and at its price, and what else is open was entered. */
  ghost predicate BarSorted(m: Moment, s: State, after: State) {
    && s.closedTrades <= after.closedTrades
    && (forall t :: t in s.openTrades ==> if Remains(m, t) then Aged(m, t) in after.openTrades else ExitedInto(m, t, after.closedTrades))
    && (forall u :: u in after.openTrades ==> AgedFrom(m, s.openTrades, u))
    && (forall d :: d in after.closedTrades ==> d in s.closedTrades || InAndOut(m, d) || ExitedFrom(m, s.openTrades, d))
  }

  lemma AgingSorts(m: Moment, s: State, mid: State, everyTenth: bool)
    requires Sorted(m, s, mid)
    ensures BarSorted(m, s, RecordEquity(UpdateExcursions(mid, m.symbol, m.tick.bar), everyTenth, m.tick.bar, m.index))
  {
    var after := UpdateExcursions(mid, m.symbol, m.tick.bar);
    forall t | t in mid.openTrades ensures Aged(m, t) in after.openTrades {
      var k :| 0 <= k < |mid.openTrades| && mid.openTrades[k] == t;
      assert after.openTrades[k] == Aged(m, t);
    }
    forall u | u in after.openTrades ensures AgedFrom(m, s.openTrades, u) {
      var k :| 0 <= k < |after.openTrades| && after.openTrades[k] == u;
      assert mid.openTrades[k] in mid.openTrades && u == Aged(m, mid.openTrades[k]);
    }
  }

  lemma BarSorts(s: State, c: Settings, symbol: string, side: Side, tick: Tick, index: int)
    ensures BarSorted(MomentOf(s, c, symbol, side, tick, index), s, BarStep(s, c, symbol, side, tick, index))
  {
    TradesSort(s, c, symbol, side, tick, index);
    AgingSorts(MomentOf(s, c, symbol, side, tick, index), s, TradeStep(s, c, symbol, side, tick, index), c.everyTenth);
  }

  /** A true exit condition on a warmed-up bar leaves no trade of its symbol open: those that reached
    * no level are closed at the bar's close, and the other symbols' trades are left alone. */
  lemma ExitSignalCloses(s: State, c: Settings, symbol: string, side: Side, tick: Tick, index: int)
    requires (s.warm || index >= c.warmupBars) && tick.leave
    ensures var m, after := MomentOf(s, c, symbol, side, tick, index), BarStep(s, c, symbol, side, tick, index);
            && (forall t :: t in after.openTrades ==> t.symbol != symbol)
            && (forall t :: t in s.openTrades && t.symbol != symbol ==> t in after.openTrades)
            && (forall t :: t in s.openTrades && t.symbol == symbol && !LevelReached(m, t) ==> ClosedAt(t, after.closedTrades, tick.bar.close, index))
  {
    BarSorts(s, c, symbol, side, tick, index);
    var m, after := MomentOf(s, c, symbol, side, tick, index), BarStep(s, c, symbol, side, tick, index);
    forall t | t in s.openTrades && t.symbol == symbol && !LevelReached(m, t)
      ensures ClosedAt(t, after.closedTrades, tick.bar.close, index)
    {
      var d :| d in after.closedTrades && Exited(m, t, d);
    }
    forall t | t in s.openTrades && t.symbol != symbol ensures t in after.openTrades {
      assert Remains(m, t);
    }
  }

  ghost predicate ClosedAt(t: Trade, closed: seq<Trade>, price: real, index: int) {
    exists d :: d in closed && d == t.(outcome := d.outcome) && d.outcome.Some?
      && d.outcome.value.exitPrice == price && d.outcome.value.exitIndex == index && d.outcome.value.reason == SignalExit
  }

  /** So does, with signal exits on, an entry the other way, for the trades of the side it leaves. */
  lemma OppositeEntryCloses(s: State, c: Settings, symbol: string, side: Side, tick: Tick, index: int, t: Trade)
    requires (s.warm || index >= c.warmupBars) && tick.enter && c.exits.signalExit
    requires t in s.openTrades && t.symbol == symbol && t.side != side
    requires !LevelReached(MomentOf(s, c, symbol, side, tick, index), t)
    ensures ClosedAt(t, BarStep(s, c, symbol, side, tick, index).closedTrades, tick.bar.close, index)
  {
    BarSorts(s, c, symbol, side, tick, index);
    var m := MomentOf(s, c, symbol, side, tick, index);
    var d :| d in BarStep(s, c, symbol, side, tick, index).closedTrades && Exited(m, t, d);
  }

  // ---- A run over one symbol ----

  /** Bar `k` gives the trade a cause to leave. */
  predicate Cause(c: Settings, feed: Feed, t: Trade, k: nat)
    requires k < |feed.ticks|
  {
    || (k > t.entryIndex && (StopReached(c.exits, feed.ticks[k].bar, feed.symbol, t)
                             || TargetReached(c.exits, feed.ticks[k].bar, feed.symbol, t)
                             || TimeReached(c.exits, k, feed.symbol, t)))
    || (k >= c.warmupBars && feed.ticks[k].leave)
  }

  /** No bar from its entry bar up to `n` has. */
  ghost predicate NoCause(c: Settings, feed: Feed, t: Trade, n: int) {
    forall k: nat :: t.entryIndex <= k < n && k < |feed.ticks| ==> !Cause(c, feed, t, k)
  }

  /** The trade left on the first bar that gave it a cause, for that cause and at its price; or, with
    * none, at the close of the last bar. */
  ghost predicate LeftInTime(c: Settings, feed: Feed, side: Side, t: Trade) {
    && t.outcome.Some? && t.symbol == feed.symbol && t.side == side
    && 0 <= t.entryIndex <= t.outcome.value.exitIndex < |feed.ticks|
    && NoCause(c, feed, t, if t.outcome.value.reason == EndOfData then |feed.ticks| else t.outcome.value.exitIndex)
    && LeftFor(c, feed, t, t.outcome.value.exitIndex)
  }

  predicate LeftFor(c: Settings, feed: Feed, t: Trade, k: nat)
    requires t.outcome.Some? && k < |feed.ticks|
  {
    var exits, bar, pip, price := c.exits, feed.ticks[k].bar, PipValue(feed.symbol), t.outcome.value.exitPrice;
    match t.outcome.value.reason
    case StopLoss => k > t.entryIndex && StopReached(exits, bar, feed.symbol, t) && Move(t, price) == -(exits.stopLossPips * pip)
    case TakeProfit =>
      && k > t.entryIndex && TargetReached(exits, bar, feed.symbol, t) && !StopReached(exits, bar, feed.symbol, t)
      && Move(t, price) == exits.takeProfitPips * pip
    case TimeExit =>
      && k > t.entryIndex && TimeReached(exits, k, feed.symbol, t)
      && !StopReached(exits, bar, feed.symbol, t) && !TargetReached(exits, bar, feed.symbol, t) && price == bar.close
    case SignalExit => k >= c.warmupBars && feed.ticks[k].leave && price == bar.close
    case EndOfData => k == |feed.ticks| - 1 && price == bar.close
  }

  /** After `n` bars: what is open has had no cause to leave, what is closed left in time. */
  ghost predicate InTime(s: State, c: Settings, feed: Feed, side: Side, n: nat) {
    && n <= |feed.ticks|
    && (s.warm <==> n > 0 && n - 1 >= c.warmupBars)
    && (forall t :: t in s.openTrades ==> Waiting(c, feed, side, t, n))
    && (forall t :: t in s.closedTrades ==> LeftInTime(c, feed, side, t) && t.outcome.value.reason != EndOfData)
  }

  ghost predicate Waiting(c: Settings, feed: Feed, side: Side, t: Trade, n: nat) {
    t.symbol == feed.symbol && t.side == side && 0 <= t.entryIndex < n && NoCause(c, feed, t, n)
  }

  /** Causes depend on the entry columns of a trade only. */
  lemma SameCauses(c: Settings, feed: Feed, t: Trade, u: Trade, n: int)
    requires u.symbol == t.symbol && u.side == t.side && u.entryPrice == t.entryPrice && u.entryIndex == t.entryIndex
    ensures NoCause(c, feed, t, n) <==> NoCause(c, feed, u, n)
  {
    assert forall bar :: Favorable(u, bar) == Favorable(t, bar) && Adverse(u, bar) == Adverse(t, bar);
    assert forall k: nat :: k < |feed.ticks| ==> (Cause(c, feed, t, k) <==> Cause(c, feed, u, k));
  }

  lemma BarKeepsTime(s: State, c: Settings, feed: Feed, side: Side, n: nat)
    requires InTime(s, c, feed, side, n) && n < |feed.ticks|
    ensures InTime(BarStep(s, c, feed.symbol, side, feed.ticks[n], n), c, feed, side, n + 1)
  {
    var tick := feed.ticks[n];
    var m, after := MomentOf(s, c, feed.symbol, side, tick, n), BarStep(s, c, feed.symbol, side, tick, n);
    BarSorts(s, c, feed.symbol, side, tick, n);
    BarWarms(s, c, feed.symbol, side, tick, n);
    forall u | u in after.openTrades ensures Waiting(c, feed, side, u, n + 1) {
      var t :| u == Aged(m, t) && ((t in s.openTrades && Remains(m, t)) || (Entered(m, t) && !tick.leave));
      StillWaiting(s, c, feed, side, n, t);
      SameCauses(c, feed, t, u, n + 1);
    }
    forall d | d in after.closedTrades && d !in s.closedTrades
      ensures LeftInTime(c, feed, side, d) && d.outcome.value.reason != EndOfData
    {
      if !InAndOut(m, d) {
        var t :| t in s.openTrades && Exited(m, t, d);
        ExitedInTime(s, c, feed, side, n, t, d);
      }
    }
  }

  lemma BarWarms(s: State, c: Settings, symbol: string, side: Side, tick: Tick, index: int)
    ensures BarStep(s, c, symbol, side, tick, index).warm == (s.warm || index >= c.warmupBars)
  {
    var s0 := WarmUp(s, c, index);
    SweepCloses(s0, 0, ExitsOf(c.exits, tick.bar, index, symbol), index);
    var s1 := Sweep(s0, 0, ExitsOf(c.exits, tick.bar, index, symbol), index);
    SweepCloses(s1, 0, OppositeRule(tick.bar, symbol, side), index);
    var s2 := if s1.warm && tick.enter then ProcessEntry(s1, c, symbol, side, tick.bar, index) else s1;
    SweepCloses(s2, 0, SignalRule(tick.bar, symbol), index);
  }

  lemma StillWaiting(s: State, c: Settings, feed: Feed, side: Side, n: nat, t: Trade)
    requires InTime(s, c, feed, side, n) && n < |feed.ticks|
    requires var m := MomentOf(s, c, feed.symbol, side, feed.ticks[n], n);
             (t in s.openTrades && Remains(m, t)) || (Entered(m, t) && !feed.ticks[n].leave)
    ensures Waiting(c, feed, side, t, n + 1)
  {
    if t in s.openTrades {
      assert Waiting(c, feed, side, t, n);
    }
  }

  lemma ExitedInTime(s: State, c: Settings, feed: Feed, side: Side, n: nat, t: Trade, d: Trade)
    requires InTime(s, c, feed, side, n) && n < |feed.ticks| && t in s.openTrades
    requires Exited(MomentOf(s, c, feed.symbol, side, feed.ticks[n], n), t, d)
    ensures LeftInTime(c, feed, side, d) && d.outcome.value.reason != EndOfData
  {
    assert Waiting(c, feed, side, t, n);
    SameCauses(c, feed, t, d, n);
    assert forall bar :: Favorable(d, bar) == Favorable(t, bar) && Adverse(d, bar) == Adverse(t, bar);
  }

  lemma BarsKeepTime(initial: real, c: Settings, feed: Feed, side: Side, n: nat)
    requires n <= |feed.ticks|
    ensures InTime(RunBars(Start(initial), c, feed, side, n), c, feed, side, n)
  {
    ghost var p: (State, nat) -> bool := (t: State, k: nat) => InTime(t, c, feed, side, k);
    forall t: State, k: nat | k < |feed.ticks| && p(t, k)
      ensures p(BarOf(c, feed, side)(t, k), k + 1)
    {
      BarKeepsTime(t, c, feed, side, k);
    }
    BarsAdvance(p, Start(initial), c, feed, side, n);
    assert p(RunBars(Start(initial), c, feed, side, n), n);
  }

  /** In every single-symbol run, a trade leaves on the first bar that gives it a cause - its stop,
    * its target or its time limit on a later bar than its own, a true exit condition on any warmed-up
    * bar - for that cause, in that order, at that cause's price; a trade still open has had none, and
    * is closed at the last bar's close. */
  lemma TradesLeaveInTime(initial: real, c: Settings, feed: Feed, side: Side)
    ensures forall n: nat :: n <= |feed.ticks| ==> InTime(RunBars(Start(initial), c, feed, side, n), c, feed, side, n)
    ensures forall t :: t in Run(initial, c, [feed], side).closedTrades ==> LeftInTime(c, feed, side, t)
  {
    forall n: nat | n <= |feed.ticks| ensures InTime(RunBars(Start(initial), c, feed, side, n), c, feed, side, n) {
      BarsKeepTime(initial, c, feed, side, n);
    }
    RunOfOneFeed(initial, c, feed, side);
    var n := |feed.ticks|;
    if n > 0 {
      var last := RunBars(Start(initial), c, feed, side, n);
      var rule := EndRule(feed.ticks[n - 1].bar);
      SweepFates(last, rule, n - 1);
      forall d | d in Sweep(last, 0, rule, n - 1).closedTrades && d !in last.closedTrades ensures LeftInTime(c, feed, side, d) {
        var t :| t in last.openTrades && d == Closed(t, rule(t).price, n - 1, rule(t).reason);
        SameCauses(c, feed, t, d, n);
      }
    }
  }
}

/** The sampled equity curve against its drawdown specification, and how low cash can go. */
module BacktestCurve {
  import opened Reals
  import opened Sums
  import opened PositionRows
  import opened Backtest
  import Drawdown

  // ---- The equity curve ----

  /** The initial capital followed by the sampled equities. */
  function Curve(initial: real, points: seq<EquityPoint>): seq<real> {
    [initial] + seq(|points|, k requires 0 <= k < |points| => points[k].equity)
  }

  /** The stored peak is the curve's peak, and every point carries its decline from the peak so
    * far. */
  predicate Tracks(s: State, initial: real) {
    PointsTrack(s.points, s.peakEquity, initial)
  }

  predicate PointsTrack(points: seq<EquityPoint>, peak: real, initial: real) {
    && peak == Drawdown.PeakAt(Curve(initial, points), |points|)
    && forall k :: 0 <= k < |points| ==> PointTracks(points, k, initial)
  }

  predicate PointTracks(points: seq<EquityPoint>, k: nat, initial: real)
    requires k < |points|
  {
    points[k].drawdownPct == DrawdownPct(Drawdown.PeakAt(Curve(initial, points), k + 1), points[k].equity)
  }

  lemma {:induction false} PeakOfPrefix(e: seq<real>, x: real, k: nat)
    requires k < |e|
    ensures Drawdown.PeakAt(e + [x], k) == Drawdown.PeakAt(e, k)
  {
    if k > 0 {
      PeakOfPrefix(e, x, k - 1);
    }
  }

  lemma PointAdded(points: seq<EquityPoint>, peak: real, p: EquityPoint, initial: real)
    requires PointsTrack(points, peak, initial)
    requires p.drawdownPct == DrawdownPct(Max(p.equity, peak), p.equity)
    ensures PointsTrack(points + [p], Max(p.equity, peak), initial)
  {
    var curve, more := Curve(initial, points), points + [p];
    assert Curve(initial, more) == curve + [p.equity];
    forall k | 0 <= k < |curve| ensures Drawdown.PeakAt(curve + [p.equity], k) == Drawdown.PeakAt(curve, k) {
      PeakOfPrefix(curve, p.equity, k);
    }
    forall k | 0 <= k < |more| ensures PointTracks(more, k, initial) {
      assert k < |points| ==> PointTracks(points, k, initial);
    }
  }

  lemma RecordTracks(s: State, everyTenth: bool, bar: Bar, index: int, initial: real)
    requires Tracks(s, initial)
    ensures Tracks(RecordEquity(s, everyTenth, bar, index), initial)
  {
    var after := RecordEquity(s, everyTenth, bar, index);
    if after.points != s.points {
      PointAdded(s.points, s.peakEquity, after.points[|s.points|], initial);
    }
  }

  lemma {:induction false} SweepKeepsCurve(s: State, k: nat, rule: Trade -> Exit, index: int)
    requires k <= |s.openTrades|
    ensures Sweep(s, k, rule, index).points == s.points && Sweep(s, k, rule, index).peakEquity == s.peakEquity
    decreases |s.openTrades| - k
  {
    if k < |s.openTrades| {
      match rule(s.openTrades[k])
      case Stay => SweepKeepsCurve(s, k + 1, rule, index);
      case Leave(price, reason) => SweepKeepsCurve(CloseAt(s, k, price, index, reason), k, rule, index);
    }
  }

  lemma BarTracks(s: State, c: Settings, symbol: string, side: Side, tick: Tick, index: int, initial: real)
    requires Tracks(s, initial)
    ensures Tracks(BarStep(s, c, symbol, side, tick, index), initial)
  {
    var s0 := WarmUp(s, c, index);
    SweepKeepsCurve(s0, 0, ExitsOf(c.exits, tick.bar, index, symbol), index);
    var s1 := Sweep(s0, 0, ExitsOf(c.exits, tick.bar, index, symbol), index);
    SweepKeepsCurve(s1, 0, OppositeRule(tick.bar, symbol, side), index);
    var s2 := if s1.warm && tick.enter then ProcessEntry(s1, c, symbol, side, tick.bar, index) else s1;
    assert s2.points == s.points && s2.peakEquity == s.peakEquity;
    SweepKeepsCurve(s2, 0, SignalRule(tick.bar, symbol), index);
    var s3 := if s2.warm && tick.leave then Sweep(s2, 0, SignalRule(tick.bar, symbol), index) else s2;
    RecordTracks(UpdateExcursions(s3, symbol, tick.bar), c.everyTenth, tick.bar, index, initial);
  }

  lemma StartTracks(initial: real)
    ensures Tracks(Start(initial), initial)
  {
    assert Curve(initial, Start(initial).points) == [initial];
  }

  lemma FeedsTrack(initial: real, c: Settings, feeds: seq<Feed>, side: Side)
    ensures Tracks(RunFeeds(Start(initial), c, feeds, side), initial)
  {
    var p := (t: State) => Tracks(t, initial);
    assert p(Start(initial)) by {
      StartTracks(initial);
    }
    forall t: State, m: nat, k: nat | m < |feeds| && k < |feeds[m].ticks| && p(t)
      ensures p(BarOf(c, feeds[m], side)(t, k))
    {
      BarTracks(t, c, feeds[m].symbol, side, feeds[m].ticks[k], k, initial);
    }
    FeedsKeep(p, Start(initial), c, feeds, side);
    assert p(RunFeeds(Start(initial), c, feeds, side));
  }

  lemma {:induction false} CloseOutKeepsCurve(s: State, feeds: seq<Feed>)
    ensures CloseOut(s, feeds).points == s.points && CloseOut(s, feeds).peakEquity == s.peakEquity
    decreases |feeds|
  {
    if feeds != [] {
      if feeds[0].ticks == [] {
        CloseOutKeepsCurve(s, feeds[1..]);
      } else {
        SweepKeepsCurve(s, 0, EndRule(feeds[0].ticks[|feeds[0].ticks| - 1].bar), |feeds[0].ticks| - 1);
      }
    }
  }

  lemma RunsTrack(initial: real, c: Settings, feeds: seq<Feed>, side: Side)
    ensures Tracks(Run(initial, c, feeds, side), initial)
  {
    FeedsTrack(initial, c, feeds, side);
    CloseOutKeepsCurve(RunFeeds(Start(initial), c, feeds, side), feeds);
  }

  /** The reported maximum drawdown. */
  function MaxDrawdownPct(points: seq<EquityPoint>): real {
    if points == [] then 0.0
    else
      var last := points[|points| - 1].drawdownPct;
      if |points| == 1 then last else Max(MaxDrawdownPct(points[..|points| - 1]), last)
  }

  lemma OnePassStep(curve: seq<real>, n: nat)
    requires 0 < n < |curve|
    ensures Drawdown.OnePass(curve, n + 1)
            == Max(Drawdown.OnePass(curve, n), DrawdownPct(Drawdown.PeakAt(curve, n), curve[n]))
    ensures DrawdownPct(Drawdown.PeakAt(curve, n), curve[n]) >= 0.0
  {
    Drawdown.PeakIsLargest(curve, n);
    DrawdownNonNegative(Drawdown.PeakAt(curve, n), curve[n]);
    OnePassNonNegative(curve, n);
  }

  lemma DrawdownNonNegative(peak: real, equity: real)
    requires equity <= peak
    ensures DrawdownPct(peak, equity) >= 0.0
  {
    if peak > 0.0 {
      DivMul(peak - equity, peak);
      SignOfProduct((peak - equity) / peak, peak);
    }
  }

  lemma {:induction false} OnePassNonNegative(curve: seq<real>, n: nat)
    requires n <= |curve|
    ensures Drawdown.OnePass(curve, n) >= 0.0
  {
    if n > 0 {
      OnePassNonNegative(curve, n - 1);
    }
  }

  lemma {:induction false} MaxPointIsOnePass(points: seq<EquityPoint>, initial: real, n: nat)
    requires n <= |points| && forall k :: 0 <= k < |points| ==> PointTracks(points, k, initial)
    ensures MaxDrawdownPct(points[..n]) == Drawdown.OnePass(Curve(initial, points), n + 1)
  {
    var curve := Curve(initial, points);
    if n == 0 {
      FirstPointHasNoDecline(curve);
    } else {
      MaxPointIsOnePass(points, initial, n - 1);
      OnePassStep(curve, n);
      assert PointTracks(points, n - 1, initial);
      assert points[..n][..n - 1] == points[..n - 1];
      if n == 1 {
        FirstPointHasNoDecline(curve);
      }
    }
  }

  lemma FirstPointHasNoDecline(curve: seq<real>)
    requires |curve| > 0
    ensures Drawdown.OnePass(curve, 1) == 0.0
  {
    assert Drawdown.PeakAt(curve, 0) == curve[0];
    assert Drawdown.OnePass(curve, 0) == 0.0;
  }

  lemma CurveIsOnePass(s: State, initial: real)
    requires Tracks(s, initial)
    ensures var curve := Curve(initial, s.points); MaxDrawdownPct(s.points) == Drawdown.OnePass(curve, |curve|)
  {
    MaxPointIsOnePass(s.points, initial, |s.points|);
    assert s.points[..|s.points|] == s.points;
  }

  /** The reported maximum drawdown of any run is the largest decline over all pairs of the
    * sampled curve with the initial capital in front exactly when every fall to a negative value
    * is matched by one from a running peak; so whenever equity stays nonnegative. */
  lemma ReportedDrawdownIsMaxIff(initial: real, c: Settings, feeds: seq<Feed>, side: Side)
    ensures var points := Run(initial, c, feeds, side).points;
            && (Drawdown.IsMaxDrawdown(Curve(initial, points), MaxDrawdownPct(points))
                <==> Drawdown.NegativesAreMatched(Curve(initial, points)))
            && ((forall k :: 0 <= k < |points| ==> points[k].equity >= 0.0) && initial >= 0.0 ==>
                Drawdown.NegativesAreMatched(Curve(initial, points)))
  {
    RunsTrack(initial, c, feeds, side);
    CurveDrawdownIsMaxIff(Run(initial, c, feeds, side), initial);
  }

  lemma CurveDrawdownIsMaxIff(s: State, initial: real)
    requires Tracks(s, initial)
    ensures var curve := Curve(initial, s.points);
            && (Drawdown.IsMaxDrawdown(curve, MaxDrawdownPct(s.points)) <==> Drawdown.NegativesAreMatched(curve))
            && ((forall k :: 0 <= k < |s.points| ==> s.points[k].equity >= 0.0) && initial >= 0.0 ==>
                Drawdown.NegativesAreMatched(curve))
  {
    var curve := Curve(initial, s.points);
    CurveIsOnePass(s, initial);
    Drawdown.OnePassIsMaxIff(curve);
    if forall k :: 0 <= k < |curve| ==> curve[k] >= 0.0 {
      Drawdown.OnePassIsMaxDrawdown(curve);
    }
  }

  // ---- The same for the Python runner ----

  lemma {:induction false} SignalsKeepCurve(s: State, sizing: Option<Sizing>, signals: seq<Signal>, bar: Bar, index: int)
    ensures ProcessSignals(s, sizing, signals, bar, index).points == s.points
    ensures ProcessSignals(s, sizing, signals, bar, index).peakEquity == s.peakEquity
    decreases |signals|
  {
    if signals != [] {
      SignalsKeepCurve(ProcessSignal(s, sizing, signals[0], bar, index), sizing, signals[1..], bar, index);
    }
  }

  lemma PythonBarTracks(s: State, sizing: Option<Sizing>, everyTenth: bool, symbol: string, tick: PythonTick, index: int, initial: real)
    requires Tracks(s, initial)
    ensures Tracks(PythonBarStep(s, sizing, everyTenth, symbol, tick, index), initial)
  {
    var s0 := if index >= 200 then s.(warm := true) else s;
    SweepKeepsCurve(s0, 0, LevelRule(tick.bar), index);
    var s1 := Sweep(s0, 0, LevelRule(tick.bar), index);
    SignalsKeepCurve(s1, sizing, tick.signals, tick.bar, index);
    var s2 := if s1.warm then ProcessSignals(s1, sizing, tick.signals, tick.bar, index) else s1;
    RecordTracks(UpdateExcursions(s2, symbol, tick.bar), everyTenth, tick.bar, index, initial);
  }

  lemma PythonFeedsTrack(initial: real, sizing: Option<Sizing>, everyTenth: bool, feeds: seq<PythonFeed>)
    ensures Tracks(PythonRunFeeds(Start(initial), sizing, everyTenth, feeds), initial)
  {
    var p := (t: State) => Tracks(t, initial);
    assert p(Start(initial)) by {
      StartTracks(initial);
    }
    forall t: State, m: nat, k: nat | m < |feeds| && k < |feeds[m].ticks| && p(t)
      ensures p(PythonBarOf(sizing, everyTenth, feeds[m])(t, k))
    {
      PythonBarTracks(t, sizing, everyTenth, feeds[m].symbol, feeds[m].ticks[k], k, initial);
    }
    PythonFeedsKeep(p, Start(initial), sizing, everyTenth, feeds);
    assert p(PythonRunFeeds(Start(initial), sizing, everyTenth, feeds));
  }

  lemma {:induction false} PythonCloseOutKeepsCurve(s: State, feeds: seq<PythonFeed>)
    ensures PythonCloseOut(s, feeds).points == s.points && PythonCloseOut(s, feeds).peakEquity == s.peakEquity
    decreases |feeds|
  {
    if feeds != [] {
      if feeds[0].ticks == [] {
        PythonCloseOutKeepsCurve(s, feeds[1..]);
      } else {
        SweepKeepsCurve(s, 0, EndRule(feeds[0].ticks[|feeds[0].ticks| - 1].bar), |feeds[0].ticks| - 1);
      }
    }
  }

  /** Every sampled point of a Python run carries its decline from the peak so far, and the same
    * exact condition governs its reported drawdown. */
  lemma PythonRunsTrack(initial: real, sizing: Option<Sizing>, everyTenth: bool, feeds: seq<PythonFeed>)
    ensures var s := PythonRun(initial, sizing, everyTenth, feeds);
            && Tracks(s, initial)
            && (Drawdown.IsMaxDrawdown(Curve(initial, s.points), MaxDrawdownPct(s.points))
                <==> Drawdown.NegativesAreMatched(Curve(initial, s.points)))
  {
    var last := PythonRunFeeds(Start(initial), sizing, everyTenth, feeds);
    PythonFeedsTrack(initial, sizing, everyTenth, feeds);
    PythonCloseOutKeepsCurve(last, feeds);
    CurveDrawdownIsMaxIff(PythonCloseOut(last, feeds), initial);
  }

  // ---- The cash floor of long runs ----

  /** What opening a trade may overdraw: the slippage on its quantity and its fee. */
  function Overdraft(t: Trade): real {
    0.5 * PipValue(t.symbol) * t.quantity + t.fees
  }

  predicate SoundLong(t: Trade) {
    t.side == Long && t.quantity > 0.0 && t.entryPrice >= 0.0
  }

  /** Every trade is a sound long, and cash is nonnegative or within some trade's overdraft. */
  ghost predicate Floored(s: State) {
    && (forall t :: t in s.openTrades ==> SoundLong(t))
    && (s.cash >= 0.0
        || (exists t :: t in s.openTrades && s.cash >= -Overdraft(t))
        || (exists t :: t in s.closedTrades && s.cash >= -Overdraft(t)))
  }

  predicate NonNegative(bar: Bar) {
    0.0 <= bar.low <= bar.close <= bar.high
  }

  lemma CloseFloors(s: State, k: nat, exitPrice: real, index: int, reason: Reason)
    requires Floored(s) && k < |s.openTrades| && exitPrice >= 0.0
    ensures Floored(CloseAt(s, k, exitPrice, index, reason))
  {
    var after, t := CloseAt(s, k, exitPrice, index, reason), s.openTrades[k];
    var done := Closed(t, exitPrice, index, reason);
    assert t in s.openTrades;
    ProductNonNegative(exitPrice, t.quantity);
    assert after.cash >= s.cash;
    assert after.closedTrades[|s.closedTrades|] == done && Overdraft(done) == Overdraft(t);
    if u :| u in s.openTrades && s.cash >= -Overdraft(u) {
      if u != t {
        assert s.openTrades == s.openTrades[..k] + [t] + s.openTrades[k + 1..];
        assert u in after.openTrades;
      } else {
        assert done in after.closedTrades;
      }
    }
    if u :| u in s.closedTrades && s.cash >= -Overdraft(u) {
      assert u in after.closedTrades;
    }
    forall u | u in after.openTrades ensures SoundLong(u) {
      assert u in s.openTrades;
    }
  }

  lemma {:induction false} SweepFloors(s: State, k: nat, rule: Trade -> Exit, index: int)
    requires Floored(s) && k <= |s.openTrades|
    requires forall t :: SoundLong(t) && rule(t).Leave? ==> rule(t).price >= 0.0
    ensures Floored(Sweep(s, k, rule, index))
    decreases |s.openTrades| - k
  {
    if k < |s.openTrades| {
      match rule(s.openTrades[k])
      case Stay => SweepFloors(s, k + 1, rule, index);
      case Leave(price, reason) =>
        CloseFloors(s, k, price, index, reason);
        SweepFloors(CloseAt(s, k, price, index, reason), k, rule, index);
    }
  }

  lemma ExitPricesNonNegative(exits: ExitConfig, bar: Bar, index: int, symbol: string, t: Trade)
    requires exits.takeProfitPips >= 0.0 && NonNegative(bar) && SoundLong(t)
    ensures ExitRule(exits, bar, index, symbol, t).Leave? ==> ExitRule(exits, bar, index, symbol, t).price >= 0.0
  {
    ProductNonNegative(exits.takeProfitPips, PipValue(symbol));
  }

  /** Opening costs at most the slippage and the fee beyond the cash that was checked. */
  lemma OpenFloors(s: State, symbol: string, quantity: real, bar: Bar, index: int)
    requires Floored(s) && NonNegative(bar) && quantity > 0.0 && bar.close * quantity <= s.cash
    ensures Floored(OpenTrade(s, NewTrade(symbol, Long, quantity, bar, index, None, None)))
  {
    var t := NewTrade(symbol, Long, quantity, bar, index, None, None);
    var after := OpenTrade(s, t);
    assert t.entryPrice * quantity == bar.close * quantity + 0.5 * PipValue(symbol) * quantity;
    assert after.openTrades[|s.openTrades|] == t;
    assert t in after.openTrades && after.cash >= -Overdraft(t);
  }

  lemma EntryFloors(s: State, c: Settings, symbol: string, bar: Bar, index: int)
    requires Floored(s) && NonNegative(bar)
    ensures Floored(ProcessEntry(s, c, symbol, Long, bar, index))
  {
    SweepFloors(s, 0, OppositeRule(bar, symbol, Long), index);
    var s1 := if c.exits.signalExit then Sweep(s, 0, OppositeRule(bar, symbol, Long), index) else s;
    var quantity := EntryQuantity(s1, c.sizing, symbol, Long, bar);
    if quantity > 0.0 {
      OpenFloors(s1, symbol, quantity, bar, index);
    }
  }

  lemma FinishFloors(s: State, everyTenth: bool, symbol: string, bar: Bar, index: int)
    requires Floored(s)
    ensures Floored(RecordEquity(UpdateExcursions(s, symbol, bar), everyTenth, bar, index))
  {
    var after := UpdateExcursions(s, symbol, bar).openTrades;
    forall t | t in after ensures SoundLong(t) {
      var k :| 0 <= k < |after| && after[k] == t;
      assert s.openTrades[k] in s.openTrades;
    }
    if u :| u in s.openTrades && s.cash >= -Overdraft(u) {
      var k :| 0 <= k < |s.openTrades| && s.openTrades[k] == u;
      assert after[k] in after && Overdraft(after[k]) == Overdraft(u);
    }
  }

  lemma BarFloors(s: State, c: Settings, symbol: string, tick: Tick, index: int)
    requires Floored(s) && NonNegative(tick.bar) && c.exits.takeProfitPips >= 0.0
    ensures Floored(BarStep(s, c, symbol, Long, tick, index))
  {
    var s0 := WarmUp(s, c, index);
    forall t | SoundLong(t) && ExitsOf(c.exits, tick.bar, index, symbol)(t).Leave?
      ensures ExitsOf(c.exits, tick.bar, index, symbol)(t).price >= 0.0
    {
      ExitPricesNonNegative(c.exits, tick.bar, index, symbol, t);
    }
    SweepFloors(s0, 0, ExitsOf(c.exits, tick.bar, index, symbol), index);
    var s1 := Sweep(s0, 0, ExitsOf(c.exits, tick.bar, index, symbol), index);
    EntryFloors(s1, c, symbol, tick.bar, index);
    var s2 := if s1.warm && tick.enter then ProcessEntry(s1, c, symbol, Long, tick.bar, index) else s1;
    SweepFloors(s2, 0, SignalRule(tick.bar, symbol), index);
    var s3 := if s2.warm && tick.leave then Sweep(s2, 0, SignalRule(tick.bar, symbol), index) else s2;
    FinishFloors(s3, c.everyTenth, symbol, tick.bar, index);
  }

  /** In long mode the cash never falls further below zero than one trade's slippage and fee,
    * after any number of symbols and bars of nonnegative prices. */
  lemma LongCashFloor(initial: real, c: Settings, feeds: seq<Feed>)
    requires initial >= 0.0 && c.exits.takeProfitPips >= 0.0
    requires forall m: nat, k: nat :: m < |feeds| && k < |feeds[m].ticks| ==> NonNegative(feeds[m].ticks[k].bar)
    ensures Floored(RunFeeds(Start(initial), c, feeds, Long))
    ensures Floored(Run(initial, c, feeds, Long))
  {
    forall t: State, m: nat, k: nat | m < |feeds| && k < |feeds[m].ticks| && Floored(t)
      ensures Floored(BarOf(c, feeds[m], Long)(t, k))
    {
      BarFloors(t, c, feeds[m].symbol, feeds[m].ticks[k], k);
    }
    FeedsKeep(Floored, Start(initial), c, feeds, Long);
    var last := RunFeeds(Start(initial), c, feeds, Long);
    forall m: nat | m < |feeds| && feeds[m].ticks != []
      ensures Floored(Sweep(last, 0, EndRule(feeds[m].ticks[|feeds[m].ticks| - 1].bar), |feeds[m].ticks| - 1))
    {
      SweepFloors(last, 0, EndRule(feeds[m].ticks[|feeds[m].ticks| - 1].bar), |feeds[m].ticks| - 1);
    }
    CloseOutKeeps(Floored, last, feeds);
  }
}

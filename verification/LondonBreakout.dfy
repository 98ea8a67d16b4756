/** The London breakout strategy: a state machine fed one bar at a time. */
module LondonBreakout {
  import opened Reals
  import opened Sums

  datatype Params = Params(
    symbol: string,
    rangeStartHour: int,
    rangeEndHour: int,
    minRangePips: real,
    maxRangePips: real,
    entryStartHour: int,
    entryEndHour: int,
    breakoutBufferPips: real,
    minBodyPct: real,
    riskReward: real,
    stopBufferPips: real,
    maxTradesPerDay: int)

  /** A bar with its date and hour in New York, and whether the strategy holds a position then. */
  datatype Bar = Bar(date: int, hour: int, open: real, high: real, low: real, close: real, holding: bool)

  datatype Direction = Long | Short

  datatype Signal = Signal(
    direction: Direction,
    entryPrice: real,
    stopLoss: Option<real>,
    takeProfit: Option<real>,
    rangeHigh: real,
    rangeLow: real,
    rangePips: real,
    score: int)

  datatype Memory = Memory(
    date: Option<int>,
    high: Option<real>,
    low: Option<real>,
    bars: seq<Bar>,
    trades: int,
    valid: bool,
    pips: Option<real>)

  const BLANK := Memory(None, None, None, [], 0, false, None)

  // ---- Helpers of the strategy kit ----

  predicate IsYen(symbol: string) {
    |symbol| >= 4 && symbol[|symbol| - 4..] == "_JPY"
  }

  function PipValue(symbol: string): real {
    if IsYen(symbol) then 0.01 else 0.0001
  }

  function Abs(x: real): real {
    if x < 0.0 then -x else x
  }

  function ToPips(difference: real, symbol: string): real {
    Abs(difference) / PipValue(symbol)
  }

  function BodyPct(bar: Bar): real {
    if bar.high == bar.low then 0.0 else Abs(bar.close - bar.open) / (bar.high - bar.low)
  }

  /** The signal builder drops a price of exactly zero. */
  function Given(price: real): Option<real> {
    if price != 0.0 then Some(price) else None
  }

  // ---- One bar ----

  predicate InRangeWindow(p: Params, hour: int) {
    p.rangeStartHour <= hour < p.rangeEndHour
  }

  predicate InEntryWindow(p: Params, hour: int) {
    p.entryStartHour <= hour < p.entryEndHour
  }

  predicate WithinLimits(p: Params, high: real, low: real) {
    p.minRangePips <= ToPips(high - low, p.symbol) <= p.maxRangePips
  }

  function Buffer(p: Params): real {
    p.breakoutBufferPips * PipValue(p.symbol)
  }

  /** The direction in which a bar breaks out of a range with momentum, if any. */
  function Breakout(p: Params, high: real, low: real, bar: Bar): Option<Direction> {
    if bar.close > high + Buffer(p) then
      if BodyPct(bar) >= p.minBodyPct && bar.close > bar.open then Some(Long) else None
    else if bar.close < low - Buffer(p) then
      if BodyPct(bar) >= p.minBodyPct && bar.close < bar.open then Some(Short) else None
    else None
  }

  function StopPrice(p: Params, high: real, low: real, direction: Direction): real {
    if direction == Long then low - p.stopBufferPips * PipValue(p.symbol) else high + p.stopBufferPips * PipValue(p.symbol)
  }

  function TargetPrice(p: Params, entry: real, stop: real, direction: Direction): real {
    if direction == Long then entry + (entry - stop) * p.riskReward else entry - (stop - entry) * p.riskReward
  }

  /** How far past the breakout level the bar closed, in pips. */
  function BreakDistance(p: Params, high: real, low: real, bar: Bar, direction: Direction): real {
    if direction == Long then ToPips(bar.close - (high + Buffer(p)), p.symbol)
    else ToPips(low - Buffer(p) - bar.close, p.symbol)
  }

  function Score(p: Params, high: real, low: real, pips: real, bar: Bar, direction: Direction): (score: int)
    ensures 15 <= score <= 100
  {
    var distance := BreakDistance(p, high, low, bar, direction);
    (if 20.0 <= pips <= 40.0 then 25 else if 15.0 <= pips <= 50.0 then 15 else 0)
    + (if BodyPct(bar) >= 0.7 then 30 else if BodyPct(bar) >= 0.6 then 20 else 0)
    + (if distance < 5.0 then 15 else if distance < 10.0 then 10 else 0)
    + (if 8 <= bar.hour <= 10 then 15 else if bar.hour == 11 then 10 else 0)
    + 15
  }

  function MakeSignal(p: Params, high: real, low: real, pips: real, bar: Bar, direction: Direction): Signal {
    var stop := StopPrice(p, high, low, direction);
    Signal(direction, bar.close, Given(stop), Given(TargetPrice(p, bar.close, stop, direction)), high, low, pips,
           Score(p, high, low, pips, bar, direction))
  }

  function Accumulate(m: Memory, bar: Bar): Memory {
    m.(high := if m.high.None? || bar.high > m.high.value then Some(bar.high) else m.high,
       low := if m.low.None? || bar.low < m.low.value then Some(bar.low) else m.low,
       bars := m.bars + [bar])
  }

  function ValidateRange(p: Params, m: Memory): Memory {
    if m.high.None? || m.low.None? || !WithinLimits(p, m.high.value, m.low.value) then m.(valid := false)
    else m.(valid := true, pips := Some(ToPips(m.high.value - m.low.value, p.symbol)))
  }

  function OnNewDate(m: Memory, date: int): Memory {
    if m.date == Some(date) then m else Memory(Some(date), None, None, [], 0, false, m.pips)
  }

  function Checked(p: Params, m: Memory, hour: int): Memory {
    if hour >= p.rangeEndHour && !m.valid then ValidateRange(p, m) else m
  }

  predicate MayTrade(p: Params, m: Memory, bar: Bar) {
    && InEntryWindow(p, bar.hour) && m.valid && m.high.Some? && m.low.Some? && m.pips.Some?
    && m.trades < p.maxTradesPerDay && !bar.holding
  }

  function Step(p: Params, m: Memory, bar: Bar): (Memory, Option<Signal>) {
    var today := OnNewDate(m, bar.date);
    if InRangeWindow(p, bar.hour) then (Accumulate(today, bar), None)
    else
      var checked := Checked(p, today, bar.hour);
      if !MayTrade(p, checked, bar) then (checked, None)
      else
        var direction := Breakout(p, checked.high.value, checked.low.value, bar);
        if direction.None? then (checked, None)
        else (checked.(trades := checked.trades + 1),
              Some(MakeSignal(p, checked.high.value, checked.low.value, checked.pips.value, bar, direction.value)))
  }

  // ---- Runs ----

  function After(p: Params, bars: seq<Bar>): Memory {
    if bars == [] then BLANK else Step(p, After(p, bars[..|bars| - 1]), bars[|bars| - 1]).0
  }

  /** The signal given on bar `k`, if any. */
  function SignalAt(p: Params, bars: seq<Bar>, k: nat): Option<Signal>
    requires k < |bars|
  {
    Step(p, After(p, bars[..k]), bars[k]).1
  }

  /** Signals given on `date` over the bars. */
  function SignalsOn(p: Params, bars: seq<Bar>, date: int): nat {
    if bars == [] then 0
    else
      var last := |bars| - 1;
      SignalsOn(p, bars[..last], date) + if bars[last].date == date && SignalAt(p, bars, last).Some? then 1 else 0
  }

  /** Bars come in order of date and hour, and each holds together. */
  ghost predicate TimeOrdered(bars: seq<Bar>) {
    forall j, k :: 0 <= j < k < |bars| ==>
      bars[j].date < bars[k].date || (bars[j].date == bars[k].date && bars[j].hour <= bars[k].hour)
  }

  ghost predicate WellFormed(bars: seq<Bar>) {
    forall k :: 0 <= k < |bars| ==> bars[k].low <= bars[k].high
  }

  // ---- What the memory stands for ----

  predicate WindowBar(p: Params, bar: Bar, date: int) {
    bar.date == date && InRangeWindow(p, bar.hour)
  }

  predicate NoWindowBar(p: Params, bars: seq<Bar>, date: int) {
    forall k :: 0 <= k < |bars| ==> !WindowBar(p, bars[k], date)
  }

  /** `high` and `low` are the extremes of the range-window bars of `date`. */
  predicate IsRange(p: Params, bars: seq<Bar>, date: int, high: real, low: real) {
    && (forall k :: 0 <= k < |bars| && WindowBar(p, bars[k], date) ==> bars[k].high <= high && bars[k].low >= low)
    && (exists k :: 0 <= k < |bars| && WindowBar(p, bars[k], date) && bars[k].high == high)
    && (exists k :: 0 <= k < |bars| && WindowBar(p, bars[k], date) && bars[k].low == low)
  }

  predicate RemembersRange(p: Params, m: Memory, bars: seq<Bar>, date: int) {
    && (m.high.Some? <==> m.low.Some?)
    && if m.high.None? then NoWindowBar(p, bars, date) else IsRange(p, bars, date, m.high.value, m.low.value)
  }

  predicate RemembersVerdict(p: Params, m: Memory, hour: int) {
    && (m.valid <==> hour >= p.rangeEndHour && m.high.Some? && m.low.Some? && WithinLimits(p, m.high.value, m.low.value))
    && (m.valid ==> m.pips == Some(ToPips(m.high.value - m.low.value, p.symbol)))
  }

  /** The memory after some bars, in terms of those bars. */
  ghost predicate Remembers(p: Params, m: Memory, bars: seq<Bar>) {
    if bars == [] then m == BLANK
    else
      var last := bars[|bars| - 1];
      && m.date == Some(last.date)
      && RemembersRange(p, m, bars, last.date)
      && RemembersVerdict(p, m, last.hour)
      && m.trades == SignalsOn(p, bars, last.date)
  }

  lemma RangeGrows(p: Params, m: Memory, bars: seq<Bar>, bar: Bar)
    requires RemembersRange(p, m, bars, bar.date) && InRangeWindow(p, bar.hour)
    ensures RemembersRange(p, Accumulate(m, bar), bars + [bar], bar.date)
  {
    var all, t := bars + [bar], Accumulate(m, bar);
    assert all[|bars|] == bar && forall k :: 0 <= k < |bars| ==> all[k] == bars[k];
    if m.high.Some? {
      var h :| 0 <= h < |bars| && WindowBar(p, bars[h], bar.date) && bars[h].high == m.high.value;
      var l :| 0 <= l < |bars| && WindowBar(p, bars[l], bar.date) && bars[l].low == m.low.value;
      assert all[h].high == m.high.value && all[l].low == m.low.value;
    }
  }

  lemma RangeStays(p: Params, m: Memory, bars: seq<Bar>, bar: Bar, date: int)
    requires RemembersRange(p, m, bars, date) && !WindowBar(p, bar, date)
    ensures RemembersRange(p, m, bars + [bar], date)
  {
    var all := bars + [bar];
    assert all[|bars|] == bar && forall k :: 0 <= k < |bars| ==> all[k] == bars[k];
    if m.high.Some? {
      var h :| 0 <= h < |bars| && WindowBar(p, bars[h], date) && bars[h].high == m.high.value;
      var l :| 0 <= l < |bars| && WindowBar(p, bars[l], date) && bars[l].low == m.low.value;
      assert all[h].high == m.high.value && all[l].low == m.low.value;
    }
  }

  lemma {:induction false} NoSignalsYet(p: Params, bars: seq<Bar>, date: int)
    requires forall k :: 0 <= k < |bars| ==> bars[k].date != date
    ensures SignalsOn(p, bars, date) == 0
  {
    if bars != [] {
      NoSignalsYet(p, bars[..|bars| - 1], date);
    }
  }

  /** The memory as a new bar finds it, after the reset a new date brings. */
  lemma TodayRemembers(p: Params, m: Memory, bars: seq<Bar>, bar: Bar)
    requires Remembers(p, m, bars) && TimeOrdered(bars + [bar])
    ensures var today := OnNewDate(m, bar.date);
            && today.date == Some(bar.date)
            && RemembersRange(p, today, bars, bar.date)
            && today.trades == SignalsOn(p, bars, bar.date)
            && (today.valid ==> RemembersVerdict(p, today, bar.hour) && !InRangeWindow(p, bar.hour))
  {
    var all := bars + [bar];
    assert all[|bars|] == bar && forall k :: 0 <= k < |bars| ==> all[k] == bars[k];
    if bars == [] {
    } else if bars[|bars| - 1].date != bar.date {
      assert all[|bars| - 1].date < bar.date;
      assert forall k :: 0 <= k < |bars| ==> bars[k].date < bar.date;
      NoSignalsYet(p, bars, bar.date);
    } else {
      assert all[|bars| - 1].hour <= bar.hour;
    }
  }

  lemma CheckedRemembers(p: Params, today: Memory, hour: int)
    requires today.high.Some? <==> today.low.Some?
    requires today.valid ==> RemembersVerdict(p, today, hour)
    ensures var checked := Checked(p, today, hour);
            RemembersVerdict(p, checked, hour) && checked == today.(valid := checked.valid, pips := checked.pips)
  {
  }

  /** What a step does to the memory, apart from which signal it gives. */
  lemma StepFields(p: Params, m: Memory, bar: Bar)
    ensures var today, (t, signal) := OnNewDate(m, bar.date), Step(p, m, bar);
            if InRangeWindow(p, bar.hour) then t == Accumulate(today, bar) && signal == None
            else t == Checked(p, today, bar.hour).(trades := today.trades + if signal.Some? then 1 else 0)
  {
  }

  lemma SignalsAppended(p: Params, bars: seq<Bar>, bar: Bar)
    ensures SignalAt(p, bars + [bar], |bars|) == Step(p, After(p, bars), bar).1
    ensures SignalsOn(p, bars + [bar], bar.date) ==
      SignalsOn(p, bars, bar.date) + if Step(p, After(p, bars), bar).1.Some? then 1 else 0
  {
    assert (bars + [bar])[..|bars|] == bars;
  }

  lemma StepRemembers(p: Params, bars: seq<Bar>, bar: Bar)
    requires Remembers(p, After(p, bars), bars) && TimeOrdered(bars + [bar])
    ensures Remembers(p, Step(p, After(p, bars), bar).0, bars + [bar])
  {
    var m := After(p, bars);
    var today := OnNewDate(m, bar.date);
    TodayRemembers(p, m, bars, bar);
    StepFields(p, m, bar);
    SignalsAppended(p, bars, bar);
    if InRangeWindow(p, bar.hour) {
      RangeGrows(p, today, bars, bar);
    } else {
      CheckedRemembers(p, today, bar.hour);
      RangeStays(p, Checked(p, today, bar.hour), bars, bar, bar.date);
    }
  }

  lemma {:induction false} RunRemembers(p: Params, bars: seq<Bar>)
    requires TimeOrdered(bars)
    ensures Remembers(p, After(p, bars), bars)
  {
    if bars != [] {
      var last := |bars| - 1;
      RunRemembers(p, bars[..last]);
      assert bars == bars[..last] + [bars[last]];
      StepRemembers(p, bars[..last], bars[last]);
    }
  }

  // ---- What signals mean ----

  /** The body, from open to close, is at least the asked share of the bar. */
  predicate HasBody(p: Params, bar: Bar, body: real) {
    if bar.high > bar.low then body >= p.minBodyPct * (bar.high - bar.low)
    else if bar.high == bar.low then p.minBodyPct <= 0.0
    else body <= p.minBodyPct * (bar.high - bar.low)
  }

  /** The bar closed beyond the range and its buffer, in the direction of a body that is large
    * enough. */
  predicate BreaksOut(p: Params, high: real, low: real, bar: Bar, direction: Direction) {
    var buffer := p.breakoutBufferPips * PipValue(p.symbol);
    if direction == Long then bar.close > high + buffer && bar.close > bar.open && HasBody(p, bar, bar.close - bar.open)
    else bar.close <= high + buffer && bar.close < low - buffer && bar.close < bar.open && HasBody(p, bar, bar.open - bar.close)
  }

  lemma BodyIff(p: Params, bar: Bar)
    ensures BodyPct(bar) >= p.minBodyPct <==> HasBody(p, bar, Abs(bar.close - bar.open))
  {
    var body, span := Abs(bar.close - bar.open), bar.high - bar.low;
    if span > 0.0 {
      ShareIff(body, span, p.minBodyPct);
    } else if span < 0.0 {
      ShareIff(-body, -span, p.minBodyPct);
      SameQuotient(body, span);
    }
  }

  lemma ShareIff(a: real, b: real, share: real)
    requires b > 0.0
    ensures a / b >= share <==> a >= share * b
  {
    RatioAbove(a, b, share);
    DivMul(a, b);
    if a == share * b {
      Cancel(a / b, share, b);
    }
  }

  lemma SameQuotient(a: real, b: real)
    requires b != 0.0
    ensures a / b == (-a) / (-b)
  {
    DivMul(a, b);
    DivMul(-a, -b);
    Cancel(a / b, (-a) / (-b), b);
  }

  lemma BreakoutIff(p: Params, high: real, low: real, bar: Bar, direction: Direction)
    ensures Breakout(p, high, low, bar) == Some(direction) <==> BreaksOut(p, high, low, bar, direction)
  {
    BodyIff(p, bar);
  }

  /** What makes bar `k` a trade, told from the bars alone. */
  predicate Qualifies(p: Params, bars: seq<Bar>, k: nat, high: real, low: real, direction: Direction)
    requires k < |bars|
  {
    var bar := bars[k];
    && bar.hour >= p.rangeEndHour && p.entryStartHour <= bar.hour < p.entryEndHour && !bar.holding
    && IsRange(p, bars[..k], bar.date, high, low) && WithinLimits(p, high, low)
    && SignalsOn(p, bars[..k], bar.date) < p.maxTradesPerDay
    && BreaksOut(p, high, low, bar, direction)
  }

  lemma RangeIsUnique(p: Params, bars: seq<Bar>, date: int, high: real, low: real, high': real, low': real)
    requires IsRange(p, bars, date, high, low) && IsRange(p, bars, date, high', low')
    ensures high == high' && low == low'
  {
  }

  /** The memory by which bar `k` is decided on, once past the range window. */
  lemma DecidedOn(p: Params, bars: seq<Bar>, k: nat) returns (m: Memory)
    requires TimeOrdered(bars) && k < |bars| && !InRangeWindow(p, bars[k].hour)
    ensures RemembersRange(p, m, bars[..k], bars[k].date) && RemembersVerdict(p, m, bars[k].hour)
    ensures m.trades == SignalsOn(p, bars[..k], bars[k].date)
    ensures SignalAt(p, bars, k) ==
      if MayTrade(p, m, bars[k]) && Breakout(p, m.high.value, m.low.value, bars[k]).Some?
      then Some(MakeSignal(p, m.high.value, m.low.value, m.pips.value, bars[k], Breakout(p, m.high.value, m.low.value, bars[k]).value))
      else None
  {
    var before, bar := bars[..k], bars[k];
    assert TimeOrdered(before + [bar]);
    RunRemembers(p, before);
    TodayRemembers(p, After(p, before), before, bar);
    var today := OnNewDate(After(p, before), bar.date);
    CheckedRemembers(p, today, bar.hour);
    m := Checked(p, today, bar.hour);
  }

  /** Over time-ordered bars a signal is given exactly on the bars that qualify, and it is the one
    * the day's range and that bar call for. */
  lemma SignalIff(p: Params, bars: seq<Bar>, k: nat, high: real, low: real, direction: Direction)
    requires TimeOrdered(bars) && k < |bars|
    ensures Qualifies(p, bars, k, high, low, direction) <==>
      SignalAt(p, bars, k) == Some(MakeSignal(p, high, low, ToPips(high - low, p.symbol), bars[k], direction))
  {
    BreakoutIff(p, high, low, bars[k], direction);
    if !InRangeWindow(p, bars[k].hour) {
      var m := DecidedOn(p, bars, k);
      if Qualifies(p, bars, k, high, low, direction) && m.high.Some? {
        RangeIsUnique(p, bars[..k], bars[k].date, high, low, m.high.value, m.low.value);
      }
    }
  }

  /** The range, direction and conditions behind a signal that was given. */
  lemma SignalQualifies(p: Params, bars: seq<Bar>, k: nat)
    requires TimeOrdered(bars) && k < |bars| && SignalAt(p, bars, k).Some?
    ensures var s := SignalAt(p, bars, k).value;
            && s == MakeSignal(p, s.rangeHigh, s.rangeLow, ToPips(s.rangeHigh - s.rangeLow, p.symbol), bars[k], s.direction)
            && Qualifies(p, bars, k, s.rangeHigh, s.rangeLow, s.direction)
  {
    var s := SignalAt(p, bars, k).value;
    var m := DecidedOn(p, bars, k);
    SignalIff(p, bars, k, s.rangeHigh, s.rangeLow, s.direction);
  }

  /** Bars from the entry window on add nothing to the day's range. */
  lemma RangeIsTheWholeDays(p: Params, bars: seq<Bar>, k: nat, high: real, low: real)
    requires TimeOrdered(bars) && k < |bars| && bars[k].hour >= p.rangeEndHour
    requires IsRange(p, bars[..k], bars[k].date, high, low)
    ensures IsRange(p, bars, bars[k].date, high, low)
  {
    var date := bars[k].date;
    var h :| 0 <= h < k && WindowBar(p, bars[..k][h], date) && bars[..k][h].high == high;
    var l :| 0 <= l < k && WindowBar(p, bars[..k][l], date) && bars[..k][l].low == low;
    assert bars[h].high == high && bars[l].low == low;
    forall j | 0 <= j < |bars| && WindowBar(p, bars[j], date) ensures bars[j].high <= high && bars[j].low >= low {
      if j < k {
        assert bars[..k][j] == bars[j];
      }
    }
  }

  /** The distance the stop keeps from the range. */
  predicate StopKept(p: Params, s: Signal) {
    var stop := if s.direction == Long then s.rangeLow - p.stopBufferPips * PipValue(p.symbol)
                else s.rangeHigh + p.stopBufferPips * PipValue(p.symbol);
    s.stopLoss == if stop == 0.0 then None else Some(stop)
  }

  lemma PipsOf(difference: real, symbol: string)
    requires difference >= 0.0
    ensures ToPips(difference, symbol) * PipValue(symbol) == difference
  {
    DivMul(difference, PipValue(symbol));
  }

  /** Stop behind the range, target ahead of the entry at the configured ratio of the risk. */
  predicate SoundLevels(p: Params, s: Signal) {
    var stop := StopPrice(p, s.rangeHigh, s.rangeLow, s.direction);
    var target := TargetPrice(p, s.entryPrice, stop, s.direction);
    && s.stopLoss == Given(stop) && s.takeProfit == Given(target)
    && s.rangeLow <= s.rangeHigh
    && if s.direction == Long
       then stop <= s.rangeLow && s.rangeHigh < s.entryPrice < target && target - s.entryPrice == p.riskReward * (s.entryPrice - stop)
       else target < s.entryPrice < s.rangeLow && s.rangeHigh <= stop && s.entryPrice - target == p.riskReward * (stop - s.entryPrice)
  }

  lemma TargetAhead(p: Params, entry: real, stop: real, direction: Direction)
    requires p.riskReward > 0.0
    ensures var target := TargetPrice(p, entry, stop, direction);
            if direction == Long
            then target - entry == p.riskReward * (entry - stop) && (entry > stop ==> target > entry)
            else entry - target == p.riskReward * (stop - entry) && (stop > entry ==> target < entry)
  {
    var risk := if direction == Long then entry - stop else stop - entry;
    Swap(risk, p.riskReward);
    if risk > 0.0 {
      ProductPositive(p.riskReward, risk);
    }
  }

  lemma Swap(x: real, y: real)
    ensures x * y == y * x
  {
  }

  /** Where a breakout's stop and entry lie. */
  lemma StopBehind(p: Params, high: real, low: real, bar: Bar, direction: Direction)
    requires p.breakoutBufferPips >= 0.0 && p.stopBufferPips >= 0.0
    requires low <= high && Breakout(p, high, low, bar) == Some(direction)
    ensures var stop := StopPrice(p, high, low, direction);
            if direction == Long then stop <= low && high < bar.close else bar.close < low && high <= stop
  {
    BuffersArePositive(p);
  }

  /** A breakout from a range that is the right way up has sound levels. */
  lemma BreakoutLevels(p: Params, high: real, low: real, pips: real, bar: Bar, direction: Direction)
    requires p.riskReward > 0.0 && p.breakoutBufferPips >= 0.0 && p.stopBufferPips >= 0.0
    requires low <= high && Breakout(p, high, low, bar) == Some(direction)
    ensures SoundLevels(p, MakeSignal(p, high, low, pips, bar, direction))
  {
    StopBehind(p, high, low, bar, direction);
    TargetAhead(p, bar.close, StopPrice(p, high, low, direction), direction);
  }

  lemma RangeIsUpright(p: Params, bars: seq<Bar>, date: int, high: real, low: real)
    requires WellFormed(bars) && IsRange(p, bars, date, high, low)
    ensures low <= high
  {
    var h :| 0 <= h < |bars| && WindowBar(p, bars[h], date) && bars[h].high == high;
    assert bars[h].low <= high;
  }

  lemma BuffersArePositive(p: Params)
    requires p.breakoutBufferPips >= 0.0 && p.stopBufferPips >= 0.0
    ensures Buffer(p) >= 0.0 && p.stopBufferPips * PipValue(p.symbol) >= 0.0
  {
    ProductNonNegative(p.breakoutBufferPips, PipValue(p.symbol));
    ProductNonNegative(p.stopBufferPips, PipValue(p.symbol));
  }

  /** The signal that a breakout from such a range makes. */
  lemma MadeSignalIsSound(p: Params, high: real, low: real, bar: Bar, direction: Direction)
    requires p.riskReward > 0.0 && p.breakoutBufferPips >= 0.0 && p.stopBufferPips >= 0.0
    requires low <= high && Breakout(p, high, low, bar) == Some(direction)
    ensures var s := MakeSignal(p, high, low, ToPips(high - low, p.symbol), bar, direction);
            StopKept(p, s) && SoundLevels(p, s) && s.rangePips * PipValue(p.symbol) == high - low
  {
    PipsOf(high - low, p.symbol);
    BreakoutLevels(p, high, low, ToPips(high - low, p.symbol), bar, direction);
  }

  /** Where a signal comes from: a bar of the entry window that broke out of the whole day's range. */
  predicate Placed(p: Params, bars: seq<Bar>, k: nat, s: Signal)
    requires k < |bars|
  {
    && p.entryStartHour <= bars[k].hour < p.entryEndHour && s.entryPrice == bars[k].close
    && BreaksOut(p, s.rangeHigh, s.rangeLow, bars[k], s.direction)
    && IsRange(p, bars, bars[k].date, s.rangeHigh, s.rangeLow)
    && p.minRangePips <= s.rangePips <= p.maxRangePips
  }

  lemma SignalIsPlaced(p: Params, bars: seq<Bar>, k: nat, s: Signal)
    requires TimeOrdered(bars) && k < |bars| && SignalAt(p, bars, k) == Some(s)
    ensures Placed(p, bars, k, s)
    ensures s == MakeSignal(p, s.rangeHigh, s.rangeLow, ToPips(s.rangeHigh - s.rangeLow, p.symbol), bars[k], s.direction)
    ensures Breakout(p, s.rangeHigh, s.rangeLow, bars[k]) == Some(s.direction)
  {
    SignalQualifies(p, bars, k);
    BreakoutIff(p, s.rangeHigh, s.rangeLow, bars[k], s.direction);
    RangeIsTheWholeDays(p, bars, k, s.rangeHigh, s.rangeLow);
  }

  /** Every signal of every run: placed so, with a range told in pips, the stop kept from it and sound
    * levels. */
  lemma EverySignalIsSound(p: Params, bars: seq<Bar>, k: nat, s: Signal)
    requires TimeOrdered(bars) && WellFormed(bars) && k < |bars| && SignalAt(p, bars, k) == Some(s)
    requires p.riskReward > 0.0 && p.breakoutBufferPips >= 0.0 && p.stopBufferPips >= 0.0
    ensures Placed(p, bars, k, s)
    ensures s.rangePips * PipValue(p.symbol) == s.rangeHigh - s.rangeLow
    ensures StopKept(p, s) && SoundLevels(p, s)
  {
    SignalIsPlaced(p, bars, k, s);
    RangeIsUpright(p, bars, bars[k].date, s.rangeHigh, s.rangeLow);
    MadeSignalIsSound(p, s.rangeHigh, s.rangeLow, bars[k], s.direction);
  }

  /** No date ever sees more signals than the daily limit. */
  lemma {:induction false} DailyLimit(p: Params, bars: seq<Bar>, date: int)
    requires TimeOrdered(bars)
    ensures SignalsOn(p, bars, date) <= if p.maxTradesPerDay > 0 then p.maxTradesPerDay else 0
  {
    if bars != [] {
      var last := |bars| - 1;
      DailyLimit(p, bars[..last], date);
      if bars[last].date == date && SignalAt(p, bars, last).Some? {
        SignalQualifies(p, bars, last);
      }
    }
  }

  // ---- The strategy object ----

  class Strategy {
    const params: Params
    var currentDate: Option<int>
    var rangeHigh: Option<real>
    var rangeLow: Option<real>
    var rangeBars: seq<Bar>
    var tradesToday: int
    var rangeValid: bool
    var rangePips: Option<real>

    function View(): Memory
      reads this
    {
      Memory(currentDate, rangeHigh, rangeLow, rangeBars, tradesToday, rangeValid, rangePips)
    }

    constructor (params: Params)
      ensures View() == BLANK && this.params == params
    {
      this.params := params;
      currentDate, rangeHigh, rangeLow, rangeBars := None, None, None, [];
      tradesToday, rangeValid, rangePips := 0, false, None;
    }

    method AccumulateRange(bar: Bar)
      modifies this`rangeHigh, this`rangeLow, this`rangeBars
      ensures View() == Accumulate(old(View()), bar)
    {
      if rangeHigh.None? || bar.high > rangeHigh.value {
        rangeHigh := Some(bar.high);
      }
      if rangeLow.None? || bar.low < rangeLow.value {
        rangeLow := Some(bar.low);
      }
      rangeBars := rangeBars + [bar];
    }

    method CheckRange()
      modifies this`rangeValid, this`rangePips
      ensures View() == ValidateRange(params, old(View()))
    {
      if rangeHigh.None? || rangeLow.None? {
        rangeValid := false;
        return;
      }
      var pips := ToPips(rangeHigh.value - rangeLow.value, params.symbol);
      if pips < params.minRangePips || pips > params.maxRangePips {
        rangeValid := false;
        return;
      }
      rangeValid := true;
      rangePips := Some(pips);
    }

    /** Full marks go exactly to a setup that is best on every factor. */
    method ScoreSetup(high: real, low: real, pips: real, bar: Bar, direction: Direction) returns (score: int)
      ensures score == Score(params, high, low, pips, bar, direction)
      ensures 15 <= score <= 100 && score % 5 == 0
      ensures score == 100 <==> 20.0 <= pips <= 40.0 && BodyPct(bar) >= 0.7 && 8 <= bar.hour <= 10
                                && BreakDistance(params, high, low, bar, direction) < 5.0
    {
      score := 0;
      if 20.0 <= pips <= 40.0 {
        score := score + 25;
      } else if 15.0 <= pips <= 50.0 {
        score := score + 15;
      }
      var body := BodyPct(bar);
      if body >= 0.7 {
        score := score + 30;
      } else if body >= 0.6 {
        score := score + 20;
      }
      var distance := BreakDistance(params, high, low, bar, direction);
      if distance < 5.0 {
        score := score + 15;
      } else if distance < 10.0 {
        score := score + 10;
      }
      if 8 <= bar.hour <= 10 {
        score := score + 15;
      } else if 10 < bar.hour <= 11 {
        score := score + 10;
      }
      score := score + 15;
    }

    method CheckBreakout(bar: Bar) returns (signal: Option<Signal>)
      requires rangeHigh.Some? && rangeLow.Some? && rangePips.Some?
      modifies this`tradesToday
      ensures var direction := Breakout(params, rangeHigh.value, rangeLow.value, bar);
              if direction.None? then signal == None && View() == old(View())
              else signal == Some(MakeSignal(params, rangeHigh.value, rangeLow.value, rangePips.value, bar, direction.value))
                   && View() == old(View()).(trades := old(tradesToday) + 1)
    {
      var high, low := rangeHigh.value, rangeLow.value;
      var direction := None;
      if bar.close > high + Buffer(params) {
        if BodyPct(bar) >= params.minBodyPct {
          if bar.close > bar.open {
            direction := Some(Long);
          }
        }
      } else if bar.close < low - Buffer(params) {
        if BodyPct(bar) >= params.minBodyPct {
          if bar.close < bar.open {
            direction := Some(Short);
          }
        }
      }
      if direction.None? {
        return None;
      }
      var stop := StopPrice(params, high, low, direction.value);
      var target := TargetPrice(params, bar.close, stop, direction.value);
      var score := ScoreSetup(high, low, rangePips.value, bar, direction.value);
      tradesToday := tradesToday + 1;
      return Some(Signal(direction.value, bar.close, Given(stop), Given(target), high, low, rangePips.value, score));
    }

    /** One bar: reset on a new date, gather the range, check it, look for a breakout. */
    method OnBar(bar: Bar) returns (signal: Option<Signal>)
      modifies this
      ensures (View(), signal) == Step(params, old(View()), bar)
    {
      if currentDate != Some(bar.date) {
        currentDate, rangeHigh, rangeLow, rangeBars := Some(bar.date), None, None, [];
        tradesToday, rangeValid := 0, false;
      }
      if params.rangeStartHour <= bar.hour < params.rangeEndHour {
        AccumulateRange(bar);
        return None;
      }
      if bar.hour >= params.rangeEndHour && !rangeValid {
        CheckRange();
        if rangeHigh.None? {
          return None;
        }
      }
      if !(params.entryStartHour <= bar.hour < params.entryEndHour) {
        return None;
      }
      if !rangeValid || rangeHigh.None? || rangeLow.None? || rangePips.None? {
        return None;
      }
      if tradesToday >= params.maxTradesPerDay {
        return None;
      }
      if bar.holding {
        return None;
      }
      signal := CheckBreakout(bar);
    }
  }
}

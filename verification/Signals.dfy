/** The signal, decision, order and fill tables, and the steps the background actors and users
  * take on them. A row's index in its table is its id. Times are in microseconds. */
module Signals {
  import opened Reals
  import opened Sums
  import opened RiskPipeline

  const SECOND := 1_000_000

  datatype Status = Pending | RiskApproved | RiskRejected | RiskModified | Expired | Canceled | OrderFilled | OrderRejected

  datatype Signal = Signal(
    strategy: nat,
    symbol: string,
    market: string,
    side: string,
    signalType: string,
    source: string,
    timeframe: string,
    createdAt: int,
    expiresAt: int,
    status: Status)

  datatype Decision = Decision(signal: nat, judgement: Judgement)

  datatype OrderStatus = Submitted | Accepted | Filled | Turned(reason: string)

  datatype Order = Order(signal: nat, decision: Option<nat>, requestedQty: real, multiplier: real, status: OrderStatus, filledQty: Option<real>)

  datatype Fill = Fill(order: nat, qty: real, price: real)

  datatype State = State(signals: seq<Signal>, decisions: seq<Decision>, orders: seq<Order>, fills: seq<Fill>)

  datatype Config = Config(windowBars: int, defaultExpirySeconds: int, equity: real, optionMultiplier: real)

  // ---- Statuses ----

  function AllowedFrom(status: Status): set<Status> {
    match status
    case Pending => {RiskApproved, RiskRejected, RiskModified, Expired, Canceled}
    case RiskApproved => {OrderFilled, OrderRejected}
    case RiskModified => {OrderFilled, OrderRejected}
    case _ => {}
  }

  /** A refused transition raises and changes nothing. */
  function Advance(s: State, i: nat, status: Status): State
    requires i < |s.signals|
  {
    if status in AllowedFrom(s.signals[i].status) then s.(signals := s.signals[i := s.signals[i].(status := status)]) else s
  }

  // ---- Creation ----

  /** What a caller asks to be created; `known` says that the strategy exists. */
  datatype Request = Request(
    strategy: nat,
    known: bool,
    symbol: string,
    market: string,
    side: string,
    signalType: string,
    source: string,
    timeframe: string,
    version: string,
    ts: Option<int>)

  predicate ValidRequest(r: Request, now: int) {
    && r.known && r.symbol != "" && r.version != "" && r.timeframe != ""
    && (r.side == "buy" || r.side == "sell")
    && (r.signalType == "entry" || r.signalType == "exit" || r.signalType == "scale_in" || r.signalType == "scale_out")
    && (r.source == "strategy" || r.source == "manual" || r.source == "safety" || r.source == "system")
    && r.ts.Some? && now - 300 * SECOND <= r.ts.value <= now + 5 * SECOND
  }

  function TimeframeMinutes(timeframe: string): nat {
    if timeframe == "5m" then 5
    else if timeframe == "15m" then 15
    else if timeframe == "1h" then 60
    else if timeframe == "4h" then 240
    else if timeframe == "1d" then 1440
    else 1
  }

  function ExpirySeconds(c: Config, timeframe: string): int {
    if timeframe == "1m" then 120
    else if timeframe == "5m" then 600
    else if timeframe == "15m" then 1800
    else if timeframe == "1h" then 3600
    else if timeframe == "4h" then 14400
    else if timeframe == "1d" then 86400
    else c.defaultExpirySeconds
  }

  function Window(c: Config, timeframe: string): int {
    TimeframeMinutes(timeframe) * c.windowBars * 60 * SECOND
  }

  predicate Live(status: Status) {
    status == Pending || status == RiskApproved
  }

  predicate SameTrade(a: Signal, strategy: nat, symbol: string, side: string, signalType: string) {
    a.strategy == strategy && a.symbol == symbol && a.side == side && a.signalType == signalType
  }

  /** Only strategy-sourced entries and scale-ins are deduplicated, and only with a window set. */
  predicate Deduplicates(c: Config, source: string, signalType: string) {
    source == "strategy" && !IsExit(signalType) && c.windowBars > 0
  }

  predicate IsDuplicate(s: State, c: Config, r: Request)
    requires r.ts.Some?
  {
    Deduplicates(c, r.source, r.signalType) &&
    exists i :: 0 <= i < |s.signals| && SameTrade(s.signals[i], r.strategy, r.symbol, r.side, r.signalType)
      && Live(s.signals[i].status) && s.signals[i].createdAt >= r.ts.value - Window(c, r.timeframe)
  }

  function NewSignal(c: Config, r: Request, now: int): Signal
    requires r.ts.Some?
  {
    Signal(r.strategy, r.symbol, r.market, r.side, r.signalType, r.source, r.timeframe, now,
           r.ts.value + ExpirySeconds(c, r.timeframe) * SECOND, Pending)
  }

  function Create(s: State, c: Config, r: Request, now: int): State {
    if !ValidRequest(r, now) || IsDuplicate(s, c, r) then s
    else s.(signals := s.signals + [NewSignal(c, r, now)])
  }

  // ---- Bulk updates and user cancels ----

  function ExpireRow(row: Signal, now: int): Signal {
    if row.status == Pending && row.expiresAt < now then row.(status := Expired) else row
  }

  function ExpireStale(s: State, now: int): State {
    s.(signals := seq(|s.signals|, i requires 0 <= i < |s.signals| => ExpireRow(s.signals[i], now)))
  }

  function CancelRow(row: Signal, strategy: nat): Signal {
    if row.status == Pending && row.strategy == strategy then row.(status := Canceled) else row
  }

  function CancelStrategy(s: State, strategy: nat): State {
    s.(signals := seq(|s.signals|, i requires 0 <= i < |s.signals| => CancelRow(s.signals[i], strategy)))
  }

  /** A user's cancel: of a signal that exists, is the user's, and is pending. */
  function CancelSignal(s: State, i: nat, owned: bool): State {
    if i < |s.signals| && owned && s.signals[i].status == Pending
    then s.(signals := s.signals[i := s.signals[i].(status := Canceled)]) else s
  }

  // ---- Lookups ----

  function OfSignal(i: nat): Decision -> bool { (d: Decision) => d.signal == i }

  function OrderOfSignal(i: nat): Order -> bool { (o: Order) => o.signal == i }

  function OfOrder(o: nat): Fill -> bool { (f: Fill) => f.order == o }

  function DecisionIndex(s: State, i: nat): (d: nat)
    ensures d <= |s.decisions|
  {
    First(s.decisions, OfSignal(i), 0)
  }

  function OrderIndex(s: State, i: nat): (o: nat)
    ensures o <= |s.orders|
  {
    First(s.orders, OrderOfSignal(i), 0)
  }

  predicate HasDecision(s: State, i: nat) { DecisionIndex(s, i) < |s.decisions| }

  predicate HasOrder(s: State, i: nat) { OrderIndex(s, i) < |s.orders| }

  // ---- The risk cycle ----

  /** What the risk service meets when it evaluates one signal: whether the strategy still exists,
    * whether the portfolio could be read, and what every check answers. */
  datatype Evaluation = Evaluation(strategyFound: bool, contextRead: bool, checks: seq<Check>)

  function Judge(signalType: string, env: Evaluation): Option<Judgement> {
    if !env.strategyFound then Some(Judgement(Rejected, [], Some("strategy_enable"), map[]))
    else if !env.contextRead then None
    else if IsExit(signalType) then JudgeExit(env.checks)
    else JudgeEntry(env.checks)
  }

  function StatusFor(verdict: Verdict): Status {
    match verdict
    case Approved => RiskApproved
    case Modified => RiskModified
    case Rejected => RiskRejected
  }

  /** A signal with its decision and the status that goes with it. */
  function Decided(s: State, i: nat, judgement: Judgement): State
    requires i < |s.signals|
  {
    s.(decisions := s.decisions + [Decision(i, judgement)],
       signals := s.signals[i := s.signals[i].(status := StatusFor(judgement.verdict))])
  }

  /** The evaluation of a signal the cycle listed as pending: its session keeps the row as listed,
    * so the status is checked on that copy and then written whatever the row has become. */
  function EvaluateListed(s: State, i: nat, env: Evaluation): State
    requires i < |s.signals|
  {
    var judged := Judge(s.signals[i].signalType, env);
    if judged.None? || HasDecision(s, i) then s else Decided(s, i, judged.value)
  }

  /** Writes the decision, then moves the signal. The decision table admits one row a signal. */
  function Evaluate(s: State, i: nat, env: Evaluation): State
    requires i < |s.signals|
  {
    var judged := Judge(s.signals[i].signalType, env);
    if judged.None? || HasDecision(s, i) then s
    else Advance(s.(decisions := s.decisions + [Decision(i, judged.value)]), i, StatusFor(judged.value.verdict))
  }

  /** Takes a turn at each of the first `n` signals. */
  function Iterate(s: State, turn: (State, nat) -> State, n: nat): State {
    if n == 0 then s else turn(Iterate(s, turn, n - 1), n - 1)
  }

  /** The cycle's turn at one signal; `env` says what each would meet. */
  function RiskTurn(env: nat -> Evaluation): (State, nat) -> State {
    (s: State, i: nat) => if i < |s.signals| && s.signals[i].status == Pending then Evaluate(s, i, env(i)) else s
  }

  /** Evaluates the pending signals among the first `n`. */
  function RiskSweep(s: State, env: nat -> Evaluation, n: nat): State {
    Iterate(s, RiskTurn(env), n)
  }

  // ---- The order cycle ----

  datatype Sizing = FixedQty(value: real) | FixedDollar(value: real) | PercentEquity(value: real)
                  | RiskBased(riskPercent: real, stopPrice: real) | OtherSizing(value: real)

  datatype Submission = Taken | Refused(reason: string)

  datatype Simulation = Failed | Done(qty: real, price: real)

  /** What the paper broker meets when it processes one signal. */
  datatype Processing = Processing(
    price: Option<real>,
    sizing: Sizing,
    estimatedFee: real,
    availableCash: real,
    submission: Submission,
    simulation: Simulation)

  /** A positive quantity loses less than one unit, and nothing when it is whole. */
  lemma TruncationCuts(q: real)
    ensures q >= 0.0 ==> 0.0 <= Truncate(q) as real <= q < Truncate(q) as real + 1.0
    ensures (Truncate(q) as real).Floor == Truncate(q)
    ensures Truncate(q) > 0 ==> q >= Truncate(q) as real >= 1.0
  {
  }

  function SizedQty(c: Config, sizing: Sizing, price: real): real {
    match sizing
    case FixedQty(value) => value
    case FixedDollar(value) => if price > 0.0 then value / price else 0.0
    case PercentEquity(value) => if price > 0.0 then c.equity * value / 100.0 / price else 0.0
    case RiskBased(percent, stop) =>
      var gap := if price >= stop then price - stop else stop - price;
      if gap > 0.0 then c.equity * percent / 100.0 / gap else 0.0
    case OtherSizing(value) => value
  }

  /** A quantity set by the risk decision goes unrounded and unchecked; one from the sizing rule is
    * cut to whole units for shares and options and is never negative. None is a value that does
    * not parse. */
  function OrderQty(c: Config, market: string, changes: Changes, sizing: Sizing, price: real): Option<real> {
    if "qty" in changes then (if changes["qty"].Number? then Some(changes["qty"].n) else None)
    else
      var sized := SizedQty(c, sizing, price);
      var whole := if market == "equities" || market == "options" then Truncate(sized) as real else sized;
      Some(if whole > 0.0 then whole else 0.0)
  }

  function Multiplier(c: Config, market: string): real {
    if market == "options" then c.optionMultiplier else 1.0
  }

  function RequiredCash(side: string, qty: real, price: real, multiplier: real, fee: real): real {
    if side == "sell" then 0.0 else qty * price * multiplier + fee
  }

  function TurnDown(s: State, i: nat, order: Order): State
    requires i < |s.signals|
  {
    Advance(s.(orders := s.orders + [order]), i, OrderRejected)
  }

  function RejectedOrder(i: nat, decision: Option<nat>, qty: real, multiplier: real, reason: string): Order {
    Order(i, decision, qty, multiplier, Turned(reason), None)
  }

  /** The order table admits one row a signal; a second insert raises and changes nothing. */
  function Place(s: State, c: Config, i: nat, env: Processing): State
    requires i < |s.signals|
  {
    if HasOrder(s, i) then s
    else if !HasDecision(s, i) then TurnDown(s, i, RejectedOrder(i, None, 0.0, 1.0, "no_risk_decision"))
    else
      var d := DecisionIndex(s, i);
      Carry(s, i, d, Assess(c, i, d, s.signals[i], s.decisions[d].judgement.changes, env))
  }

  /** What becomes of a cleared signal: an exception, an order turned down, or an order filled. */
  datatype Ticket = Raises | TurnAway(order: Order) | Execute(requested: real, multiplier: real, qty: real, price: real)

  function Assess(c: Config, i: nat, d: nat, row: Signal, changes: Changes, env: Processing): (ticket: Ticket)
    ensures ticket.TurnAway? ==> ticket.order.signal == i && ticket.order.decision == Some(d) && ticket.order.status.Turned?
  {
    if env.price.None? then TurnAway(RejectedOrder(i, Some(d), 0.0, 1.0, "no_reference_price"))
    else
      var qty := OrderQty(c, row.market, changes, env.sizing, env.price.value);
      if qty.None? then Raises
      else if qty.value <= 0.0 then TurnAway(RejectedOrder(i, Some(d), 0.0, 1.0, "invalid_quantity"))
      else
        var m := Multiplier(c, row.market);
        if RequiredCash(row.side, qty.value, env.price.value, m, env.estimatedFee) > env.availableCash
        then TurnAway(RejectedOrder(i, Some(d), qty.value, m, "insufficient_cash"))
        else if env.submission.Refused? then TurnAway(RejectedOrder(i, Some(d), qty.value, m, env.submission.reason))
        else if env.simulation.Failed? then TurnAway(RejectedOrder(i, Some(d), qty.value, m, "fill_simulation_failed"))
        else Execute(qty.value, m, env.simulation.qty, env.simulation.price)
  }

  function Carry(s: State, i: nat, d: nat, ticket: Ticket): State
    requires i < |s.signals|
  {
    match ticket
    case Raises => s
    case TurnAway(order) => TurnDown(s, i, order)
    case Execute(requested, multiplier, qty, price) => FillOrder(s, i, d, requested, multiplier, qty, price)
  }

  function FillOrder(s: State, i: nat, d: nat, requested: real, multiplier: real, qty: real, price: real): State
    requires i < |s.signals|
  {
    var order := Order(i, Some(d), requested, multiplier, Filled, Some(qty));
    Advance(s.(orders := s.orders + [order], fills := s.fills + [Fill(|s.orders|, qty, price)]), i, OrderFilled)
  }

  predicate Cleared(status: Status) {
    status == RiskApproved || status == RiskModified
  }

  function OrderTurn(c: Config, env: nat -> Processing): (State, nat) -> State {
    (s: State, i: nat) => if i < |s.signals| && Cleared(s.signals[i].status) then Place(s, c, i, env(i)) else s
  }

  /** Processes the cleared signals among the first `n`. */
  function OrderSweep(s: State, c: Config, env: nat -> Processing, n: nat): State {
    Iterate(s, OrderTurn(c, env), n)
  }

  // ---- Runs ----

  datatype Action =
    | CreateSignal(request: Request, at: int)
    | Expire(now: int)
    | UserCancel(signal: nat, owned: bool)
    | StrategyCancel(strategy: nat)
    | RiskCycle(evaluations: nat -> Evaluation)
    | OrderCycle(processings: nat -> Processing)

  function Step(s: State, c: Config, a: Action): State {
    match a
    case CreateSignal(request, at) => Create(s, c, request, at)
    case Expire(now) => ExpireStale(s, now)
    case UserCancel(i, owned) => CancelSignal(s, i, owned)
    case StrategyCancel(strategy) => CancelStrategy(s, strategy)
    case RiskCycle(env) => RiskSweep(s, env, |s.signals|)
    case OrderCycle(env) => OrderSweep(s, c, env, |s.signals|)
  }

  function Run(c: Config, actions: seq<Action>): State {
    if actions == [] then State([], [], [], [])
    else Step(Run(c, actions[..|actions| - 1]), c, actions[|actions| - 1])
  }
}

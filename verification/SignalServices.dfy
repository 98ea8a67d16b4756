/** The services that work on the signal tables in place: signal creation and cancelling, expiry,
  * the risk cycle and the order cycle. Every method is proved against the step it stands for. */
module SignalServices {
  import opened Reals
  import opened Sums
  import opened RiskPipeline
  import opened Signals
  import opened SignalRuns
  import SignalOrders
  import SignalVerdicts

  /** `ids` are the ids of the rows that satisfy `p`, in table order. */
  ghost predicate Lists(ids: seq<nat>, rows: seq<Signal>, p: Signal -> bool) {
    && (forall j, k :: 0 <= j < k < |ids| ==> ids[j] < ids[k])
    && (forall j :: 0 <= j < |ids| ==> ids[j] < |rows| && p(rows[ids[j]]))
    && (forall i: nat :: i < |rows| && p(rows[i]) ==> i in ids)
  }

  /** Where the row after the first `n` listed ones is, or the end of the table. */
  function Upcoming(ids: seq<nat>, n: nat, end: nat): nat {
    if n < |ids| then ids[n] else end
  }

  /** A listed row lies at or beyond the upcoming one or before the last one passed. */
  lemma ListedElsewhere(ids: seq<nat>, rows: seq<Signal>, p: Signal -> bool, n: nat, i: nat)
    requires Lists(ids, rows, p) && n <= |ids| && i < |rows| && p(rows[i])
    ensures i >= Upcoming(ids, n, |rows|) || (n > 0 && i <= ids[n - 1])
  {
    var j :| 0 <= j < |ids| && ids[j] == i;
  }

  lemma NothingBetween(ids: seq<nat>, rows: seq<Signal>, p: Signal -> bool, n: nat, i: nat)
    requires Lists(ids, rows, p) && n <= |ids|
    requires (if n == 0 then 0 else ids[n - 1] + 1) <= i < Upcoming(ids, n, |rows|)
    ensures !p(rows[i])
  {
    if p(rows[i]) {
      ListedElsewhere(ids, rows, p, n, i);
    }
  }

  /** Turns that do nothing can be left out. */
  lemma {:induction false} IterateSkips(s: State, turn: (State, nat) -> State, a: nat, b: nat)
    requires a <= b && forall i: nat :: a <= i < b ==> turn(Iterate(s, turn, i), i) == Iterate(s, turn, i)
    ensures Iterate(s, turn, b) == Iterate(s, turn, a)
  {
    if a < b {
      IterateSkips(s, turn, a, b - 1);
    }
  }

  lemma RiskSweepSkips(s: State, env: nat -> Evaluation, a: nat, b: nat)
    requires a <= b <= |s.signals| && forall i :: a <= i < b ==> s.signals[i].status != Pending
    ensures RiskSweep(s, env, b) == RiskSweep(s, env, a)
  {
    var turn := RiskTurn(env);
    forall i: nat | a <= i < b ensures turn(Iterate(s, turn, i), i) == Iterate(s, turn, i) {
      RiskSweepMoves(s, env, i);
      assert Iterate(s, turn, i).signals[i] == s.signals[i];
    }
    IterateSkips(s, turn, a, b);
  }

  lemma OrderSweepSkips(s: State, c: Config, env: nat -> Processing, a: nat, b: nat)
    requires a <= b <= |s.signals| && forall i :: a <= i < b ==> !Cleared(s.signals[i].status)
    ensures OrderSweep(s, c, env, b) == OrderSweep(s, c, env, a)
  {
    var turn := OrderTurn(c, env);
    forall i: nat | a <= i < b ensures turn(Iterate(s, turn, i), i) == Iterate(s, turn, i) {
      OrderSweepMoves(s, c, env, i);
      assert Iterate(s, turn, i).signals[i] == s.signals[i];
    }
    IterateSkips(s, turn, a, b);
  }

  /** From one listed row to just before the next. */
  lemma RiskSweepHops(s: State, env: nat -> Evaluation, ids: seq<nat>, p: Signal -> bool, n: nat)
    requires forall r :: p(r) <==> r.status == Pending
    requires Lists(ids, s.signals, p) && n <= |ids|
    ensures var from := if n == 0 then 0 else ids[n - 1] + 1;
            RiskSweep(s, env, Upcoming(ids, n, |s.signals|)) == RiskSweep(s, env, from)
  {
    var from, to := if n == 0 then 0 else ids[n - 1] + 1, Upcoming(ids, n, |s.signals|);
    forall i | from <= i < to ensures s.signals[i].status != Pending {
      NothingBetween(ids, s.signals, p, n, i);
    }
    RiskSweepSkips(s, env, from, to);
  }

  lemma OrderSweepHops(s: State, c: Config, env: nat -> Processing, ids: seq<nat>, p: Signal -> bool, n: nat)
    requires forall r :: p(r) <==> Cleared(r.status)
    requires Lists(ids, s.signals, p) && n <= |ids|
    ensures var from := if n == 0 then 0 else ids[n - 1] + 1;
            OrderSweep(s, c, env, Upcoming(ids, n, |s.signals|)) == OrderSweep(s, c, env, from)
  {
    var from, to := if n == 0 then 0 else ids[n - 1] + 1, Upcoming(ids, n, |s.signals|);
    forall i | from <= i < to ensures !Cleared(s.signals[i].status) {
      NothingBetween(ids, s.signals, p, n, i);
    }
    OrderSweepSkips(s, c, env, from, to);
  }

  method ListWhere(rows: seq<Signal>, p: Signal -> bool) returns (ids: seq<nat>)
    ensures Lists(ids, rows, p)
  {
    ids := [];
    for i := 0 to |rows|
      invariant forall j :: 0 <= j < |ids| ==> ids[j] < i && p(rows[ids[j]])
      invariant forall j, k :: 0 <= j < k < |ids| ==> ids[j] < ids[k]
      invariant forall k: nat :: k < i && p(rows[k]) ==> k in ids
    {
      if p(rows[i]) {
        ids := ids + [i];
        assert ids[|ids| - 1] == i;
      }
    }
  }

  /** A bulk update, row by row, counting the rows it changes. */
  method UpdateRows(rows: seq<Signal>, f: Signal -> Signal) returns (updated: seq<Signal>, count: nat)
    ensures |updated| == |rows| && forall i :: 0 <= i < |rows| ==> updated[i] == f(rows[i])
    ensures count == Differing(rows, updated, |rows|)
  {
    ghost var after := seq(|rows|, i requires 0 <= i < |rows| => f(rows[i]));
    updated, count := [], 0;
    for i := 0 to |rows|
      invariant updated == after[..i] && count == Differing(rows, after, i)
    {
      var row := f(rows[i]);
      if row != rows[i] {
        count := count + 1;
      }
      updated := updated + [row];
    }
    assert updated == after;
  }

  function Deciding(verdict: Verdict): Decision -> bool {
    (d: Decision) => d.judgement.verdict == verdict
  }

  predicate WasFilled(order: Order) { order.status == Filled }

  predicate WasTurned(order: Order) { order.status.Turned? }

  /** One more order, which ended in this status. */
  predicate Placed(before: seq<Order>, after: seq<Order>, status: OrderStatus) {
    |after| == |before| + 1 && after[..|before|] == before && after[|before|].status == status
  }

  lemma DecisionCounted(before: seq<Decision>, after: seq<Decision>)
    requires |after| == |before| + 1 && after[..|before|] == before
    ensures forall v ::
      CountOf(after, Deciding(v)) == CountOf(before, Deciding(v)) + (if after[|before|].judgement.verdict == v then 1 else 0)
  {
    assert after == before + [after[|before|]];
    forall v {
      CountOfAppend(before, after[|before|], Deciding(v));
    }
  }

  lemma OrderCounted(before: seq<Order>, after: seq<Order>)
    requires |after| == |before| + 1 && after[..|before|] == before
    ensures CountOf(after, WasFilled) == CountOf(before, WasFilled) + if WasFilled(after[|before|]) then 1 else 0
    ensures CountOf(after, WasTurned) == CountOf(before, WasTurned) + if WasTurned(after[|before|]) then 1 else 0
  {
    assert after == before + [after[|before|]];
    CountOfAppend(before, after[|before|], WasFilled);
    CountOfAppend(before, after[|before|], WasTurned);
  }

  datatype CancelResult = CancelDone | NotFound | WrongStatus(status: Status)

  class SignalTables {
    const config: Config
    var signals: seq<Signal>
    var decisions: seq<Decision>
    var orders: seq<Order>
    var fills: seq<Fill>

    function View(): State
      reads this
    {
      State(signals, decisions, orders, fills)
    }

    constructor (config: Config)
      ensures View() == State([], [], [], []) && this.config == config
    {
      this.config := config;
      signals, decisions, orders, fills := [], [], [], [];
    }

    // ---- Signal service ----

    /** Collects every error of a request, rather than stopping at the first. */
    method ValidateSignal(r: Request, now: int) returns (errors: seq<string>)
      ensures errors == [] <==> ValidRequest(r, now)
    {
      errors := if r.known then [] else ["strategy not found"];
      if r.symbol == "" {
        errors := errors + ["symbol is required"];
      }
      errors := errors + ChoiceErrors(r);
      errors := errors + TimestampErrors(r.ts, now);
      if r.version == "" {
        errors := errors + ["strategy_version is required"];
      }
      if r.timeframe == "" {
        errors := errors + ["timeframe is required"];
      }
    }

    static function ChoiceErrors(r: Request): (errors: seq<string>)
      ensures errors == [] <==> r.side in {"buy", "sell"} && r.signalType in {"entry", "exit", "scale_in", "scale_out"}
                                && r.source in {"strategy", "manual", "safety", "system"}
    {
      (if r.side in {"buy", "sell"} then [] else ["side must be one of: buy, sell"])
      + (if r.signalType in {"entry", "exit", "scale_in", "scale_out"} then []
         else ["signal_type must be one of: entry, exit, scale_in, scale_out"])
      + if r.source in {"strategy", "manual", "safety", "system"} then []
        else ["source must be one of: manual, safety, strategy, system"]
    }

    static function TimestampErrors(ts: Option<int>, now: int): (errors: seq<string>)
      ensures errors == [] <==> ts.Some? && now - 300 * SECOND <= ts.value <= now + 5 * SECOND
    {
      if ts.None? then ["ts is required"]
      else
        (if ts.value > now + 5 * SECOND then ["ts cannot be in the future"] else [])
        + if ts.value < now - 300 * SECOND then ["ts is too old (more than 5 minutes in the past)"] else []
    }

    method FindDuplicate(r: Request) returns (found: bool)
      requires r.ts.Some?
      ensures found <==> IsDuplicate(View(), config, r)
    {
      if r.source != "strategy" {
        return false;
      }
      if r.signalType == "exit" || r.signalType == "scale_out" {
        return false;
      }
      if config.windowBars <= 0 {
        return false;
      }
      var windowStart := r.ts.value - Window(config, r.timeframe);
      for i := 0 to |signals|
        invariant forall k :: 0 <= k < i ==>
          !(SameTrade(signals[k], r.strategy, r.symbol, r.side, r.signalType) && Live(signals[k].status) && signals[k].createdAt >= windowStart)
      {
        var row := signals[i];
        if SameTrade(row, r.strategy, r.symbol, r.side, r.signalType) && row.status in {Pending, RiskApproved} && row.createdAt >= windowStart {
          return true;
        }
      }
      return false;
    }

    /** Never raises: an invalid or duplicate request creates nothing. */
    method CreateSignal(r: Request, now: int) returns (created: bool)
      modifies this`signals
      ensures View() == Create(old(View()), config, r, now)
      ensures created <==> ValidRequest(r, now) && !IsDuplicate(old(View()), config, r)
    {
      var errors := ValidateSignal(r, now);
      if errors != [] {
        return false;
      }
      var duplicate := FindDuplicate(r);
      if duplicate {
        return false;
      }
      signals := signals + [NewSignal(config, r, now)];
      return true;
    }

    method CancelSignal(i: nat, owned: bool) returns (result: CancelResult)
      modifies this`signals
      ensures View() == Signals.CancelSignal(old(View()), i, owned)
      ensures result.CancelDone? <==> i < |old(signals)| && owned && old(signals)[i].status == Pending
      ensures result.WrongStatus? ==> i < |old(signals)| && result.status == old(signals)[i].status != Pending
    {
      if i >= |signals| || !owned {
        return NotFound;
      }
      if signals[i].status != Pending {
        return WrongStatus(signals[i].status);
      }
      signals := signals[i := signals[i].(status := Canceled)];
      return CancelDone;
    }

    /** One bulk update; returns how many rows it changed. */
    method ExpireStale(now: int) returns (count: nat)
      modifies this`signals
      ensures View() == Signals.ExpireStale(old(View()), now)
      ensures |signals| == |old(signals)| && count == Differing(old(signals), signals, |signals|)
      ensures forall i :: 0 <= i < |signals| ==>
                signals[i] == if old(signals)[i].status == Pending && old(signals)[i].expiresAt < now
                              then old(signals)[i].(status := Expired) else old(signals)[i]
    {
      signals, count := UpdateRows(signals, row => ExpireRow(row, now));
      assert signals == Signals.ExpireStale(old(View()), now).signals;
    }

    method CancelStrategySignals(strategy: nat) returns (count: nat)
      modifies this`signals
      ensures View() == CancelStrategy(old(View()), strategy)
      ensures |signals| == |old(signals)| && count == Differing(old(signals), signals, |signals|)
      ensures forall i :: 0 <= i < |signals| ==>
                signals[i] == if old(signals)[i].status == Pending && old(signals)[i].strategy == strategy
                              then old(signals)[i].(status := Canceled) else old(signals)[i]
    {
      signals, count := UpdateRows(signals, row => CancelRow(row, strategy));
      assert signals == CancelStrategy(old(View()), strategy).signals;
    }

    /** Refuses a transition the table of transitions does not list. */
    method UpdateSignalStatus(i: nat, status: Status) returns (ok: bool)
      requires i < |signals|
      modifies this`signals
      ensures View() == Advance(old(View()), i, status)
      ensures ok <==> status in AllowedFrom(old(signals)[i].status)
    {
      if status !in AllowedFrom(signals[i].status) {
        return false;
      }
      signals := signals[i := signals[i].(status := status)];
      return true;
    }

    // ---- Risk service ----

    /** The decision row, then the status. An exception on the way leaves what was written. */
    method EvaluateSignal(i: nat, env: Evaluation) returns (verdict: Option<Verdict>)
      requires i < |signals|
      modifies this`signals, this`decisions
      ensures View() == Evaluate(old(View()), i, env)
      ensures old(signals)[i].status == Pending && !HasDecision(old(View()), i) ==>
                SignalVerdicts.RightStatus(old(signals)[i].signalType, env, signals[i].status)
      ensures verdict.Some? ==> |decisions| == |old(decisions)| + 1 && decisions[..|old(decisions)|] == old(decisions)
                                && decisions[|old(decisions)|].judgement.verdict == verdict.value
      ensures verdict.None? && old(signals)[i].status == Pending ==> decisions == old(decisions)
    {
      if signals[i].status == Pending && !HasDecision(View(), i) {
        SignalVerdicts.EvaluationIsRight(View(), i, env);
      }
      var judged;
      if !env.strategyFound {
        judged := Some(Judgement(Rejected, [], Some("strategy_enable"), map[]));
      } else if !env.contextRead {
        return None;
      } else if IsExit(signals[i].signalType) {
        judged := RunExitChecks(env.checks);
      } else {
        judged := RunChecks(env.checks);
      }
      if judged.None? || HasDecision(View(), i) {
        return None;
      }
      decisions := decisions + [Decision(i, judged.value)];
      var ok := UpdateSignalStatus(i, StatusFor(judged.value.verdict));
      return if ok then Some(judged.value.verdict) else None;
    }

    /** Lists the pending signals, then evaluates them one by one. The counts are of the decisions
      * written, in all and by verdict. */
    method EvaluatePendingSignals(env: nat -> Evaluation) returns (evaluated: nat, approved: nat, rejected: nat, modified: nat)
      modifies this`signals, this`decisions
      ensures View() == RiskSweep(old(View()), env, |old(signals)|)
      ensures |decisions| == |old(decisions)| + evaluated
      ensures CountOf(decisions, Deciding(Approved)) == CountOf(old(decisions), Deciding(Approved)) + approved
      ensures CountOf(decisions, Deciding(Rejected)) == CountOf(old(decisions), Deciding(Rejected)) + rejected
      ensures CountOf(decisions, Deciding(Modified)) == CountOf(old(decisions), Deciding(Modified)) + modified
    {
      evaluated, approved, rejected, modified := 0, 0, 0, 0;
      ghost var start := View();
      var isPending := (r: Signal) => r.status == Pending;
      var pending := ListWhere(signals, isPending);
      RiskSweepHops(start, env, pending, isPending, 0);
      for n := 0 to |pending|
        invariant View() == RiskSweep(start, env, Upcoming(pending, n, |start.signals|))
        invariant |decisions| == |start.decisions| + evaluated
        invariant CountOf(decisions, Deciding(Approved)) == CountOf(start.decisions, Deciding(Approved)) + approved
        invariant CountOf(decisions, Deciding(Rejected)) == CountOf(start.decisions, Deciding(Rejected)) + rejected
        invariant CountOf(decisions, Deciding(Modified)) == CountOf(start.decisions, Deciding(Modified)) + modified
      {
        var i := pending[n];
        RiskSweepMoves(start, env, i);
        RiskSweepHops(start, env, pending, isPending, n + 1);
        ghost var before := decisions;
        var verdict := EvaluateSignal(i, env(i));
        if verdict.Some? {
          DecisionCounted(before, decisions);
          evaluated := evaluated + 1;
          match verdict.value {
            case Approved => approved := approved + 1;
            case Rejected => rejected := rejected + 1;
            case Modified => modified := modified + 1;
          }
        }
      }
    }

    // ---- Order service ----

    /** A quantity sized by the strategy is never negative nor more than the sizing asks for, and for
      * shares and contracts it is the largest such whole number. */
    method DetermineQty(market: string, changes: Changes, sizing: Sizing, price: real) returns (qty: Option<real>)
      ensures qty == OrderQty(config, market, changes, sizing, price)
      ensures qty.None? <==> "qty" in changes && !changes["qty"].Number?
      ensures qty.Some? ==> SignalOrders.Wanted(config, market, changes, sizing, price, qty.value)
      ensures "qty" !in changes ==> qty.Some? && qty.value >= 0.0
      ensures var sized := SizedQty(config, sizing, price);
              "qty" !in changes && sized >= 0.0 ==>
                if market == "equities" || market == "options"
                then qty.value.Floor as real == qty.value <= sized < qty.value + 1.0 else qty.value == sized
    {
      SignalOrders.OrderedIsWanted(config, market, changes, sizing, price);
      if "qty" in changes {
        return if changes["qty"].Number? then Some(changes["qty"].n) else None;
      }
      var q := SizedQty(config, sizing, price);
      TruncationCuts(q);
      if market == "equities" || market == "options" {
        q := Truncate(q) as real;
      }
      return Some(if q > 0.0 then q else 0.0);
    }

    method CreateRejectedOrder(i: nat, decision: Option<nat>, reason: string)
      requires i < |signals|
      modifies this`signals, this`orders
      ensures View() == TurnDown(old(View()), i, RejectedOrder(i, decision, 0.0, 1.0, reason))
    {
      orders := orders + [RejectedOrder(i, decision, 0.0, 1.0, reason)];
      var _ := UpdateSignalStatus(i, OrderRejected);
    }

    /** From the order on: its cash check, its row, and its status as it goes through the executor. */
    method SubmitOrder(i: nat, d: nat, qty: real, price: real, env: Processing) returns (status: OrderStatus)
      requires i < |signals|
      modifies this`signals, this`orders, this`fills
      ensures var row, m := old(signals)[i], Multiplier(config, old(signals)[i].market);
              View() == Carry(old(View()), i, d,
                if RequiredCash(row.side, qty, price, m, env.estimatedFee) > env.availableCash
                then TurnAway(RejectedOrder(i, Some(d), qty, m, "insufficient_cash"))
                else if env.submission.Refused? then TurnAway(RejectedOrder(i, Some(d), qty, m, env.submission.reason))
                else if env.simulation.Failed? then TurnAway(RejectedOrder(i, Some(d), qty, m, "fill_simulation_failed"))
                else Execute(qty, m, env.simulation.qty, env.simulation.price))
      ensures Placed(old(orders), orders, status)
    {
      var multiplier := Multiplier(config, signals[i].market);
      var order := Order(i, Some(d), qty, multiplier, Submitted, None);
      var required := RequiredCash(signals[i].side, qty, price, multiplier, env.estimatedFee);
      if required > env.availableCash {
        order := order.(status := Turned("insufficient_cash"));
        orders := orders + [order];
        var _ := UpdateSignalStatus(i, OrderRejected);
        return order.status;
      }
      var o := |orders|;
      orders := orders + [order];
      if env.submission.Refused? {
        orders := orders[o := order.(status := Turned(env.submission.reason))];
        var _ := UpdateSignalStatus(i, OrderRejected);
        return orders[o].status;
      }
      orders := orders[o := order.(status := Accepted)];
      if env.simulation.Failed? {
        orders := orders[o := order.(status := Turned("fill_simulation_failed"))];
        var _ := UpdateSignalStatus(i, OrderRejected);
        return orders[o].status;
      }
      fills := fills + [Fill(o, env.simulation.qty, env.simulation.price)];
      orders := orders[o := order.(status := Filled, filledQty := Some(env.simulation.qty))];
      var _ := UpdateSignalStatus(i, OrderFilled);
      return Filled;
    }

    /** Takes one cleared signal to an order, and if all goes well to a fill. */
    method ProcessSignal(i: nat, env: Processing) returns (status: Option<OrderStatus>)
      requires i < |signals|
      modifies this`signals, this`orders, this`fills
      ensures View() == Place(old(View()), config, i, env)
      ensures if status.Some? then Placed(old(orders), orders, status.value) else orders == old(orders)
    {
      if HasOrder(View(), i) {
        return None;
      }
      if !HasDecision(View(), i) {
        CreateRejectedOrder(i, None, "no_risk_decision");
        return Some(Turned("no_risk_decision"));
      }
      var d := DecisionIndex(View(), i);
      if env.price.None? {
        CreateRejectedOrder(i, Some(d), "no_reference_price");
        return Some(Turned("no_reference_price"));
      }
      var qty := DetermineQty(signals[i].market, decisions[d].judgement.changes, env.sizing, env.price.value);
      if qty.None? {
        return None;
      }
      if qty.value <= 0.0 {
        CreateRejectedOrder(i, Some(d), "invalid_quantity");
        return Some(Turned("invalid_quantity"));
      }
      var reached := SubmitOrder(i, d, qty.value, env.price.value, env);
      return Some(reached);
    }

    /** Lists the cleared signals, then processes them one by one. The counts are of the orders
      * written, in all, filled and turned down. */
    method ProcessApprovedSignals(env: nat -> Processing) returns (processed: nat, filled: nat, rejected: nat)
      modifies this`signals, this`orders, this`fills
      ensures View() == OrderSweep(old(View()), config, env, |old(signals)|)
      ensures |orders| == |old(orders)| + processed
      ensures CountOf(orders, WasFilled) == CountOf(old(orders), WasFilled) + filled
      ensures CountOf(orders, WasTurned) == CountOf(old(orders), WasTurned) + rejected
    {
      processed, filled, rejected := 0, 0, 0;
      ghost var start := View();
      var isCleared := (r: Signal) => Cleared(r.status);
      var cleared := ListWhere(signals, isCleared);
      OrderSweepHops(start, config, env, cleared, isCleared, 0);
      for n := 0 to |cleared|
        invariant View() == OrderSweep(start, config, env, Upcoming(cleared, n, |start.signals|))
        invariant |orders| == |start.orders| + processed
        invariant CountOf(orders, WasFilled) == CountOf(start.orders, WasFilled) + filled
        invariant CountOf(orders, WasTurned) == CountOf(start.orders, WasTurned) + rejected
      {
        var i := cleared[n];
        OrderSweepMoves(start, config, env, i);
        OrderSweepHops(start, config, env, cleared, isCleared, n + 1);
        ghost var before := orders;
        var status := ProcessSignal(i, env(i));
        if status.Some? {
          OrderCounted(before, orders);
          processed := processed + 1;
          if status.value == Filled {
            filled := filled + 1;
          } else if status.value.Turned? {
            rejected := rejected + 1;
          }
        }
      }
    }
  }
}

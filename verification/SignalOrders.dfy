/** What the order cycle orders, told from the sizing rule, the decision and the cash at hand. */
module SignalOrders {
  import opened Reals
  import opened Sums
  import opened RiskPipeline
  import opened Signals
  import opened SignalRuns
  import opened SignalInvariant
  import SignalVerdicts

  // ---- Quantities ----

  /** What a quantity sized by each method is worth: a number of dollars, a percentage of equity, or
    * so much that the way from price to stop loses a percentage of equity. */
  predicate SizeIs(equity: real, sizing: Sizing, price: real, q: real) {
    match sizing
    case FixedQty(value) => q == value
    case FixedDollar(value) => if price > 0.0 then q * price == value else q == 0.0
    case PercentEquity(value) => if price > 0.0 then q * price * 100.0 == equity * value else q == 0.0
    case RiskBased(percent, stop) =>
      if price > stop then q * (price - stop) * 100.0 == equity * percent
      else if price < stop then q * (stop - price) * 100.0 == equity * percent
      else q == 0.0
    case OtherSizing(value) => q == value
  }

  lemma ShareOf(equity: real, percent: real, unit: real)
    requires unit != 0.0
    ensures equity * percent / 100.0 / unit * unit * 100.0 == equity * percent
  {
    DivMul(equity * percent / 100.0, unit);
    DivMul(equity * percent, 100.0);
  }

  lemma SizedMeans(c: Config, sizing: Sizing, price: real)
    ensures SizeIs(c.equity, sizing, price, SizedQty(c, sizing, price))
  {
    match sizing
    case FixedDollar(value) =>
      if price > 0.0 { DivMul(value, price); }
    case PercentEquity(value) =>
      if price > 0.0 { ShareOf(c.equity, value, price); }
    case RiskBased(percent, stop) =>
      if price > stop { ShareOf(c.equity, percent, price - stop); }
      if price < stop { ShareOf(c.equity, percent, stop - price); }
    case _ =>
  }

  /** That settles the quantity. */
  lemma SizeIsOne(equity: real, sizing: Sizing, price: real, q: real, r: real)
    requires SizeIs(equity, sizing, price, q) && SizeIs(equity, sizing, price, r)
    ensures q == r
  {
    match sizing
    case FixedDollar(value) =>
      if price > 0.0 { Cancel(q, r, price); }
    case PercentEquity(value) =>
      if price > 0.0 { Cancel(q, r, price); }
    case RiskBased(percent, stop) =>
      if price > stop { Cancel(q, r, price - stop); }
      if price < stop { Cancel(q, r, stop - price); }
    case _ =>
  }

  /** Nothing for a size below zero; else the size, for shares and contracts the whole units of it. */
  predicate CutFor(market: string, sized: real, q: real) {
    if sized < 0.0 then q == 0.0
    else if market == "equities" || market == "options" then q.Floor as real == q <= sized < q + 1.0
    else q == sized
  }

  /** The quantity a cleared signal is ordered for: the one a check set, or the one sized and cut. */
  ghost predicate Wanted(c: Config, market: string, changes: Changes, sizing: Sizing, price: real, q: real) {
    if "qty" in changes then changes["qty"] == Number(q)
    else exists sized :: SizeIs(c.equity, sizing, price, sized) && CutFor(market, sized, q)
  }

  lemma OrderedIsWanted(c: Config, market: string, changes: Changes, sizing: Sizing, price: real)
    ensures var qty := OrderQty(c, market, changes, sizing, price);
            && (qty.None? <==> "qty" in changes && !changes["qty"].Number?)
            && (qty.Some? ==> Wanted(c, market, changes, sizing, price, qty.value))
  {
    if "qty" !in changes {
      var sized := SizedQty(c, sizing, price);
      SizedMeans(c, sizing, price);
      TruncationCuts(sized);
      NegativeIsCutToNothing(sized);
      assert CutFor(market, sized, OrderQty(c, market, changes, sizing, price).value);
    }
  }

  lemma NegativeIsCutToNothing(q: real)
    ensures q < 0.0 ==> Truncate(q) as real <= 0.0
  {
  }

  lemma WholeIsOne(sized: real, n: int, m: int)
    requires n as real <= sized < n as real + 1.0 && m as real <= sized < m as real + 1.0
    ensures n == m
  {
    assert (n - m) as real < 1.0 && (m - n) as real < 1.0;
  }

  lemma CutIsOne(market: string, sized: real, q: real, r: real)
    requires CutFor(market, sized, q) && CutFor(market, sized, r)
    ensures q == r
  {
    if sized >= 0.0 && (market == "equities" || market == "options") {
      var n, m := q.Floor, r.Floor;
      assert n as real == q && m as real == r;
      WholeIsOne(sized, n, m);
    }
  }

  lemma WantedIsOne(c: Config, market: string, changes: Changes, sizing: Sizing, price: real, q: real, r: real)
    requires Wanted(c, market, changes, sizing, price, q) && Wanted(c, market, changes, sizing, price, r)
    ensures q == r
  {
    if "qty" !in changes {
      var sized :| SizeIs(c.equity, sizing, price, sized) && CutFor(market, sized, q);
      var again :| SizeIs(c.equity, sizing, price, again) && CutFor(market, again, r);
      SizeIsOne(c.equity, sizing, price, sized, again);
      CutIsOne(market, sized, q, r);
    }
  }

  // ---- Orders ----

  /** What an order may cost: nothing for a sale, and for anything else its full value, an option's
    * at the option multiplier, with the fee. */
  function Cost(c: Config, row: Signal, q: real, price: real, fee: real): real {
    if row.side == "sell" then 0.0
    else if row.market == "options" then q * price * c.optionMultiplier + fee
    else q * price * 1.0 + fee
  }

  predicate GoesThrough(c: Config, row: Signal, q: real, price: real, env: Processing) {
    q > 0.0 && Cost(c, row, q, price, env.estimatedFee) <= env.availableCash && env.submission.Taken? && env.simulation.Done?
  }

  function UnitsPer(c: Config, market: string): real {
    if market == "options" then c.optionMultiplier else 1.0
  }

  /** The ticket for a given quantity. */
  predicate RightTicket(c: Config, row: Signal, q: real, price: real, env: Processing, ticket: Ticket) {
    && (ticket.Execute? <==> GoesThrough(c, row, q, price, env))
    && (ticket.TurnAway? <==> !GoesThrough(c, row, q, price, env))
    && (ticket.Execute? ==> ticket == Execute(q, UnitsPer(c, row.market), env.simulation.qty, env.simulation.price))
    && (q > 0.0 && Cost(c, row, q, price, env.estimatedFee) > env.availableCash ==>
          ticket.TurnAway? && ticket.order.requestedQty == q && ticket.order.status == Turned("insufficient_cash"))
  }

  lemma CostIsRequired(c: Config, row: Signal, q: real, price: real, fee: real)
    ensures RequiredCash(row.side, q, price, Multiplier(c, row.market), fee) == Cost(c, row, q, price, fee)
  {
  }

  lemma TicketIsRight(c: Config, i: nat, d: nat, row: Signal, changes: Changes, env: Processing, q: real)
    requires env.price.Some? && OrderQty(c, row.market, changes, env.sizing, env.price.value) == Some(q)
    ensures RightTicket(c, row, q, env.price.value, env, Assess(c, i, d, row, changes, env))
  {
    CostIsRequired(c, row, q, env.price.value, env.estimatedFee);
  }

  /** An order is executed, for the quantity wanted, exactly when that is positive, the cash covers
    * its cost, the broker takes it and the fill succeeds; and it is turned away for lack of cash
    * when that is what it lacks. */
  lemma OrderIsRight(c: Config, i: nat, d: nat, row: Signal, changes: Changes, env: Processing, q: real)
    requires env.price.Some? && Wanted(c, row.market, changes, env.sizing, env.price.value, q)
    ensures RightTicket(c, row, q, env.price.value, env, Assess(c, i, d, row, changes, env))
  {
    var qty := OrderQty(c, row.market, changes, env.sizing, env.price.value);
    OrderedIsWanted(c, row.market, changes, env.sizing, env.price.value);
    assert qty.Some? by {
      if "qty" in changes {
        assert changes["qty"] == Number(q);
      }
    }
    WantedIsOne(c, row.market, changes, env.sizing, env.price.value, q, qty.value);
    TicketIsRight(c, i, d, row, changes, env, q);
  }

  /** A sale costs nothing, and yet is turned away for lack of cash exactly when the cash is already
    * negative. */
  lemma SaleNeedsNoDebtIff(c: Config, i: nat, d: nat, row: Signal, changes: Changes, env: Processing, q: real)
    requires env.price.Some? && Wanted(c, row.market, changes, env.sizing, env.price.value, q) && q > 0.0
    requires row.side == "sell" && env.submission.Taken? && env.simulation.Done?
    ensures Assess(c, i, d, row, changes, env) ==
            if env.availableCash < 0.0 then TurnAway(RejectedOrder(i, Some(d), q, UnitsPer(c, row.market), "insufficient_cash"))
            else Execute(q, UnitsPer(c, row.market), env.simulation.qty, env.simulation.price)
  {
    OrderIsRight(c, i, d, row, changes, env, q);
  }

  /** Ten shares to be sold at a hundred, with one dollar owed: the sale is turned away. */
  lemma DebtBlocksSale(c: Config)
    ensures var row := Signal(0, "ABC", "equities", "sell", "exit", "strategy", "1h", 0, 0, RiskApproved);
            var env := Processing(Some(100.0), FixedQty(10.0), 0.0, -1.0, Taken, Done(10.0, 100.0));
            Assess(c, 0, 0, row, map[], env) == TurnAway(RejectedOrder(0, Some(0), 10.0, 1.0, "insufficient_cash"))
  {
    WholeIsKept(10);
  }

  // ---- The order cycle ----

  /** A cleared signal with no price is rejected; one whose quantity is no number stays as it is; any
    * other is filled exactly when its order goes through, and rejected otherwise. */
  ghost predicate RightOrder(c: Config, row: Signal, changes: Changes, env: Processing, status: Status) {
    if env.price.None? then status == OrderRejected
    else if "qty" in changes && !changes["qty"].Number? then status == row.status
    else exists q :: FilledFor(c, row, changes, env, q, status)
  }

  ghost predicate FilledFor(c: Config, row: Signal, changes: Changes, env: Processing, q: real, status: Status)
    requires env.price.Some?
  {
    && Wanted(c, row.market, changes, env.sizing, env.price.value, q)
    && status == if GoesThrough(c, row, q, env.price.value, env) then OrderFilled else OrderRejected
  }

  lemma PlacedRight(s: State, c: Config, i: nat, env: Processing)
    requires i < |s.signals| && Cleared(s.signals[i].status) && HasDecision(s, i) && !HasOrder(s, i)
    ensures RightOrder(c, s.signals[i], s.decisions[DecisionIndex(s, i)].judgement.changes, env, Place(s, c, i, env).signals[i].status)
  {
    var row, d := s.signals[i], DecisionIndex(s, i);
    var changes := s.decisions[d].judgement.changes;
    if env.price.Some? {
      OrderedIsWanted(c, row.market, changes, env.sizing, env.price.value);
      var qty := OrderQty(c, row.market, changes, env.sizing, env.price.value);
      if qty.Some? {
        TicketIsRight(c, i, d, row, changes, env, qty.value);
        CarriedStatus(s, i, d, Assess(c, i, d, row, changes, env));
        assert FilledFor(c, row, changes, env, qty.value, Place(s, c, i, env).signals[i].status);
      }
    }
  }

  lemma CarriedStatus(s: State, i: nat, d: nat, ticket: Ticket)
    requires i < |s.signals| && Cleared(s.signals[i].status)
    ensures Carry(s, i, d, ticket).signals[i].status
            == if ticket.Raises? then s.signals[i].status else if ticket.Execute? then OrderFilled else OrderRejected
  {
  }

  /** The status of signal `i` after its turn, in the tables its turn finds. */
  ghost predicate Served(s: State, c: Config, env: Processing, i: nat, after: Signal)
    requires i < |s.signals|
  {
    if Cleared(s.signals[i].status)
    then HasDecision(s, i) && RightOrder(c, s.signals[i], s.decisions[DecisionIndex(s, i)].judgement.changes, env, after.status)
    else after == s.signals[i]
  }

  lemma TurnKeepsDecisions(s: State, c: Config, env: nat -> Processing, i: nat)
    ensures OrderTurn(c, env)(s, i).decisions == s.decisions
  {
    if i < |s.signals| && Cleared(s.signals[i].status) {
      assert Place(s, c, i, env(i)).decisions == s.decisions;
    }
  }

  /** Order turns write no decision. */
  lemma {:induction false} SweepKeepsDecisions(s: State, c: Config, env: nat -> Processing, n: nat)
    ensures OrderSweep(s, c, env, n).decisions == s.decisions
  {
    if n > 0 {
      SweepKeepsDecisions(s, c, env, n - 1);
      var before := OrderSweep(s, c, env, n - 1);
      TurnKeepsDecisions(before, c, env, n - 1);
    }
  }

  lemma BeforeItsTurn(s: State, c: Config, env: nat -> Processing, i: nat)
    requires Consistent(s) && i < |s.signals|
    ensures var before := OrderSweep(s, c, env, i);
            && |before.signals| == |s.signals| && before.signals[i] == s.signals[i] && before.decisions == s.decisions
            && (Cleared(s.signals[i].status) ==> HasDecision(before, i) && !HasOrder(before, i))
  {
    OrderSweepMoves(s, c, env, i);
    OrderSweepKeeps(s, c, env, i);
    SweepKeepsDecisions(s, c, env, i);
    assert RowFits(OrderSweep(s, c, env, i), i);
  }

  lemma AfterItsTurn(s: State, c: Config, env: nat -> Processing, i: nat)
    requires Consistent(s) && i < |s.signals|
    ensures var after := OrderSweep(s, c, env, i + 1);
            && |after.signals| == |s.signals|
            && Served(s, c, env(i), i, after.signals[i])
  {
    BeforeItsTurn(s, c, env, i);
    OrderSweepMoves(s, c, env, i + 1);
    var before := OrderSweep(s, c, env, i);
    assert OrderSweep(s, c, env, i + 1) == OrderTurn(c, env)(before, i);
    if Cleared(s.signals[i].status) {
      PlacedRight(before, c, i, env(i));
    }
  }

  lemma LaterTurnsLeave(s: State, c: Config, env: nat -> Processing, i: nat)
    requires i < |s.signals| == |OrderSweep(s, c, env, i + 1).signals|
    ensures var after := OrderSweep(s, c, env, |s.signals|);
            |after.signals| == |s.signals| && after.signals[i] == OrderSweep(s, c, env, i + 1).signals[i]
  {
    forall t: State, j: nat ensures Touches(t, OrderTurn(c, env)(t, j), j) {
      OrderTurnTouches(t, c, env, j);
    }
    IterateMoves(s, OrderTurn(c, env), |s.signals|);
    if i + 1 < |s.signals| {
      SignalVerdicts.TurnsLeave(s, OrderTurn(c, env), i, |s.signals|);
    }
  }

  /** In every order cycle from consistent tables, every cleared signal ends as its decision, its
    * sizing and the broker's answers call for, and every other signal keeps its status. */
  lemma CycleIsRight(s: State, c: Config, env: nat -> Processing, i: nat)
    requires Consistent(s) && i < |s.signals|
    ensures var after := Step(s, c, OrderCycle(env));
            && |after.signals| == |s.signals|
            && Served(s, c, env(i), i, after.signals[i])
  {
    AfterItsTurn(s, c, env, i);
    LaterTurnsLeave(s, c, env, i);
  }
}

/** What every run of the pipeline keeps between a signal's status and its decision, order and fill. */
module SignalInvariant {
  import opened Reals
  import opened Sums
  import opened RiskPipeline
  import opened Signals
  import opened SignalRuns

  function DecisionOf(s: State, i: nat): Option<Decision> {
    if HasDecision(s, i) then Some(s.decisions[DecisionIndex(s, i)]) else None
  }

  function OrderOf(s: State, i: nat): Option<Order> {
    if HasOrder(s, i) then Some(s.orders[OrderIndex(s, i)]) else None
  }

  function FillOf(s: State, i: nat): Option<Fill> {
    if HasOrder(s, i) && First(s.fills, OfOrder(OrderIndex(s, i)), 0) < |s.fills|
    then Some(s.fills[First(s.fills, OfOrder(OrderIndex(s, i)), 0)]) else None
  }

  predicate Ordered(status: Status) {
    status == OrderFilled || status == OrderRejected
  }

  /** The verdict a status tells of, and the records it comes with. */
  predicate Fits(status: Status, decision: Option<Decision>, order: Option<Order>, fill: Option<Fill>) {
    && (decision.Some? <==> Cleared(status) || status == RiskRejected || Ordered(status))
    && (decision.Some? ==>
          && (status == RiskRejected <==> decision.value.judgement.verdict == Rejected)
          && (status == RiskApproved ==> decision.value.judgement.verdict == Approved)
          && (status == RiskModified ==> decision.value.judgement.verdict == Modified))
    && (order.Some? <==> Ordered(status))
    && (order.Some? ==> if status == OrderFilled then order.value.status == Filled else order.value.status.Turned?)
    && (fill.Some? <==> status == OrderFilled)
    && (fill.Some? && order.Some? ==> order.value.filledQty == Some(fill.value.qty))
  }

  ghost predicate OneEach(s: State) {
    && (forall d, e :: 0 <= d < e < |s.decisions| ==> s.decisions[d].signal != s.decisions[e].signal)
    && (forall o, p :: 0 <= o < p < |s.orders| ==> s.orders[o].signal != s.orders[p].signal)
    && (forall f, g :: 0 <= f < g < |s.fills| ==> s.fills[f].order != s.fills[g].order)
  }

  ghost predicate Anchored(s: State) {
    && (forall d :: 0 <= d < |s.decisions| ==> s.decisions[d].signal < |s.signals|)
    && (forall o :: 0 <= o < |s.orders| ==> s.orders[o].signal < |s.signals|)
    && (forall f :: 0 <= f < |s.fills| ==> s.fills[f].order < |s.orders|)
  }

  ghost predicate RowFits(s: State, i: nat)
    requires i < |s.signals|
  {
    Fits(s.signals[i].status, DecisionOf(s, i), OrderOf(s, i), FillOf(s, i))
  }

  ghost predicate Consistent(s: State) {
    OneEach(s) && Anchored(s) && forall i: nat :: i < |s.signals| ==> RowFits(s, i)
  }

  // ---- Lookups in tables with one more row ----

  lemma FirstAppended<T>(rows: seq<T>, row: T, p: T -> bool)
    ensures First(rows + [row], p, 0) ==
      if First(rows, p, 0) < |rows| then First(rows, p, 0) else if p(row) then |rows| else |rows| + 1
  {
    var before, after := First(rows, p, 0), First(rows + [row], p, 0);
    assert forall j :: 0 <= j < |rows| ==> (rows + [row])[j] == rows[j];
    assert (rows + [row])[|rows|] == row;
    if before < |rows| {
      assert p((rows + [row])[before]);
    }
  }

  lemma NoneFound<T>(rows: seq<T>, p: T -> bool)
    requires forall j :: 0 <= j < |rows| ==> !p(rows[j])
    ensures First(rows, p, 0) == |rows|
  {
  }

  /** A decision row for signal `i` is seen by signal `i` alone. */
  lemma DecisionAppended(s: State, i: nat, j: nat, judgement: Judgement)
    requires !HasDecision(s, i)
    ensures var t := s.(decisions := s.decisions + [Decision(i, judgement)]);
            && DecisionOf(t, j) == (if i == j then Some(Decision(i, judgement)) else DecisionOf(s, j))
            && OrderOf(t, j) == OrderOf(s, j) && FillOf(t, j) == FillOf(s, j)
  {
    FirstAppended(s.decisions, Decision(i, judgement), OfSignal(j));
  }

  lemma OrderAppended(s: State, i: nat, j: nat, order: Order)
    requires !HasOrder(s, i) && order.signal == i && Anchored(s)
    ensures var t := s.(orders := s.orders + [order]);
            && DecisionOf(t, j) == DecisionOf(s, j)
            && OrderOf(t, j) == (if i == j then Some(order) else OrderOf(s, j))
            && FillOf(t, j) == FillOf(s, j)
  {
    FirstAppended(s.orders, order, OrderOfSignal(j));
    NoneFound(s.fills, OfOrder(|s.orders|));
  }

  lemma FillAppended(s: State, i: nat, j: nat, order: Order, fill: Fill)
    requires !HasOrder(s, i) && order.signal == i && Anchored(s) && fill.order == |s.orders|
    ensures var t := s.(orders := s.orders + [order], fills := s.fills + [fill]);
            && DecisionOf(t, j) == DecisionOf(s, j)
            && OrderOf(t, j) == (if i == j then Some(order) else OrderOf(s, j))
            && FillOf(t, j) == (if i == j then Some(fill) else FillOf(s, j))
  {
    FirstAppended(s.orders, order, OrderOfSignal(j));
    NoneFound(s.fills, OfOrder(|s.orders|));
    var t := s.(orders := s.orders + [order]);
    FirstAppended(s.fills, fill, OfOrder(OrderIndex(t, j)));
  }

  // ---- Steps on one row ----

  /** A decision's verdict and its status go together. */
  lemma DecidedRow(s: State, i: nat, judgement: Judgement, j: nat)
    requires Anchored(s) && i < |s.signals| && !HasDecision(s, i) && j < |s.signals|
    requires RowFits(s, i) && RowFits(s, j)
    ensures RowFits(Decided(s, i, judgement), j)
  {
    DecisionAppended(s, i, j, judgement);
  }

  lemma DecidedKeeps(s: State, i: nat, judgement: Judgement)
    requires Consistent(s) && i < |s.signals| && !HasDecision(s, i)
    ensures Consistent(Decided(s, i, judgement))
  {
    forall j: nat | j < |s.signals| ensures RowFits(Decided(s, i, judgement), j) {
      assert RowFits(s, i) && RowFits(s, j);
      DecidedRow(s, i, judgement, j);
    }
  }

  /** A pending row is what the cycle listed, so the two ways of reading it agree. */
  lemma PendingIsAsListed(s: State, i: nat, env: Evaluation)
    requires i < |s.signals| && s.signals[i].status == Pending
    ensures Evaluate(s, i, env) == EvaluateListed(s, i, env)
  {
  }

  lemma EvaluateListedKeeps(s: State, i: nat, env: Evaluation)
    requires Consistent(s) && i < |s.signals|
    ensures Consistent(EvaluateListed(s, i, env))
  {
    var judged := Judge(s.signals[i].signalType, env);
    if judged.Some? && !HasDecision(s, i) {
      DecidedKeeps(s, i, judged.value);
    }
  }

  lemma EvaluateKeeps(s: State, i: nat, env: Evaluation)
    requires Consistent(s) && i < |s.signals| && s.signals[i].status == Pending
    ensures Consistent(Evaluate(s, i, env))
  {
    EvaluateListedKeeps(s, i, env);
    PendingIsAsListed(s, i, env);
  }

  lemma TurnedRow(s: State, i: nat, order: Order, j: nat)
    requires Anchored(s) && i < |s.signals| && Cleared(s.signals[i].status) && j < |s.signals|
    requires order.signal == i && order.status.Turned?
    requires RowFits(s, i) && RowFits(s, j)
    ensures RowFits(TurnDown(s, i, order), j)
  {
    OrderAppended(s, i, j, order);
  }

  lemma TurnDownKeeps(s: State, i: nat, order: Order)
    requires Consistent(s) && i < |s.signals| && Cleared(s.signals[i].status)
    requires order.signal == i && order.status.Turned?
    ensures Consistent(TurnDown(s, i, order))
  {
    assert RowFits(s, i);
    forall j: nat | j < |s.signals| ensures RowFits(TurnDown(s, i, order), j) {
      assert RowFits(s, j);
      TurnedRow(s, i, order, j);
    }
  }

  lemma FilledRow(s: State, i: nat, d: nat, requested: real, multiplier: real, qty: real, price: real, j: nat)
    requires Anchored(s) && i < |s.signals| && Cleared(s.signals[i].status) && j < |s.signals|
    requires RowFits(s, i) && RowFits(s, j)
    ensures RowFits(FillOrder(s, i, d, requested, multiplier, qty, price), j)
  {
    FillAppended(s, i, j, Order(i, Some(d), requested, multiplier, Filled, Some(qty)), Fill(|s.orders|, qty, price));
  }

  lemma FillOrderKeeps(s: State, i: nat, d: nat, requested: real, multiplier: real, qty: real, price: real)
    requires Consistent(s) && i < |s.signals| && Cleared(s.signals[i].status)
    ensures Consistent(FillOrder(s, i, d, requested, multiplier, qty, price))
  {
    assert RowFits(s, i);
    forall j: nat | j < |s.signals| ensures RowFits(FillOrder(s, i, d, requested, multiplier, qty, price), j) {
      assert RowFits(s, j);
      FilledRow(s, i, d, requested, multiplier, qty, price, j);
    }
  }

  lemma CarryKeeps(s: State, i: nat, d: nat, ticket: Ticket)
    requires Consistent(s) && i < |s.signals| && Cleared(s.signals[i].status)
    requires ticket.TurnAway? ==> ticket.order.signal == i && ticket.order.status.Turned?
    ensures Consistent(Carry(s, i, d, ticket))
  {
    match ticket
    case Raises =>
    case TurnAway(order) => TurnDownKeeps(s, i, order);
    case Execute(requested, multiplier, qty, price) => FillOrderKeeps(s, i, d, requested, multiplier, qty, price);
  }

  /** A cleared signal always has its decision: the branch for a missing one is never taken. */
  lemma ClearedHasDecision(s: State, i: nat)
    requires Consistent(s) && i < |s.signals| && Cleared(s.signals[i].status)
    ensures HasDecision(s, i) && !HasOrder(s, i)
  {
    assert RowFits(s, i);
  }

  lemma PlaceKeeps(s: State, c: Config, i: nat, env: Processing)
    requires Consistent(s) && i < |s.signals| && Cleared(s.signals[i].status)
    ensures Consistent(Place(s, c, i, env))
  {
    ClearedHasDecision(s, i);
    var d := DecisionIndex(s, i);
    CarryKeeps(s, i, d, Assess(c, i, d, s.signals[i], s.decisions[d].judgement.changes, env));
  }

  // ---- Service calls ----

  /** Changing signal rows without touching the other tables, where each row still fits. */
  lemma RowsChanged(s: State, signals: seq<Signal>)
    requires Consistent(s) && |signals| == |s.signals|
    requires forall j :: 0 <= j < |signals| ==>
      signals[j].status == s.signals[j].status
      || (s.signals[j].status == Pending && (signals[j].status == Expired || signals[j].status == Canceled))
    ensures Consistent(s.(signals := signals))
  {
    forall j: nat | j < |signals| ensures RowFits(s.(signals := signals), j) {
      assert RowFits(s, j);
    }
  }

  lemma CreateKeeps(s: State, c: Config, r: Request, now: int)
    requires Consistent(s)
    ensures Consistent(Create(s, c, r, now))
  {
    var t := Create(s, c, r, now);
    NoneFound(s.decisions, OfSignal(|s.signals|));
    NoneFound(s.orders, OrderOfSignal(|s.signals|));
    forall j: nat | j < |t.signals| ensures RowFits(t, j) {
      if j < |s.signals| {
        assert RowFits(s, j);
      }
    }
  }

  lemma {:induction false} IterateKeeps(p: State -> bool, s: State, turn: (State, nat) -> State, n: nat)
    requires p(s) && forall t: State, i: nat :: p(t) ==> p(turn(t, i))
    ensures p(Iterate(s, turn, n))
  {
    if n > 0 {
      IterateKeeps(p, s, turn, n - 1);
    }
  }

  lemma RiskSweepKeeps(s: State, env: nat -> Evaluation, n: nat)
    requires Consistent(s)
    ensures Consistent(RiskSweep(s, env, n))
  {
    ghost var p: State -> bool := (t: State) => Consistent(t);
    forall t: State, i: nat | p(t) ensures p(RiskTurn(env)(t, i)) {
      if i < |t.signals| && t.signals[i].status == Pending {
        EvaluateKeeps(t, i, env(i));
      }
    }
    IterateKeeps(p, s, RiskTurn(env), n);
    assert p(RiskSweep(s, env, n));
  }

  lemma OrderSweepKeeps(s: State, c: Config, env: nat -> Processing, n: nat)
    requires Consistent(s)
    ensures Consistent(OrderSweep(s, c, env, n))
  {
    ghost var p: State -> bool := (t: State) => Consistent(t);
    forall t: State, i: nat | p(t) ensures p(OrderTurn(c, env)(t, i)) {
      if i < |t.signals| && Cleared(t.signals[i].status) {
        PlaceKeeps(t, c, i, env(i));
      }
    }
    IterateKeeps(p, s, OrderTurn(c, env), n);
    assert p(OrderSweep(s, c, env, n));
  }

  lemma StepKeeps(s: State, c: Config, a: Action)
    requires Consistent(s)
    ensures Consistent(Step(s, c, a))
  {
    match a
    case CreateSignal(request, at) => CreateKeeps(s, c, request, at);
    case Expire(now) => RowsChanged(s, ExpireStale(s, now).signals);
    case UserCancel(i, owned) => RowsChanged(s, CancelSignal(s, i, owned).signals);
    case StrategyCancel(strategy) => RowsChanged(s, CancelStrategy(s, strategy).signals);
    case RiskCycle(env) => RiskSweepKeeps(s, env, |s.signals|);
    case OrderCycle(env) => OrderSweepKeeps(s, c, env, |s.signals|);
  }

  /** However the actors interleave, statuses, decisions, orders and fills stay in step. */
  lemma {:induction false} RunsStayConsistent(c: Config, actions: seq<Action>)
    ensures Consistent(Run(c, actions))
  {
    if actions != [] {
      RunsStayConsistent(c, actions[..|actions| - 1]);
      StepKeeps(Run(c, actions[..|actions| - 1]), c, actions[|actions| - 1]);
    }
  }

  // ---- A signal that changes between the cycle's listing and its evaluation ----

  /** The cycle's session evaluates the signal as it listed it. The tables stay in step, but a
    * signal that was canceled or has expired meanwhile is brought back: the step keeps to the listed
    * transitions exactly when the signal is still pending, already has a decision, or the evaluation
    * raises first. */
  lemma StaleEvaluationRevivesIff(s: State, i: nat, env: Evaluation)
    requires Consistent(s) && i < |s.signals|
    ensures Consistent(EvaluateListed(s, i, env))
    ensures Moves(s.signals[i].status, EvaluateListed(s, i, env).signals[i].status)
            <==> s.signals[i].status == Pending || HasDecision(s, i) || Judge(s.signals[i].signalType, env).None?
  {
    EvaluateListedKeeps(s, i, env);
    assert RowFits(s, i);
  }

  /** Read afresh, the row would refuse the status after the decision was written: then the tables
    * stay in step exactly under the same condition. */
  lemma StaleEvaluationIff(s: State, i: nat, env: Evaluation)
    requires Consistent(s) && i < |s.signals|
    ensures Consistent(Evaluate(s, i, env))
            <==> s.signals[i].status == Pending || HasDecision(s, i) || Judge(s.signals[i].signalType, env).None?
  {
    var t, judged := Evaluate(s, i, env), Judge(s.signals[i].signalType, env);
    assert RowFits(s, i);
    if s.signals[i].status == Pending {
      EvaluateKeeps(s, i, env);
    } else if !HasDecision(s, i) && judged.Some? {
      DecisionAppended(s, i, i, judged.value);
      assert !RowFits(t, i);
    }
  }

  /** A user cancels a signal the risk cycle has already listed; the evaluation approves it. */
  lemma CanceledSignalIsRevived(c: Config)
    ensures var request := Request(0, true, "ABC", "equities", "buy", "entry", "manual", "1h", "1", Some(0));
            var s := Run(c, [CreateSignal(request, 0), UserCancel(0, true)]);
            && |s.signals| == 1 && s.signals[0].status == Canceled
            && EvaluateListed(s, 0, Evaluation(true, true, [])).signals[0].status == RiskApproved
  {
    var request := Request(0, true, "ABC", "equities", "buy", "entry", "manual", "1h", "1", Some(0));
    var first, second := CreateSignal(request, 0), UserCancel(0, true);
    var s1 := State([NewSignal(c, request, 0)], [], [], []);
    var s2 := State([NewSignal(c, request, 0).(status := Canceled)], [], [], []);
    assert [first, second][..1] == [first] && [first][..0] == [];
    assert Run(c, [first]) == s1;
    assert Run(c, [first, second]) == Step(s1, c, second) == s2;
  }

  // ---- What of a decision reaches the order ----

  /** A decision's changes reach the order through "qty" only: the order is the one an untouched
    * approval would give, whatever the broker meets, exactly when they do not set that key. */
  lemma OnlyQtyReachesTheOrder(c: Config, i: nat, d: nat, row: Signal, changes: Changes)
    ensures (forall env :: Assess(c, i, d, row, changes, env) == Assess(c, i, d, row, map[], env)) <==> "qty" !in changes
  {
    if "qty" in changes {
      var n := if changes["qty"].Number? && changes["qty"].n > 0.0 then changes["qty"].n.Floor + 1 else 1;
      var env := Processing(Some(1.0), FixedQty(n as real), 0.0, 0.0, Refused("refused"), Failed);
      WholeIsKept(n);
      assert OrderQty(c, row.market, map[], env.sizing, 1.0) == Some(n as real);
      assert OrderQty(c, row.market, changes, env.sizing, 1.0) != Some(n as real);
      assert Assess(c, i, d, row, changes, env) != Assess(c, i, d, row, map[], env);
    }
  }

  lemma WholeIsKept(n: nat)
    ensures Truncate(n as real) == n
  {
  }

  /** So when no check sets it, a capped signal is ordered in full. */
  lemma CapsWithoutQtyAreIgnored(c: Config, i: nat, d: nat, row: Signal, risk: Evaluation, env: Processing)
    requires Judge(row.signalType, risk).Some?
    requires forall check :: check in risk.checks ==> "qty" !in ChangesOf(check)
    ensures Assess(c, i, d, row, Judge(row.signalType, risk).value.changes, env) == Assess(c, i, d, row, map[], env)
  {
    UnionKeys(risk.checks, "qty");
    UnionKeys(ExitChecks(risk.checks), "qty");
    forall check ensures check in ExitChecks(risk.checks) ==> check in risk.checks {
      ExitChecksAre(risk.checks, check);
    }
  }

  /** A position-size check approves a value of 1000; the order goes through for 15000. */
  lemma CapIsNotApplied(c: Config)
    ensures var row := Signal(0, "ABC", "equities", "buy", "entry", "strategy", "1h", 0, 0, RiskModified);
            var cap := Check("position_sizing", false, Modify(map["approved_value" := Number(1000.0)]));
            var judged := Judge(row.signalType, Evaluation(true, true, [cap]));
            var env := Processing(Some(100.0), FixedQty(150.0), 0.0, 20000.0, Taken, Done(150.0, 100.0));
            && judged.Some? && judged.value.verdict == Modified
            && "approved_value" in judged.value.changes && judged.value.changes["approved_value"] == Number(1000.0)
            && Assess(c, 0, 0, row, judged.value.changes, env) == Execute(150.0, 1.0, 150.0, 100.0)
  {
    var cap := Check("position_sizing", false, Modify(map["approved_value" := Number(1000.0)]));
    var checks := [cap];
    assert checks[..0] == [] && Union(checks[..0]) == map[];
    assert Union(checks) == map[] + map["approved_value" := Number(1000.0)];
    assert "approved_value" in Union(checks);
    assert Truncate(150.0) == 150;
  }

  /** An order that goes through is for a positive quantity, a buy for no more than the available
    * cash pays with the fee, and, sized by the strategy, for at least one whole share or contract
    * and never more than the sizing asks for. */
  lemma ExecutedOrders(c: Config, i: nat, d: nat, row: Signal, changes: Changes, env: Processing)
    requires Assess(c, i, d, row, changes, env).Execute?
    ensures env.price.Some?
    ensures var t := Assess(c, i, d, row, changes, env);
            && t.requested > 0.0
            && (row.side != "sell" ==> t.requested * env.price.value * t.multiplier + env.estimatedFee <= env.availableCash)
            && ("qty" !in changes ==> t.requested <= SizedQty(c, env.sizing, env.price.value))
            && ("qty" !in changes && (row.market == "equities" || row.market == "options") ==>
                  t.requested.Floor as real == t.requested && t.requested >= 1.0)
  {
    if "qty" !in changes {
      TruncationCuts(SizedQty(c, env.sizing, env.price.value));
    }
  }
}

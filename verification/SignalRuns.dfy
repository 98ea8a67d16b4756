/** Whole runs of the pipeline: how often a signal can change, and how far apart two live signals
  * for the same trade must be. */
module SignalRuns {
  import opened Sums
  import opened Signals

  // ---- Every step moves a signal along the allowed transitions ----

  /** The signal stays, or moves along one allowed transition. */
  predicate Moves(before: Status, after: Status) {
    after == before || after in AllowedFrom(before)
  }

  /** Same signals, each unchanged but for an allowed move; `t` may hold more. */
  ghost predicate Follows(s: State, t: State) {
    && |s.signals| <= |t.signals|
    && forall i :: 0 <= i < |s.signals| ==>
         && Moves(s.signals[i].status, t.signals[i].status)
         && t.signals[i] == s.signals[i].(status := t.signals[i].status)
  }

  /** A turn touches no row but its own, and moves that one along at most one transition. */
  ghost predicate Touches(s: State, t: State, i: nat) {
    && |t.signals| == |s.signals| && Follows(s, t)
    && forall j :: 0 <= j < |s.signals| && j != i ==> t.signals[j] == s.signals[j]
  }

  lemma AdvanceTouches(s: State, t: State, i: nat, status: Status)
    requires t.signals == s.signals && i < |s.signals|
    ensures Touches(s, Advance(t, i, status), i)
  {
  }

  lemma Untouched(s: State, i: nat)
    ensures Touches(s, s, i)
  {
  }

  lemma RiskTurnTouches(s: State, env: nat -> Evaluation, i: nat)
    ensures Touches(s, RiskTurn(env)(s, i), i)
  {
    Untouched(s, i);
    if i < |s.signals| && s.signals[i].status == Pending {
      var judged := Judge(s.signals[i].signalType, env(i));
      assert RiskTurn(env)(s, i) == Evaluate(s, i, env(i));
      if judged.Some? {
        AdvanceTouches(s, s.(decisions := s.decisions + [Decision(i, judged.value)]), i, StatusFor(judged.value.verdict));
      }
    } else {
      assert RiskTurn(env)(s, i) == s;
    }
  }

  lemma CarryTouches(s: State, i: nat, d: nat, ticket: Ticket)
    requires i < |s.signals|
    ensures Touches(s, Carry(s, i, d, ticket), i)
  {
    Untouched(s, i);
  }

  lemma TurnDownTouches(s: State, i: nat, order: Order)
    requires i < |s.signals|
    ensures Touches(s, TurnDown(s, i, order), i)
  {
    AdvanceTouches(s, s.(orders := s.orders + [order]), i, OrderRejected);
  }

  lemma OrderTurnTouches(s: State, c: Config, env: nat -> Processing, i: nat)
    ensures Touches(s, OrderTurn(c, env)(s, i), i)
  {
    Untouched(s, i);
    if i < |s.signals| && Cleared(s.signals[i].status) {
      assert OrderTurn(c, env)(s, i) == Place(s, c, i, env(i));
      TurnDownTouches(s, i, RejectedOrder(i, None, 0.0, 1.0, "no_risk_decision"));
      if HasDecision(s, i) {
        var d := DecisionIndex(s, i);
        CarryTouches(s, i, d, Assess(c, i, d, s.signals[i], s.decisions[d].judgement.changes, env(i)));
      }
    } else {
      assert OrderTurn(c, env)(s, i) == s;
    }
  }

  /** Turns at the first rows have not touched the rest. */
  lemma {:induction false} IterateMoves(s: State, turn: (State, nat) -> State, n: nat)
    requires forall t: State, i: nat :: Touches(t, turn(t, i), i)
    ensures var t := Iterate(s, turn, n);
            && |t.signals| == |s.signals| && Follows(s, t)
            && forall j :: n <= j < |s.signals| ==> t.signals[j] == s.signals[j]
  {
    if n > 0 {
      IterateMoves(s, turn, n - 1);
      var t := Iterate(s, turn, n - 1);
      assert Touches(t, turn(t, n - 1), n - 1);
    }
  }

  lemma RiskSweepMoves(s: State, env: nat -> Evaluation, n: nat)
    ensures var t := RiskSweep(s, env, n);
            && |t.signals| == |s.signals| && Follows(s, t)
            && forall j :: n <= j < |s.signals| ==> t.signals[j] == s.signals[j]
  {
    forall t: State, i: nat ensures Touches(t, RiskTurn(env)(t, i), i) {
      RiskTurnTouches(t, env, i);
    }
    IterateMoves(s, RiskTurn(env), n);
  }

  lemma OrderSweepMoves(s: State, c: Config, env: nat -> Processing, n: nat)
    ensures var t := OrderSweep(s, c, env, n);
            && |t.signals| == |s.signals| && Follows(s, t)
            && forall j :: n <= j < |s.signals| ==> t.signals[j] == s.signals[j]
  {
    forall t: State, i: nat ensures Touches(t, OrderTurn(c, env)(t, i), i) {
      OrderTurnTouches(t, c, env, i);
    }
    IterateMoves(s, OrderTurn(c, env), n);
  }

  lemma StepMoves(s: State, c: Config, a: Action)
    ensures Follows(s, Step(s, c, a))
    ensures !a.CreateSignal? ==> |Step(s, c, a).signals| == |s.signals|
  {
    match a
    case RiskCycle(env) => RiskSweepMoves(s, env, |s.signals|);
    case OrderCycle(env) => OrderSweepMoves(s, c, env, |s.signals|);
    case _ =>
  }

  // ---- Termination ----

  /** How many more times a signal in this status can change. */
  function Rank(status: Status): nat {
    if status == Pending then 2 else if Cleared(status) then 1 else 0
  }

  lemma MovesLowerRank(before: Status, after: Status)
    requires Moves(before, after) && after != before
    ensures Rank(after) < Rank(before)
  {
  }

  function TotalRank(signals: seq<Signal>): nat {
    if signals == [] then 0 else TotalRank(signals[..|signals| - 1]) + Rank(signals[|signals| - 1].status)
  }

  lemma {:induction false} TotalRankFalls(a: seq<Signal>, b: seq<Signal>)
    requires |a| == |b| && forall i :: 0 <= i < |a| ==> Moves(a[i].status, b[i].status)
    ensures TotalRank(b) <= TotalRank(a) <= 2 * |a|
    ensures (exists i :: 0 <= i < |a| && a[i].status != b[i].status) ==> TotalRank(b) < TotalRank(a)
  {
    if a != [] {
      TotalRankFalls(a[..|a| - 1], b[..|b| - 1]);
    }
  }

  predicate Changed(s: State, t: State) {
    exists i :: 0 <= i < |s.signals| && i < |t.signals| && s.signals[i].status != t.signals[i].status
  }

  /** The state after the first `n` actions taken from `s`. */
  function From(s: State, c: Config, actions: seq<Action>): State {
    if actions == [] then s else Step(From(s, c, actions[..|actions| - 1]), c, actions[|actions| - 1])
  }

  /** How many of the actions changed some status. */
  function Busy(s: State, c: Config, actions: seq<Action>): nat {
    if actions == [] then 0
    else
      var before := From(s, c, actions[..|actions| - 1]);
      Busy(s, c, actions[..|actions| - 1]) + if Changed(before, Step(before, c, actions[|actions| - 1])) then 1 else 0
  }

  /** Once no more signals are created, the actors can change something only finitely often, at
    * most twice a signal; after that no schedule has any effect on a status. */
  lemma {:induction false} PipelineTerminates(s: State, c: Config, actions: seq<Action>)
    requires forall k :: 0 <= k < |actions| ==> !actions[k].CreateSignal?
    ensures |From(s, c, actions).signals| == |s.signals|
    ensures Busy(s, c, actions) + TotalRank(From(s, c, actions).signals) <= TotalRank(s.signals) <= 2 * |s.signals|
  {
    if actions == [] {
      TotalRankFalls(s.signals, s.signals);
    } else {
      var last := |actions| - 1;
      PipelineTerminates(s, c, actions[..last]);
      var before := From(s, c, actions[..last]);
      StepMoves(before, c, actions[last]);
      TotalRankFalls(before.signals, Step(before, c, actions[last]).signals);
    }
  }

  /** How many of the actions changed the status of signal `i`. */
  function ChangesTo(s: State, c: Config, actions: seq<Action>, i: nat): nat {
    if actions == [] then 0
    else
      var before := From(s, c, actions[..|actions| - 1]);
      var after := Step(before, c, actions[|actions| - 1]);
      ChangesTo(s, c, actions[..|actions| - 1], i)
      + if i < |before.signals| && i < |after.signals| && before.signals[i].status != after.signals[i].status then 1 else 0
  }

  /** Whatever is created meanwhile, no signal changes its status more than twice, and one that
    * has ended never changes again. */
  lemma {:induction false} SignalsChangeAtMostTwice(s: State, c: Config, actions: seq<Action>, i: nat)
    requires i < |s.signals|
    ensures |From(s, c, actions).signals| >= |s.signals|
    ensures ChangesTo(s, c, actions, i) + Rank(From(s, c, actions).signals[i].status) <= Rank(s.signals[i].status) <= 2
  {
    if actions != [] {
      var last := |actions| - 1;
      SignalsChangeAtMostTwice(s, c, actions[..last], i);
      var before := From(s, c, actions[..last]);
      StepMoves(before, c, actions[last]);
      var after := Step(before, c, actions[last]);
      if before.signals[i].status != after.signals[i].status {
        MovesLowerRank(before.signals[i].status, after.signals[i].status);
      }
    }
  }

  // ---- Deduplication ----

  /** Of two live signals for the same trade, the later one deduplicated, the later was created
    * more than its window less the five seconds a timestamp may lie ahead. */
  ghost predicate Separated(s: State, c: Config) {
    forall i, j :: 0 <= i < j < |s.signals| ==> PairSeparated(s.signals[i], s.signals[j], c)
  }

  predicate PairSeparated(earlier: Signal, later: Signal, c: Config) {
    && SameTrade(earlier, later.strategy, later.symbol, later.side, later.signalType)
    && Live(earlier.status) && Live(later.status) && Deduplicates(c, later.source, later.signalType)
    ==> later.createdAt - earlier.createdAt > Window(c, later.timeframe) - 5 * SECOND
  }

  /** No status returns to a live one. */
  lemma LiveWasLive(before: Status, after: Status)
    requires Moves(before, after) && Live(after)
    ensures Live(before)
  {
  }

  lemma CreateSeparates(s: State, c: Config, r: Request, now: int)
    requires Separated(s, c)
    ensures Separated(Create(s, c, r, now), c)
  {
    var t := Create(s, c, r, now);
    forall i, j | 0 <= i < j < |t.signals| ensures PairSeparated(t.signals[i], t.signals[j], c) {
      if j < |s.signals| {
        assert PairSeparated(s.signals[i], s.signals[j], c);
      } else {
        var earlier := s.signals[i];
        if Deduplicates(c, r.source, r.signalType) && SameTrade(earlier, r.strategy, r.symbol, r.side, r.signalType) && Live(earlier.status) {
          assert earlier.createdAt < r.ts.value - Window(c, r.timeframe);
        }
      }
    }
  }

  lemma FollowingSeparates(s: State, t: State, c: Config)
    requires Separated(s, c) && Follows(s, t) && |t.signals| == |s.signals|
    ensures Separated(t, c)
  {
    forall i, j | 0 <= i < j < |t.signals| ensures PairSeparated(t.signals[i], t.signals[j], c) {
      assert PairSeparated(s.signals[i], s.signals[j], c);
      assert t.signals[i] == s.signals[i].(status := t.signals[i].status);
      assert t.signals[j] == s.signals[j].(status := t.signals[j].status);
      if Live(t.signals[i].status) && Live(t.signals[j].status) {
        LiveWasLive(s.signals[i].status, t.signals[i].status);
        LiveWasLive(s.signals[j].status, t.signals[j].status);
      }
    }
  }

  /** In every reachable state, whatever the clock did. */
  lemma {:induction false} RunsStaySeparated(c: Config, actions: seq<Action>)
    ensures Separated(Run(c, actions), c)
  {
    if actions != [] {
      var last := |actions| - 1;
      RunsStaySeparated(c, actions[..last]);
      var before := Run(c, actions[..last]);
      StepMoves(before, c, actions[last]);
      if actions[last].CreateSignal? {
        CreateSeparates(before, c, actions[last].request, actions[last].at);
      } else {
        FollowingSeparates(before, Step(before, c, actions[last]), c);
      }
    }
  }

  // ---- Expiry and cancelling ----

  /** The sweep expires exactly the pending signals whose time is past, and a strategy's cancel
    * cancels exactly its pending signals; every other row stays as it was. */
  lemma EndsAreExact(s: State, c: Config, now: int, strategy: nat, i: nat)
    requires i < |s.signals|
    ensures var row, after := s.signals[i], Step(s, c, Expire(now));
            |after.signals| == |s.signals|
            && after.signals[i] == if row.status == Pending && row.expiresAt < now then row.(status := Expired) else row
    ensures var row, after := s.signals[i], Step(s, c, StrategyCancel(strategy));
            |after.signals| == |s.signals|
            && after.signals[i] == if row.status == Pending && row.strategy == strategy then row.(status := Canceled) else row
  {
  }

  /** What ends a signal that expired or was canceled. */
  predicate Ends(a: Action, i: nat, row: Signal) {
    if row.status == Expired then a.Expire? && row.expiresAt < a.now
    else (a.UserCancel? && a.signal == i && a.owned) || (a.StrategyCancel? && a.strategy == row.strategy)
  }

  ghost predicate EndedBy(actions: seq<Action>, i: nat, row: Signal) {
    exists k :: 0 <= k < |actions| && Ends(actions[k], i, row)
  }

  lemma StepEnds(s: State, c: Config, a: Action, i: nat)
    requires i < |Step(s, c, a).signals| && Step(s, c, a).signals[i].status in {Expired, Canceled}
    ensures Ends(a, i, Step(s, c, a).signals[i]) || (i < |s.signals| && s.signals[i] == Step(s, c, a).signals[i])
  {
    match a
    case RiskCycle(env) => RiskSweepEnds(s, env, i, |s.signals|);
    case OrderCycle(env) => OrderSweepEnds(s, c, env, i, |s.signals|);
    case _ =>
  }

  /** A turn ends no signal this way. */
  lemma RiskTurnEnds(s: State, env: nat -> Evaluation, i: nat, j: nat)
    requires i < |s.signals| == |RiskTurn(env)(s, j).signals|
    ensures RiskTurn(env)(s, j).signals[i].status in {Expired, Canceled} ==> RiskTurn(env)(s, j).signals[i] == s.signals[i]
  {
    if j < |s.signals| && s.signals[j].status == Pending {
      assert RiskTurn(env)(s, j) == Evaluate(s, j, env(j));
    }
  }

  lemma OrderTurnEnds(s: State, c: Config, env: nat -> Processing, i: nat, j: nat)
    requires i < |s.signals| == |OrderTurn(c, env)(s, j).signals|
    ensures OrderTurn(c, env)(s, j).signals[i].status in {Expired, Canceled} ==> OrderTurn(c, env)(s, j).signals[i] == s.signals[i]
  {
    if j < |s.signals| && Cleared(s.signals[j].status) {
      assert OrderTurn(c, env)(s, j) == Place(s, c, j, env(j));
    }
  }

  lemma {:induction false} RiskSweepEnds(s: State, env: nat -> Evaluation, i: nat, n: nat)
    requires i < |RiskSweep(s, env, n).signals| && RiskSweep(s, env, n).signals[i].status in {Expired, Canceled}
    ensures i < |s.signals| && s.signals[i] == RiskSweep(s, env, n).signals[i]
  {
    if n > 0 {
      var before := RiskSweep(s, env, n - 1);
      assert RiskSweep(s, env, n) == RiskTurn(env)(before, n - 1);
      RiskTurnTouches(before, env, n - 1);
      RiskTurnEnds(before, env, i, n - 1);
      RiskSweepEnds(s, env, i, n - 1);
    }
  }

  lemma {:induction false} OrderSweepEnds(s: State, c: Config, env: nat -> Processing, i: nat, n: nat)
    requires i < |OrderSweep(s, c, env, n).signals| && OrderSweep(s, c, env, n).signals[i].status in {Expired, Canceled}
    ensures i < |s.signals| && s.signals[i] == OrderSweep(s, c, env, n).signals[i]
  {
    if n > 0 {
      var before := OrderSweep(s, c, env, n - 1);
      assert OrderSweep(s, c, env, n) == OrderTurn(c, env)(before, n - 1);
      OrderTurnTouches(before, c, env, n - 1);
      OrderTurnEnds(before, c, env, i, n - 1);
      OrderSweepEnds(s, c, env, i, n - 1);
    }
  }

  /** In every run, a signal that expired did so in an expiry later than its time, and one that was
    * canceled was canceled by its user or with its strategy. */
  lemma {:induction false} EndsHaveCauses(c: Config, actions: seq<Action>, i: nat)
    requires i < |Run(c, actions).signals| && Run(c, actions).signals[i].status in {Expired, Canceled}
    ensures EndedBy(actions, i, Run(c, actions).signals[i])
  {
    if actions != [] {
      var last := |actions| - 1;
      var before := Run(c, actions[..last]);
      StepEnds(before, c, actions[last], i);
      if !Ends(actions[last], i, Run(c, actions).signals[i]) {
        EndsHaveCauses(c, actions[..last], i);
        var k :| 0 <= k < |actions[..last]| && Ends(actions[..last][k], i, before.signals[i]);
        assert Ends(actions[k], i, Run(c, actions).signals[i]);
      }
    }
  }

  // ---- Lifetimes ----

  /** A signal created on a listed timeframe is good for two of its bars below an hour and for one
    * from there on, give or take how far its timestamp may lie from the clock. */
  lemma LifetimeInBars(c: Config, r: Request, now: int)
    requires ValidRequest(r, now) && r.timeframe in {"1m", "5m", "15m", "1h", "4h", "1d"}
    ensures var bars := if TimeframeMinutes(r.timeframe) < 60 then 2 else 1;
            var life := bars * TimeframeMinutes(r.timeframe) * 60 * SECOND;
            life - 300 * SECOND <= NewSignal(c, r, now).expiresAt - NewSignal(c, r, now).createdAt <= life + 5 * SECOND
  {
  }
}

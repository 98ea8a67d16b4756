/** The profit and loss figures a backtest reports. */
module BacktestMetrics {
  import opened Reals
  import opened Sums
  import opened Streaks

  datatype Totals = Totals(grossProfit: real, grossLoss: real, totalPnl: real, winners: nat, losers: nat)

  function Same(x: real): real { x }

  /** What a result adds to the gross profit. */
  function Gain(x: real): real { if x > 0.0 then x else 0.0 }

  /** What it adds to the gross loss: a trade that broke even is a loser that lost nothing. */
  function LossOf(x: real): real { if x > 0.0 then 0.0 else -x }

  /** The figures, each a sum or a count over the trades that have a result. */
  ghost function TotalsOf(pnls: seq<real>): Totals {
    Totals(SumOver(pnls, Gain), SumOver(pnls, LossOf), SumOver(pnls, Same), CountOf(pnls, Win), CountOf(pnls, NotWin))
  }

  /** The figures with one more result. */
  function Tally(t: Totals, x: real): Totals {
    if x > 0.0 then t.(grossProfit := t.grossProfit + x, totalPnl := t.totalPnl + x, winners := t.winners + 1)
    else t.(grossLoss := t.grossLoss - x, totalPnl := t.totalPnl + x, losers := t.losers + 1)
  }

  lemma TotalsAppend(pnls: seq<real>, x: real)
    ensures TotalsOf(pnls + [x]) == Tally(TotalsOf(pnls), x)
  {
    SumAppend(pnls, x, Gain);
    SumAppend(pnls, x, LossOf);
    SumAppend(pnls, x, Same);
    CountOfAppend(pnls, x, Win);
    CountOfAppend(pnls, x, NotWin);
  }

  /** One pass over the closed trades' results; one without a result counts nowhere. */
  method ComputeTotals(pnls: seq<Option<real>>) returns (t: Totals)
    ensures t == TotalsOf(Known(pnls))
  {
    t := Totals(0.0, 0.0, 0.0, 0, 0);
    for n := 0 to |pnls|
      invariant t == TotalsOf(Known(pnls[..n]))
    {
      assert pnls[..n + 1][..n] == pnls[..n];
      if pnls[n].Some? {
        TotalsAppend(Known(pnls[..n]), pnls[n].value);
        t := Tally(t, pnls[n].value);
      }
    }
    assert pnls[..|pnls|] == pnls;
  }

  /** The parts add up: profit less loss is the total, winners and losers are all trades with a
    * result, and each side is positive exactly when some trade is on it. */
  lemma {:induction false} TotalsAddUp(pnls: seq<real>)
    ensures var t := TotalsOf(pnls);
            && t.grossProfit - t.grossLoss == t.totalPnl
            && t.winners + t.losers == |pnls|
            && t.grossProfit >= 0.0 && t.grossLoss >= 0.0
            && (t.grossProfit > 0.0 <==> exists k :: 0 <= k < |pnls| && pnls[k] > 0.0)
            && (t.grossLoss > 0.0 <==> exists k :: 0 <= k < |pnls| && pnls[k] < 0.0)
  {
    if pnls != [] {
      var front, last := pnls[..|pnls| - 1], pnls[|pnls| - 1];
      assert pnls == front + [last];
      TotalsAddUp(front);
      TotalsAppend(front, last);
      assert forall k :: 0 <= k < |front| ==> pnls[k] == front[k];
    }
  }

  /** The profit factor of some results is above one exactly when they made money before fees. */
  lemma ProfitFactorAboveOneIff(pnls: seq<real>)
    ensures var t := TotalsOf(pnls);
            t.grossLoss > 0.0 ==> (t.grossProfit / t.grossLoss > 1.0 <==> t.totalPnl > 0.0)
  {
    TotalsAddUp(pnls);
    var t := TotalsOf(pnls);
    if t.grossLoss > 0.0 {
      RatioAbove(t.grossProfit, t.grossLoss, 1.0);
    }
  }
}

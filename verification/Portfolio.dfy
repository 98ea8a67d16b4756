/** The portfolio services as they run: position objects updated field by field, and tables
  * updated in place. Every method is proved against the book's step functions. */
module Portfolio {
  import opened Sums
  import opened PositionRows
  import opened Book
  import opened BookShape
  import BookCost

  class Position {
    const strategyId: nat
    const symbol: string
    const market: string
    const side: Side
    const multiplier: int
    var qty: real
    var avgEntryPrice: real
    var costBasis: real
    var currentPrice: real
    var marketValue: real
    var unrealizedPnl: real
    var realizedPnl: real
    var totalFees: real
    var totalDividends: real
    var isOpen: bool
    var highestPrice: real
    var lowestPrice: real

    function Row(): PositionRow
      reads this
    {
      PositionRow(strategyId, symbol, market, side, qty, avgEntryPrice, costBasis, currentPrice, marketValue,
                  unrealizedPnl, realizedPnl, totalFees, totalDividends, isOpen, highestPrice, lowestPrice, multiplier)
    }

    constructor Enter(fill: Fill, order: Order)
      ensures Row() == EntryRow(fill, order)
    {
      strategyId, symbol, market := order.strategyId, order.symbol, order.market;
      side := if order.action == Buy then Long else Short;
      multiplier := order.multiplier;
      qty, avgEntryPrice, costBasis := fill.qty, fill.price, fill.netValue;
      currentPrice := fill.price;
      marketValue := fill.qty * fill.price * order.multiplier as real;
      unrealizedPnl, realizedPnl, totalFees, totalDividends := 0.0, 0.0, fill.fee, 0.0;
      isOpen := true;
      highestPrice, lowestPrice := fill.price, fill.price;
    }

    method UpdateUnrealizedPnl()
      modifies this`unrealizedPnl
      ensures unrealizedPnl == Unrealized(side, currentPrice, avgEntryPrice, qty, multiplier)
    {
      if side == Long {
        unrealizedPnl := (currentPrice - avgEntryPrice) * qty * multiplier as real;
      } else {
        unrealizedPnl := (avgEntryPrice - currentPrice) * qty * multiplier as real;
      }
    }

    method ScaleIn(fill: Fill)
      requires qty + fill.qty != 0.0
      modifies this
      ensures Row() == ScaleInRow(old(Row()), fill)
    {
      var oldQty := qty;
      var newQty := oldQty + fill.qty;
      avgEntryPrice := ((oldQty * avgEntryPrice) + (fill.qty * fill.price)) / newQty;
      qty := newQty;
      costBasis := costBasis + fill.netValue;
      totalFees := totalFees + fill.fee;
      marketValue := newQty * currentPrice * multiplier as real;
      UpdateUnrealizedPnl();
    }

    /** Returns the gross profit on the closed part; what stays has cost as much a unit as before. */
    method ScaleOut(fill: Fill) returns (gross: real)
      requires qty != 0.0
      modifies this
      ensures Row() == ScaleOutRow(old(Row()), fill)
      ensures costBasis * old(qty) == old(costBasis) * qty
      ensures gross == GrossPnl(old(Row()), fill.price, fill.qty)
    {
      if side == Long {
        gross := (fill.price - avgEntryPrice) * fill.qty * multiplier as real;
      } else {
        gross := (avgEntryPrice - fill.price) * fill.qty * multiplier as real;
      }
      var net := gross - fill.fee;
      var oldQty := qty;
      var remaining := oldQty - fill.qty;
      costBasis := costBasis * (remaining / oldQty);
      qty := remaining;
      realizedPnl := realizedPnl + net;
      totalFees := totalFees + fill.fee;
      marketValue := remaining * currentPrice * multiplier as real;
      UpdateUnrealizedPnl();
      BookCost.ScaleOutKeepsUnitCost(old(Row()), fill);
    }

    /** Returns the quantity closed, captured before it is zeroed, and its gross profit. */
    method FullExit(fill: Fill) returns (qtyClosed: real, gross: real)
      modifies this
      ensures Row() == FullExitRow(old(Row()), fill)
      ensures qtyClosed == old(qty) && gross == GrossPnl(old(Row()), fill.price, old(qty))
    {
      qtyClosed := qty;
      if side == Long {
        gross := (fill.price - avgEntryPrice) * qty * multiplier as real;
      } else {
        gross := (avgEntryPrice - fill.price) * qty * multiplier as real;
      }
      var net := gross - fill.fee;
      realizedPnl := realizedPnl + net;
      totalFees := totalFees + fill.fee;
      qty := 0.0;
      marketValue := 0.0;
      unrealizedPnl := 0.0;
      isOpen := false;
      currentPrice := fill.price;
    }

    method Mark(price: real)
      modifies this
      ensures Row() == MarkRow(old(Row()), price)
    {
      currentPrice := price;
      marketValue := qty * price * multiplier as real;
      UpdateUnrealizedPnl();
      if price > highestPrice { highestPrice := price; }
      if price < lowestPrice { lowestPrice := price; }
    }

    method Split(ratio: real)
      requires ratio != 0.0
      modifies this
      ensures Row() == SplitRow(old(Row()), ratio)
    {
      qty := qty * ratio;
      avgEntryPrice := avgEntryPrice / ratio;
      highestPrice := highestPrice / ratio;
      lowestPrice := lowestPrice / ratio;
      currentPrice := currentPrice / ratio;
      marketValue := qty * currentPrice * multiplier as real;
    }
  }

  function Rows(positions: seq<Position>): (rows: seq<PositionRow>)
    reads positions
    ensures |rows| == |positions|
    ensures forall i :: 0 <= i < |rows| ==> rows[i] == positions[i].Row()
  {
    seq(|positions|, i requires 0 <= i < |positions| reads positions => positions[i].Row())
  }

  function GotMarked(openMarkets: set<string>, closes: map<string, real>): PositionRow -> bool {
    (row: PositionRow) => Marks(row, openMarkets, closes)
  }

  /** An open position whose market is closed or whose symbol has no price. */
  function GotSkipped(openMarkets: set<string>, closes: map<string, real>): PositionRow -> bool {
    (row: PositionRow) => row.isOpen && !Marks(row, openMarkets, closes)
  }

  lemma {:induction false} CountIsZeroIff(rows: seq<PositionRow>, p: PositionRow -> bool)
    ensures CountOf(rows, p) == 0 <==> forall i :: 0 <= i < |rows| ==> !p(rows[i])
  {
    if rows != [] {
      CountIsZeroIff(rows[..|rows| - 1], p);
    }
  }

  class PortfolioService {
    var positions: seq<Position>
    var cash: seq<CashRow>
    var ledger: seq<LedgerEntry>
    var payments: seq<Payment>
    var peak: Option<real>

    predicate Distinct()
      reads this
    {
      forall i, j :: 0 <= i < j < |positions| ==> positions[i] != positions[j]
    }

    function View(): Book
      reads this, positions
    {
      Book(Rows(positions), cash, ledger, payments, peak)
    }

    constructor ()
      ensures Distinct() && View() == EMPTY
    {
      positions, cash, ledger, payments, peak := [], [], [], [], None;
    }

    method FindOpenPosition(strategyId: nat, symbol: string) returns (i: nat)
      ensures i == FindOpen(Rows(positions), strategyId, symbol)
    {
      i := 0;
      while i < |positions| && !OpenFor(positions[i].Row(), strategyId, symbol)
        invariant i <= |positions|
        invariant forall j :: 0 <= j < i ==> !OpenFor(Rows(positions)[j], strategyId, symbol)
      {
        i := i + 1;
      }
      assert i < |positions| ==> OpenFor(Rows(positions)[i], strategyId, symbol);
    }

    method UpdateBalance(scope: string, delta: real)
      modifies this`cash
      ensures cash == Credit(old(cash), scope, delta)
    {
      var i := 0;
      while i < |cash| && cash[i].scope != scope
        invariant i <= |cash|
        invariant forall j :: 0 <= j < i ==> cash[j].scope != scope
      {
        i := i + 1;
      }
      assert i == FindScope(cash, scope);
      if i == |cash| {
        cash := cash + [CashRow(scope, delta)];
      } else {
        cash := cash[i := cash[i].(balance := cash[i].balance + delta)];
      }
    }

    method RecordClose(i: nat, before: PositionRow, fill: Fill, qtyClosed: real, gross: real)
      modifies this`ledger
      ensures ledger == old(ledger) + [CloseEntry(i, before, fill, qtyClosed, gross)]
    {
      ledger := ledger + [LedgerEntry(i, before.strategyId, before.symbol, before.side, qtyClosed, before.avgEntryPrice,
                                      fill.price, gross, fill.fee, gross - fill.fee)];
    }

    /** The three scenarios of a fill that meets an open position. */
    method UpdatePosition(i: nat, fill: Fill, order: Order)
      requires Distinct() && i < |positions| && positions[i].qty > 0.0 && fill.qty > 0.0
      modifies this`ledger, positions
      ensures View() == MeetFill(old(View()), i, fill, order)
    {
      ghost var before := Rows(positions);
      var position := positions[i];
      var row := position.Row();
      var scenario := ScenarioFor(row, order);
      if scenario == ScaleIn {
        position.ScaleIn(fill);
      } else if scenario == ScaleOut {
        var gross := position.ScaleOut(fill);
        RecordClose(i, row, fill, fill.qty, gross);
      } else {
        var qtyClosed, gross := position.FullExit(fill);
        RecordClose(i, row, fill, qtyClosed, gross);
      }
      assert position.Row() == FilledRow(row, fill, order);
      assert Rows(positions) == before[i := FilledRow(row, fill, order)];
    }

    method OpenPosition(fill: Fill, order: Order)
      requires Distinct()
      modifies this`positions
      ensures Distinct() && fresh(set p | p in positions && p !in old(positions))
      ensures Rows(positions) == old(Rows(positions)) + [EntryRow(fill, order)]
    {
      ghost var before := Rows(positions);
      var position := new Position.Enter(fill, order);
      positions := positions + [position];
      assert Rows(positions) == before + [EntryRow(fill, order)];
    }

    method BookFillOnPosition(fill: Fill, order: Order)
      requires Distinct() && OpenRowsHold(View()) && WellFormedFill(fill, order)
      modifies this`positions, this`ledger, positions
      ensures Distinct() && fresh(set p | p in positions && p !in old(positions))
      ensures View() == BookFill(old(View()), fill, order)
    {
      ghost var before := View();
      var i := FindOpenPosition(order.strategyId, order.symbol);
      if i == |positions| {
        OpenPosition(fill, order);
      } else {
        assert before.positions[i] == positions[i].Row();
        UpdatePosition(i, fill, order);
        assert View() == MeetFill(before, i, fill, order);
      }
    }

    /** Turns a fill into a position update and moves its cash. */
    method ProcessFill(fill: Fill, order: Order)
      requires Distinct() && OpenRowsHold(View()) && WellFormedFill(fill, order)
      modifies this`positions, this`ledger, this`cash, positions
      ensures Distinct() && fresh(set p | p in positions && p !in old(positions))
      ensures View() == ApplyFill(old(View()), fill, order)
    {
      BookFillOnPosition(fill, order);
      AdjustCash(fill, order);
    }

    /** Buys cost the fill's net value and sells bring it in. */
    method AdjustCash(fill: Fill, order: Order)
      modifies this`cash
      ensures View() == old(View()).(cash := Credit(old(cash), FillScope(fill, order), CashDelta(fill, order)))
    {
      var delta := if order.action == Buy then -fill.netValue else fill.netValue;
      UpdateBalance(FillScope(fill, order), delta);
      assert Rows(positions) == old(Rows(positions));
    }

    method GetTotalCash() returns (total: real)
      ensures total == TotalCash(View())
    {
      total := 0.0;
      ghost var balance := (c: CashRow) => c.balance;
      for i := 0 to |cash|
        invariant total == SumOver(cash[..i], balance)
      {
        SumAppend(cash[..i], cash[i], balance);
        assert cash[..i + 1] == cash[..i] + [cash[i]];
        total := total + cash[i].balance;
      }
      assert cash[..|cash|] == cash;
    }

    method GetEquity() returns (equity: real)
      ensures equity == Equity(View())
    {
      equity := GetTotalCash();
      var value := 0.0;
      ghost var rows := Rows(positions);
      for i := 0 to |positions|
        invariant value == SumOver(rows[..i], OpenValue)
      {
        SumAppend(rows[..i], rows[i], OpenValue);
        assert rows[..i + 1] == rows[..i] + [rows[i]];
        if positions[i].isOpen {
          value := value + positions[i].marketValue;
        }
      }
      assert rows[..|positions|] == rows;
      equity := equity + value;
    }

    /** One mark-to-market cycle over the open positions. */
    method RunCycle(openMarkets: set<string>, closes: map<string, real>) returns (updated: nat, skipped: nat)
      requires Distinct()
      modifies this`peak, positions
      ensures View() == ApplyMarks(old(View()), openMarkets, closes)
      ensures updated == CountOf(old(Rows(positions)), GotMarked(openMarkets, closes))
      ensures skipped == CountOf(old(Rows(positions)), GotSkipped(openMarkets, closes))
    {
      CountIsZeroIff(Rows(positions), GotMarked(openMarkets, closes));
      updated, skipped := MarkPositions(openMarkets, closes);
      ghost var marked := old(View()).(positions := Rows(positions));
      assert marked.positions == ApplyMarks(old(View()), openMarkets, closes).positions;
      assert View() == marked;
      if updated > 0 {
        UpdatePeakEquity();
        assert View() == marked.(peak := RaisedPeak(old(peak), Equity(marked)));
      }
    }

    method MarkIfPriced(position: Position, openMarkets: set<string>, closes: map<string, real>) returns (marked: bool, passedOver: bool)
      modifies position
      ensures position.Row() == MarkedRow(old(position.Row()), openMarkets, closes)
      ensures marked <==> GotMarked(openMarkets, closes)(old(position.Row()))
      ensures passedOver <==> GotSkipped(openMarkets, closes)(old(position.Row()))
    {
      marked, passedOver := false, false;
      if position.isOpen {
        if position.market in openMarkets && position.symbol in closes {
          position.Mark(closes[position.symbol]);
          marked := true;
        } else {
          passedOver := true;
        }
      }
    }

    method MarkPositions(openMarkets: set<string>, closes: map<string, real>) returns (updated: nat, skipped: nat)
      requires Distinct()
      modifies positions
      ensures forall j :: 0 <= j < |positions| ==> positions[j].Row() == MarkedRow(old(Rows(positions))[j], openMarkets, closes)
      ensures updated == CountOf(old(Rows(positions)), GotMarked(openMarkets, closes))
      ensures skipped == CountOf(old(Rows(positions)), GotSkipped(openMarkets, closes))
    {
      updated, skipped := 0, 0;
      ghost var before := Rows(positions);
      for i := 0 to |positions|
        invariant forall j :: 0 <= j < i ==> positions[j].Row() == MarkedRow(before[j], openMarkets, closes)
        invariant forall j :: i <= j < |positions| ==> positions[j].Row() == before[j]
        invariant updated == CountOf(before[..i], GotMarked(openMarkets, closes))
        invariant skipped == CountOf(before[..i], GotSkipped(openMarkets, closes))
      {
        CountOfNext(before, i, GotMarked(openMarkets, closes));
        CountOfNext(before, i, GotSkipped(openMarkets, closes));
        assert positions[i].Row() == before[i];
        var marked, passedOver := MarkIfPriced(positions[i], openMarkets, closes);
        if marked {
          updated := updated + 1;
        }
        if passedOver {
          skipped := skipped + 1;
        }
      }
      assert before[..|positions|] == before;
    }

    method UpdatePeakEquity()
      modifies this`peak
      ensures peak == RaisedPeak(old(peak), Equity(old(View())))
    {
      var equity := GetEquity();
      var highest := if peak.Some? then peak.value else equity;
      if equity > highest {
        peak := Some(equity);
      }
    }

    method FindFirstOfSymbol(symbol: string) returns (first: nat)
      ensures first == FirstOfSymbol(Rows(positions), symbol)
    {
      first := 0;
      while first < |positions| && !Splits(positions[first].Row(), symbol)
        invariant first <= |positions|
        invariant forall j :: 0 <= j < first ==> !Splits(Rows(positions)[j], symbol)
      {
        first := first + 1;
      }
      assert first < |positions| ==> Splits(Rows(positions)[first], symbol);
    }

    method AdjustPositions(symbol: string, ratio: real)
      requires Distinct() && ratio != 0.0
      modifies positions
      ensures Rows(positions) == SplitRows(old(Rows(positions)), symbol, ratio)
    {
      ghost var before := Rows(positions);
      for i := 0 to |positions|
        invariant forall j :: 0 <= j < i ==>
          positions[j].Row() == if Splits(before[j], symbol) then SplitRow(before[j], ratio) else before[j]
        invariant forall j :: i <= j < |positions| ==> positions[j].Row() == before[j]
      {
        if positions[i].isOpen && positions[i].symbol == symbol {
          positions[i].Split(ratio);
        }
      }
      assert Rows(positions) == SplitRows(before, symbol, ratio);
    }

    method ZeroQuantity(i: nat)
      requires Distinct() && i < |positions|
      modifies positions
      ensures Rows(positions) == old(Rows(positions))[i := old(Rows(positions))[i].(qty := 0.0)]
    {
      ghost var before := Rows(positions);
      positions[i].qty := 0.0;
      assert Rows(positions) == before[i := before[i].(qty := 0.0)];
    }

    /** One split action; `raised` reports the division by zero the source runs into. */
    method ApplySplitAction(action: SplitAction) returns (raised: bool)
      requires Distinct()
      modifies positions
      ensures View() == ApplySplit(old(View()), action)
      ensures raised <==> SplitRaises(old(View()), action)
    {
      raised := false;
      var first := FindFirstOfSymbol(action.symbol);
      if first == |positions| {
        return;
      }
      match SplitRatio(action) {
        case NoAction =>
        case DivisionByZero =>
          raised := true;
        case ZeroRatio =>
          ZeroQuantity(first);
          raised := true;
        case Ratio(ratio) =>
          AdjustPositions(action.symbol, ratio);
      }
    }

    /** Applies today's split actions in order, up to the first that raises. */
    method ProcessSplits(actions: seq<SplitAction>) returns (raised: bool)
      requires Distinct()
      modifies positions
      ensures View() == ApplySplits(old(View()), actions)
      ensures raised <==> SplitsRaise(old(View()), actions)
    {
      raised := false;
      ghost var wanted := ApplySplits(View(), actions);
      for n := 0 to |actions|
        invariant !raised && ApplySplits(View(), actions[n..]) == wanted
        invariant SplitsRaise(View(), actions[n..]) <==> SplitsRaise(old(View()), actions)
      {
        assert actions[n..][1..] == actions[n + 1..];
        raised := ApplySplitAction(actions[n]);
        if raised {
          return;
        }
      }
    }

    /** Creates pending payments for one announcement, at most one per position. */
    method CreatePayments(a: Announcement)
      modifies this`payments
      ensures payments == PendFrom(Rows(positions), old(payments), a, 0)
    {
      ghost var rows := Rows(positions);
      for i := 0 to |positions|
        invariant Rows(positions) == rows
        invariant PendFrom(rows, payments, a, i) == PendFrom(rows, old(payments), a, 0)
      {
        var row := positions[i].Row();
        assert row == rows[i];
        if row.isOpen && row.symbol == a.symbol && !HasPayment(payments, i, a.id) {
          payments := payments + [PaymentFor(i, row, a)];
        }
      }
    }

    method ProcessExDate(announcements: seq<Announcement>)
      modifies this`payments
      ensures payments == PendAll(Rows(positions), old(payments), announcements)
    {
      ghost var rows := Rows(positions);
      for n := 0 to |announcements|
        invariant Rows(positions) == rows
        invariant PendAll(rows, payments, announcements[n..]) == PendAll(rows, old(payments), announcements)
      {
        assert announcements[n..][1..] == announcements[n + 1..];
        CreatePayments(announcements[n]);
      }
    }

    method AddDividend(i: nat, amount: real)
      requires Distinct() && i < |positions|
      modifies positions
      ensures Rows(positions)
              == old(Rows(positions))[i := old(Rows(positions))[i].(totalDividends := old(Rows(positions))[i].totalDividends + amount)]
    {
      ghost var before := Rows(positions);
      positions[i].totalDividends := positions[i].totalDividends + amount;
      assert Rows(positions) == before[i := before[i].(totalDividends := before[i].totalDividends + amount)];
    }

    /** Cash first, then the position's total, then the payment's status. */
    method PayPayment(k: nat)
      requires Distinct() && k < |payments|
      modifies this`cash, this`payments, positions
      ensures View() == PayOne(old(View()), k)
    {
      var p := payments[k];
      ghost var before := View();
      UpdateBalance("equities", p.netAmount);
      assert Rows(positions) == before.positions;
      if p.positionId < |positions| {
        AddDividend(p.positionId, p.netAmount);
      }
      ghost var rows := Rows(positions);
      assert rows == PayOne(before, k).positions;
      payments := payments[k := p.(paid := true)];
      assert Rows(positions) == rows;
    }

    method ProcessPayableDate(today: int)
      requires Distinct()
      modifies this`cash, this`payments, positions
      ensures View() == PayFrom(old(View()), 0, today)
    {
      ghost var wanted := PayFrom(View(), 0, today);
      for k := 0 to |payments|
        invariant |payments| == |old(payments)|
        invariant PayFrom(View(), k, today) == wanted
      {
        if !payments[k].paid && payments[k].payableDate <= today {
          PayPayment(k);
        }
      }
    }

    method InitializeAccounts(accounts: seq<CashRow>)
      modifies this`cash, this`peak
      ensures View() == InitializeCash(old(View()), accounts)
    {
      for n := 0 to |accounts|
        invariant peak == old(peak)
        invariant OpenAccounts(cash, accounts[n..]) == OpenAccounts(old(cash), accounts)
      {
        var i := 0;
        while i < |cash| && cash[i].scope != accounts[n].scope
          invariant i <= |cash|
          invariant forall j :: 0 <= j < i ==> cash[j].scope != accounts[n].scope
        {
          i := i + 1;
        }
        assert i == FindScope(cash, accounts[n].scope);
        if i == |cash| {
          cash := cash + [accounts[n]];
        }
        assert accounts[n..][1..] == accounts[n + 1..];
      }
      if peak.None? {
        var total := GetTotalCash();
        peak := Some(total);
      }
    }

    method GetDrawdown() returns (percent: real)
      ensures percent == CurrentDrawdown(View()) && percent >= 0.0
      ensures percent > 0.0 <==> peak.Some? && peak.value > 0.0 && Equity(View()) < peak.value
      ensures percent > 100.0 <==> peak.Some? && peak.value > 0.0 && Equity(View()) < 0.0
    {
      DrawdownIffBelowPeak(View());
      var equity := GetEquity();
      var highest := if peak.Some? then peak.value else equity;
      percent := if highest > 0.0 then (highest - equity) / highest * 100.0 else 0.0;
      percent := Max(percent, 0.0);
    }

    method ResetPeakEquity()
      modifies this`peak
      ensures View() == old(View()).(peak := Some(Equity(old(View()))))
    {
      var equity := GetEquity();
      peak := Some(equity);
    }
  }
}

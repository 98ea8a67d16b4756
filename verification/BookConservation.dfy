/** Conservation of money over every run of the portfolio, and the equity identity. */
module BookConservation {
  import opened Reals
  import opened Sums
  import opened PositionRows
  import opened Book

  function Balance(c: CashRow): real { c.balance }

  function Fees(row: PositionRow): real { row.totalFees }

  function Gross(e: LedgerEntry): real { e.grossPnl }

  function PaidAmount(p: Payment): real { if p.paid then p.netAmount else 0.0 }

  function OpenUnrealized(row: PositionRow): real { if row.isOpen then row.unrealizedPnl else 0.0 }

  function ShortValue(row: PositionRow): real {
    if row.isOpen && row.side == Short then row.marketValue else 0.0
  }

  /** Cash that booked profit, fees, dividends and the cost of open positions leave
    * unexplained: the deposits, when no money is created or lost. */
  ghost function Unexplained(b: Book): real {
    SumOver(b.cash, Balance) - SumOver(b.ledger, Gross) + SumOver(b.positions, Fees)
    - SumOver(b.payments, PaidAmount) + SumOver(b.positions, Exposure)
  }

  /** Money put in by an event. */
  function Deposit(b: Book, e: Event): real {
    match e
    case CashInitialized(accounts) => OpeningDeposits(b.cash, accounts)
    case CashAdjusted(_, amount) => amount
    case _ => 0.0
  }

  /** Balances of the accounts that initialisation actually creates. */
  function OpeningDeposits(cash: seq<CashRow>, accounts: seq<CashRow>): real
    decreases |accounts|
  {
    if accounts == [] then 0.0
    else if FindScope(cash, accounts[0].scope) < |cash| then OpeningDeposits(cash, accounts[1..])
    else accounts[0].balance + OpeningDeposits(cash + [accounts[0]], accounts[1..])
  }

  /** Value of the quantity a fill books in its position, at the fill price. */
  function BookedValue(b: Book, fill: Fill, order: Order): real {
    var i := FindOpen(b.positions, order.strategyId, order.symbol);
    if i == |b.positions| then fill.qty * fill.price * order.multiplier as real
    else TradedValue(b.positions[i], fill, order)
  }

  /** Cash a fill moves beyond its fee and the value it books. */
  function Drift(b: Book, e: Event): real {
    match e
    case Filled(fill, order) => FillDrift(fill, order, BookedValue(b, fill, order))
    case _ => 0.0
  }

  function FillDrift(fill: Fill, order: Order, booked: real): real {
    CashDelta(fill, order) + fill.fee + Sign(SideOf(order.action)) * booked
  }

  predicate RowsConsistent(b: Book) {
    forall i :: 0 <= i < |b.positions| ==> Consistent(b.positions[i])
  }

  lemma SumCredit(cash: seq<CashRow>, scope: string, delta: real)
    ensures SumOver(Credit(cash, scope, delta), Balance) == SumOver(cash, Balance) + delta
  {
    var i := FindScope(cash, scope);
    if i < |cash| {
      SumUpdate(cash, i, cash[i].(balance := cash[i].balance + delta), Balance);
    } else {
      SumAppend(cash, CashRow(scope, delta), Balance);
    }
  }

  lemma EntryKeepsRow(fill: Fill, order: Order)
    requires WellFormedFill(fill, order)
    ensures Consistent(EntryRow(fill, order))
    ensures Exposure(EntryRow(fill, order)) == Sign(SideOf(order.action)) * (fill.qty * fill.price * order.multiplier as real)
  {}

  lemma EntryTotals(rows: seq<PositionRow>, fill: Fill, order: Order, value: real)
    requires WellFormedFill(fill, order) && value == fill.qty * fill.price * order.multiplier as real
    ensures SumOver(rows + [EntryRow(fill, order)], Fees) == SumOver(rows, Fees) + fill.fee
    ensures SumOver(rows + [EntryRow(fill, order)], Exposure) == SumOver(rows, Exposure) + Sign(SideOf(order.action)) * value
  {
    EntryKeepsRow(fill, order);
    SumAppend(rows, EntryRow(fill, order), Fees);
    SumAppend(rows, EntryRow(fill, order), Exposure);
  }

  lemma EntryKeepsRows(b: Book, fill: Fill, order: Order)
    requires RowsConsistent(b) && WellFormedFill(fill, order)
    requires FindOpen(b.positions, order.strategyId, order.symbol) == |b.positions|
    ensures RowsConsistent(ApplyFill(b, fill, order))
  {
    EntryKeepsRow(fill, order);
  }

  /** Overwriting one row changes both totals by that row's change. */
  lemma TotalsChange(rows: seq<PositionRow>, i: nat, after: PositionRow, fee: real, delta: real)
    requires i < |rows|
    requires after.totalFees == rows[i].totalFees + fee && Exposure(after) == Exposure(rows[i]) + delta
    ensures SumOver(rows[i := after], Fees) == SumOver(rows, Fees) + fee
    ensures SumOver(rows[i := after], Exposure) == SumOver(rows, Exposure) + delta
  {
    SumUpdate(rows, i, after, Fees);
    SumUpdate(rows, i, after, Exposure);
  }

  /** What a fill adds to the exposure of the row it meets. */
  function ExposureGain(row: PositionRow, fill: Fill, order: Order): real {
    BookedPnl(row, fill, order) + Sign(SideOf(order.action)) * TradedValue(row, fill, order)
  }

  lemma FilledTotals(rows: seq<PositionRow>, i: nat, fill: Fill, order: Order)
    requires i < |rows| && Consistent(rows[i]) && rows[i].isOpen && WellFormedFill(fill, order)
    ensures SumOver(rows[i := FilledRow(rows[i], fill, order)], Fees) == SumOver(rows, Fees) + fill.fee
    ensures SumOver(rows[i := FilledRow(rows[i], fill, order)], Exposure) == SumOver(rows, Exposure) + ExposureGain(rows[i], fill, order)
  {
    FillKeepsRow(rows[i], fill, order);
    TotalsChange(rows, i, FilledRow(rows[i], fill, order), fill.fee, ExposureGain(rows[i], fill, order));
  }

  lemma LedgerGain(b: Book, i: nat, fill: Fill, order: Order)
    requires RowsConsistent(b) && WellFormedFill(fill, order)
    requires i == FindOpen(b.positions, order.strategyId, order.symbol) < |b.positions|
    ensures SumOver(ApplyFill(b, fill, order).ledger, Gross) == SumOver(b.ledger, Gross) + BookedPnl(b.positions[i], fill, order)
  {
    var row := b.positions[i];
    SumAppend(b.ledger, CloseEntry(i, row, fill, ClosedQty(row, fill, order), BookedPnl(row, fill, order)), Gross);
  }

  /** The unexplained cash changes by what its five totals change by. */
  lemma Assemble(b: Book, after: Book, cash: real, gross: real, fee: real, exposure: real)
    requires SumOver(after.cash, Balance) == SumOver(b.cash, Balance) + cash
    requires SumOver(after.ledger, Gross) == SumOver(b.ledger, Gross) + gross
    requires SumOver(after.positions, Fees) == SumOver(b.positions, Fees) + fee
    requires SumOver(after.positions, Exposure) == SumOver(b.positions, Exposure) + exposure
    requires after.payments == b.payments
    ensures Unexplained(after) == Unexplained(b) + cash - gross + fee + exposure
  {}

  lemma EntryStep(b: Book, fill: Fill, order: Order)
    requires RowsConsistent(b) && WellFormedFill(fill, order)
    requires FindOpen(b.positions, order.strategyId, order.symbol) == |b.positions|
    ensures RowsConsistent(ApplyFill(b, fill, order))
    ensures Unexplained(ApplyFill(b, fill, order)) == Unexplained(b) + Drift(b, Filled(fill, order))
  {
    EntryKeepsRows(b, fill, order);
    SumCredit(b.cash, FillScope(fill, order), CashDelta(fill, order));
    var after, value := ApplyFill(b, fill, order), BookedValue(b, fill, order);
    EntryTotals(b.positions, fill, order, value);
    Assemble(b, after, CashDelta(fill, order), 0.0, fill.fee, Sign(SideOf(order.action)) * value);
  }

  lemma FillKeepsRows(b: Book, fill: Fill, order: Order)
    requires RowsConsistent(b) && WellFormedFill(fill, order)
    ensures RowsConsistent(ApplyFill(b, fill, order))
  {
    var i := FindOpen(b.positions, order.strategyId, order.symbol);
    if i == |b.positions| {
      EntryKeepsRow(fill, order);
    } else {
      FillKeepsRow(b.positions[i], fill, order);
    }
  }

  lemma MeetStep(b: Book, i: nat, fill: Fill, order: Order)
    requires RowsConsistent(b) && WellFormedFill(fill, order)
    requires i == FindOpen(b.positions, order.strategyId, order.symbol) < |b.positions|
    ensures Unexplained(ApplyFill(b, fill, order))
            == Unexplained(b) + CashDelta(fill, order) - BookedPnl(b.positions[i], fill, order) + fill.fee
               + ExposureGain(b.positions[i], fill, order)
  {
    SumCredit(b.cash, FillScope(fill, order), CashDelta(fill, order));
    FilledTotals(b.positions, i, fill, order);
    LedgerGain(b, i, fill, order);
    Assemble(b, ApplyFill(b, fill, order), CashDelta(fill, order), BookedPnl(b.positions[i], fill, order), fill.fee,
             ExposureGain(b.positions[i], fill, order));
  }

  lemma FillStep(b: Book, fill: Fill, order: Order)
    requires RowsConsistent(b) && WellFormedFill(fill, order)
    ensures RowsConsistent(ApplyFill(b, fill, order))
    ensures Unexplained(ApplyFill(b, fill, order)) == Unexplained(b) + Drift(b, Filled(fill, order))
  {
    FillKeepsRows(b, fill, order);
    var i := FindOpen(b.positions, order.strategyId, order.symbol);
    if i == |b.positions| {
      EntryStep(b, fill, order);
    } else {
      MeetStep(b, i, fill, order);
    }
  }

  /** Replacing the positions row by row, each keeping its fees and exposure. */
  lemma RowsKeepTotals(before: seq<PositionRow>, after: seq<PositionRow>)
    requires |before| == |after|
    requires forall i :: 0 <= i < |before| ==> after[i].totalFees == before[i].totalFees && Exposure(after[i]) == Exposure(before[i])
    ensures SumOver(after, Fees) == SumOver(before, Fees)
    ensures SumOver(after, Exposure) == SumOver(before, Exposure)
  {
    SumSame(after, Fees, before, Fees);
    SumSame(after, Exposure, before, Exposure);
  }

  lemma MarkKeepsRow(row: PositionRow, openMarkets: set<string>, closes: map<string, real>)
    requires Consistent(row)
    ensures var after := MarkedRow(row, openMarkets, closes);
            Consistent(after) && after.totalFees == row.totalFees && Exposure(after) == Exposure(row)
  {}

  lemma MarkStep(b: Book, openMarkets: set<string>, closes: map<string, real>)
    requires RowsConsistent(b)
    ensures RowsConsistent(ApplyMarks(b, openMarkets, closes))
    ensures Unexplained(ApplyMarks(b, openMarkets, closes)) == Unexplained(b)
  {
    var after := ApplyMarks(b, openMarkets, closes);
    forall i | 0 <= i < |b.positions|
      ensures Consistent(after.positions[i]) && after.positions[i].totalFees == b.positions[i].totalFees
      ensures Exposure(after.positions[i]) == Exposure(b.positions[i])
    {
      MarkKeepsRow(b.positions[i], openMarkets, closes);
    }
    RowsKeepTotals(b.positions, after.positions);
  }

  lemma SplitStep(b: Book, action: SplitAction)
    requires RowsConsistent(b) && Proper(SplitApplied(action))
    ensures RowsConsistent(ApplySplit(b, action))
    ensures Unexplained(ApplySplit(b, action)) == Unexplained(b)
  {
    var after := ApplySplit(b, action).positions;
    forall i | 0 <= i < |b.positions|
      ensures Consistent(after[i]) && after[i].totalFees == b.positions[i].totalFees && Exposure(after[i]) == Exposure(b.positions[i])
    {
      if SplitRatio(action).Ratio? && Splits(b.positions[i], action.symbol) {
        SplitKeepsRow(b.positions[i], SplitRatio(action).ratio);
      }
    }
    RowsKeepTotals(b.positions, after);
  }

  lemma {:induction false} PendFromKeepsPaid(rows: seq<PositionRow>, payments: seq<Payment>, a: Announcement, i: nat)
    requires i <= |rows|
    ensures SumOver(PendFrom(rows, payments, a, i), PaidAmount) == SumOver(payments, PaidAmount)
    decreases |rows| - i
  {
    if i < |rows| {
      if Splits(rows[i], a.symbol) && !HasPayment(payments, i, a.id) {
        SumAppend(payments, PaymentFor(i, rows[i], a), PaidAmount);
        PendFromKeepsPaid(rows, payments + [PaymentFor(i, rows[i], a)], a, i + 1);
      } else {
        PendFromKeepsPaid(rows, payments, a, i + 1);
      }
    }
  }

  lemma {:induction false} PendAllKeepsPaid(rows: seq<PositionRow>, payments: seq<Payment>, announcements: seq<Announcement>)
    ensures SumOver(PendAll(rows, payments, announcements), PaidAmount) == SumOver(payments, PaidAmount)
    decreases |announcements|
  {
    if announcements != [] {
      PendFromKeepsPaid(rows, payments, announcements[0], 0);
      PendAllKeepsPaid(rows, PendFrom(rows, payments, announcements[0], 0), announcements[1..]);
    }
  }

  lemma PayOneStep(b: Book, k: nat)
    requires RowsConsistent(b) && k < |b.payments| && !b.payments[k].paid
    ensures RowsConsistent(PayOne(b, k))
    ensures Unexplained(PayOne(b, k)) == Unexplained(b)
  {
    var p := b.payments[k];
    SumCredit(b.cash, "equities", p.netAmount);
    SumUpdate(b.payments, k, p.(paid := true), PaidAmount);
    var after := PayOne(b, k).positions;
    forall i | 0 <= i < |b.positions|
      ensures Consistent(after[i]) && after[i].totalFees == b.positions[i].totalFees && Exposure(after[i]) == Exposure(b.positions[i])
    {
      assert after[i] == b.positions[i].(totalDividends := after[i].totalDividends);
    }
    RowsKeepTotals(b.positions, after);
  }

  lemma {:induction false} PayStep(b: Book, k: nat, today: int)
    requires RowsConsistent(b) && k <= |b.payments|
    ensures RowsConsistent(PayFrom(b, k, today))
    ensures Unexplained(PayFrom(b, k, today)) == Unexplained(b)
    decreases |b.payments| - k
  {
    if k < |b.payments| {
      if Due(b.payments[k], today) {
        PayOneStep(b, k);
        PayStep(PayOne(b, k), k + 1, today);
      } else {
        PayStep(b, k + 1, today);
      }
    }
  }

  lemma {:induction false} OpenAccountsStep(cash: seq<CashRow>, accounts: seq<CashRow>)
    ensures SumOver(OpenAccounts(cash, accounts), Balance) == SumOver(cash, Balance) + OpeningDeposits(cash, accounts)
    decreases |accounts|
  {
    if accounts != [] {
      if FindScope(cash, accounts[0].scope) == |cash| {
        SumAppend(cash, accounts[0], Balance);
        OpenAccountsStep(cash + [accounts[0]], accounts[1..]);
      } else {
        OpenAccountsStep(cash, accounts[1..]);
      }
    }
  }

  /** One event changes the unexplained cash by its deposit and its drift, and by nothing else. */
  lemma StepConserves(b: Book, e: Event)
    requires RowsConsistent(b) && Proper(e)
    ensures OpenRowsHold(b)
    ensures RowsConsistent(Step(b, e))
    ensures Unexplained(Step(b, e)) == Unexplained(b) + Deposit(b, e) + Drift(b, e)
  {
    match e
    case Filled(fill, order) => FillStep(b, fill, order);
    case Marked(openMarkets, closes) => MarkStep(b, openMarkets, closes);
    case SplitApplied(action) => SplitStep(b, action);
    case ExDate(announcements) => PendAllKeepsPaid(b.positions, b.payments, announcements);
    case PayableDate(today) => PayStep(b, 0, today);
    case CashInitialized(accounts) => OpenAccountsStep(b.cash, accounts);
    case CashAdjusted(scope, amount) => SumCredit(b.cash, scope, amount);
    case PeakReset =>
  }

  // ---- Runs ----

  predicate AllProper(events: seq<Event>) {
    forall k :: 0 <= k < |events| ==> Proper(events[k])
  }

  /** The book after a run; every prefix of a proper run keeps the rows consistent. */
  ghost function Run(b: Book, events: seq<Event>): (r: Book)
    requires RowsConsistent(b) && AllProper(events)
    ensures RowsConsistent(r)
    decreases |events|
  {
    if events == [] then b
    else
      StepConserves(b, events[0]);
      Run(Step(b, events[0]), events[1..])
  }

  ghost function Deposits(b: Book, events: seq<Event>): real
    requires RowsConsistent(b) && AllProper(events)
    decreases |events|
  {
    if events == [] then 0.0
    else
      StepConserves(b, events[0]);
      Deposit(b, events[0]) + Deposits(Step(b, events[0]), events[1..])
  }

  ghost function TotalDrift(b: Book, events: seq<Event>): real
    requires RowsConsistent(b) && AllProper(events)
    decreases |events|
  {
    if events == [] then 0.0
    else
      StepConserves(b, events[0]);
      Drift(b, events[0]) + TotalDrift(Step(b, events[0]), events[1..])
  }

  lemma {:induction false} RunAccounts(b: Book, events: seq<Event>)
    requires RowsConsistent(b) && AllProper(events)
    ensures Unexplained(Run(b, events)) == Unexplained(b) + Deposits(b, events) + TotalDrift(b, events)
    decreases |events|
  {
    if events != [] {
      StepConserves(b, events[0]);
      RunAccounts(Step(b, events[0]), events[1..]);
    }
  }

  /** Book conservation, for every run from the empty book, the drift included exactly. */
  lemma BookConservation(events: seq<Event>)
    requires AllProper(events)
    ensures var b := Run(EMPTY, events);
            SumOver(b.cash, Balance)
            == Deposits(EMPTY, events) + TotalDrift(EMPTY, events)
               + SumOver(b.ledger, Gross) - SumOver(b.positions, Fees)
               + SumOver(b.payments, PaidAmount) - SumOver(b.positions, Exposure)
  {
    RunAccounts(EMPTY, events);
  }

  /** A fill moves exactly the quantity its position books, in the position's multiplier. */
  predicate BooksWhatItFills(b: Book, fill: Fill, order: Order) {
    var i := FindOpen(b.positions, order.strategyId, order.symbol);
    i == |b.positions|
    || BookedQty(b.positions[i], fill, order) * b.positions[i].multiplier as real == fill.qty * order.multiplier as real
  }

  lemma EngineDrift(fill: Fill, order: Order, value: real, booked: real)
    requires EngineFill(fill, order) && fill.price > 0.0 && value == booked * fill.price
    ensures FillDrift(fill, order, value) == 0.0
            <==> booked == fill.qty * order.multiplier as real
  {
    var traded := fill.qty * order.multiplier as real;
    assert fill.qty * fill.price * order.multiplier as real == traded * fill.price;
    assert value - traded * fill.price == (booked - traded) * fill.price;
    assert (booked - traded) * fill.price == 0.0 <==> booked == traded;
  }

  lemma EntryDrift(fill: Fill, order: Order)
    requires EngineFill(fill, order)
    ensures FillDrift(fill, order, fill.qty * fill.price * order.multiplier as real) == 0.0
  {}

  lemma MeetDrift(row: PositionRow, fill: Fill, order: Order)
    requires EngineFill(fill, order) && fill.price > 0.0
    ensures FillDrift(fill, order, TradedValue(row, fill, order)) == 0.0
            <==> BookedQty(row, fill, order) * row.multiplier as real == fill.qty * order.multiplier as real
  {
    var q, m := BookedQty(row, fill, order), row.multiplier as real;
    assert q * fill.price * m == (q * m) * fill.price;
    EngineDrift(fill, order, TradedValue(row, fill, order), q * m);
  }

  lemma DriftIff(b: Book, fill: Fill, order: Order)
    requires RowsConsistent(b) && WellFormedFill(fill, order) && EngineFill(fill, order)
    ensures Drift(b, Filled(fill, order)) == 0.0 <==> BooksWhatItFills(b, fill, order)
  {
    var i := FindOpen(b.positions, order.strategyId, order.symbol);
    DriftIsFillDrift(b, fill, order);
    if i < |b.positions| {
      MeetDrift(b.positions[i], fill, order);
    } else {
      EntryDrift(fill, order);
    }
  }

  lemma DriftIsFillDrift(b: Book, fill: Fill, order: Order)
    ensures var i := FindOpen(b.positions, order.strategyId, order.symbol);
            Drift(b, Filled(fill, order))
            == FillDrift(fill, order, if i == |b.positions| then fill.qty * fill.price * order.multiplier as real
                                      else TradedValue(b.positions[i], fill, order))
  {
  }

  /** For fills the engine produces, money is conserved exactly when the position books what
    * the fill trades. */
  lemma FillConservesIff(b: Book, fill: Fill, order: Order)
    requires RowsConsistent(b) && WellFormedFill(fill, order) && EngineFill(fill, order)
    ensures Unexplained(ApplyFill(b, fill, order)) == Unexplained(b) <==> BooksWhatItFills(b, fill, order)
  {
    FillStep(b, fill, order);
    DriftIff(b, fill, order);
  }

  /** With one multiplier per position, that condition is: an opposing fill is no larger than
    * the position. */
  lemma OverfillIsTheOnlyDrift(row: PositionRow, fill: Fill, order: Order)
    requires Consistent(row) && row.isOpen && WellFormedFill(fill, order)
    requires row.multiplier == order.multiplier && row.multiplier > 0
    ensures BookedQty(row, fill, order) * row.multiplier as real == fill.qty * order.multiplier as real
            <==> (row.side != SideOf(order.action) ==> fill.qty <= row.qty)
  {
    var m := row.multiplier as real;
    var q := BookedQty(row, fill, order);
    assert q * m == fill.qty * m <==> (q - fill.qty) * m == 0.0;
  }

  /** Every fill of the run comes from the engine and books what it trades. */
  ghost predicate Faithful(b: Book, events: seq<Event>)
    requires RowsConsistent(b) && AllProper(events)
    decreases |events|
  {
    events == []
    || (&& (events[0].Filled? ==> EngineFill(events[0].fill, events[0].order) && BooksWhatItFills(b, events[0].fill, events[0].order))
        && (StepConserves(b, events[0]); Faithful(Step(b, events[0]), events[1..])))
  }

  lemma {:induction false} FaithfulRunsDoNotDrift(b: Book, events: seq<Event>)
    requires RowsConsistent(b) && AllProper(events) && Faithful(b, events)
    ensures TotalDrift(b, events) == 0.0
    decreases |events|
  {
    if events != [] {
      StepConserves(b, events[0]);
      if events[0].Filled? {
        FillConservesIff(b, events[0].fill, events[0].order);
      }
      FaithfulRunsDoNotDrift(Step(b, events[0]), events[1..]);
    }
  }

  // ---- Equity ----

  /** Value of one open position, as cost, unrealised profit and, for shorts, twice the
    * market value that the unsigned sum counts the wrong way. */
  lemma ValueSplits(row: PositionRow)
    requires Consistent(row)
    ensures OpenValue(row) == Exposure(row) + OpenUnrealized(row) + 2.0 * ShortValue(row)
  {
  }

  lemma {:induction false} ValuesSplit(rows: seq<PositionRow>)
    requires forall i :: 0 <= i < |rows| ==> Consistent(rows[i])
    ensures SumOver(rows, OpenValue)
            == SumOver(rows, Exposure) + SumOver(rows, OpenUnrealized) + 2.0 * SumOver(rows, ShortValue)
  {
    if rows != [] {
      ValueSplits(rows[0]);
      ValuesSplit(rows[1..]);
    }
  }

  /** The equity identity, in every reachable book. */
  lemma EquityIdentity(events: seq<Event>)
    requires AllProper(events)
    ensures var b := Run(EMPTY, events);
            Equity(b) == Deposits(EMPTY, events) + TotalDrift(EMPTY, events)
                         + SumOver(b.ledger, Gross) - SumOver(b.positions, Fees)
                         + SumOver(b.payments, PaidAmount) + SumOver(b.positions, OpenUnrealized)
                         + 2.0 * SumOver(b.positions, ShortValue)
  {
    BookConservation(events);
    var b := Run(EMPTY, events);
    ValuesSplit(b.positions);
    SumSame(b.cash, (c: CashRow) => c.balance, b.cash, Balance);
  }

  /** The extra term is the book's short side: it is absent exactly when no open position is
    * short, given positive prices and multipliers. */
  lemma {:induction false} ShortTermVanishesIff(rows: seq<PositionRow>)
    requires forall i :: 0 <= i < |rows| ==> Consistent(rows[i]) && rows[i].currentPrice > 0.0 && rows[i].multiplier > 0
    ensures SumOver(rows, ShortValue) >= 0.0
    ensures SumOver(rows, ShortValue) == 0.0 <==> (forall i :: 0 <= i < |rows| && rows[i].isOpen ==> rows[i].side == Long)
  {
    if rows != [] {
      ShortTermVanishesIff(rows[1..]);
      assert rows[0].isOpen ==> rows[0].marketValue > 0.0;
      assert forall i :: 0 < i < |rows| ==> rows[i] == rows[1..][i - 1];
    }
  }

  // ---- Runs without drift ----

  /** A fill from the engine that meets a position in its own multiplier, and does not exceed it
    * when it goes against it. */
  predicate Fair(b: Book, fill: Fill, order: Order) {
    var i := FindOpen(b.positions, order.strategyId, order.symbol);
    EngineFill(fill, order) &&
    (i < |b.positions| ==>
       && b.positions[i].multiplier == order.multiplier > 0
       && (b.positions[i].side != SideOf(order.action) ==> fill.qty <= b.positions[i].qty))
  }

  lemma FairFillsBook(b: Book, fill: Fill, order: Order)
    requires RowsConsistent(b) && WellFormedFill(fill, order) && Fair(b, fill, order)
    ensures BooksWhatItFills(b, fill, order)
  {
    var i := FindOpen(b.positions, order.strategyId, order.symbol);
    if i < |b.positions| {
      OverfillIsTheOnlyDrift(b.positions[i], fill, order);
    }
  }

  ghost predicate AllFair(b: Book, events: seq<Event>)
    requires RowsConsistent(b) && AllProper(events)
    decreases |events|
  {
    events == []
    || (&& (events[0].Filled? ==> Fair(b, events[0].fill, events[0].order))
        && (StepConserves(b, events[0]); AllFair(Step(b, events[0]), events[1..])))
  }

  lemma {:induction false} FairRunsAreFaithful(b: Book, events: seq<Event>)
    requires RowsConsistent(b) && AllProper(events) && AllFair(b, events)
    ensures Faithful(b, events)
    decreases |events|
  {
    if events != [] {
      StepConserves(b, events[0]);
      if events[0].Filled? {
        FairFillsBook(b, events[0].fill, events[0].order);
      }
      FairRunsAreFaithful(Step(b, events[0]), events[1..]);
    }
  }

  /** With every fill fair, cash and equity are exactly what the deposits, the ledger, the fees, the
    * dividends and the open positions say. */
  lemma FairBooksBalance(events: seq<Event>)
    requires AllProper(events) && AllFair(EMPTY, events)
    ensures var b := Run(EMPTY, events);
            var earned := Deposits(EMPTY, events) + SumOver(b.ledger, Gross) - SumOver(b.positions, Fees) + SumOver(b.payments, PaidAmount);
            && SumOver(b.cash, Balance) == earned - SumOver(b.positions, Exposure)
            && Equity(b) == earned + SumOver(b.positions, OpenUnrealized) + 2.0 * SumOver(b.positions, ShortValue)
  {
    FairRunsAreFaithful(EMPTY, events);
    FaithfulRunsDoNotDrift(EMPTY, events);
    BookConservation(events);
    EquityIdentity(events);
  }

  // ---- Runs that drift ----

  /** A share order as the engine fills it, without a fee. */
  function Traded(action: Action, qty: real, price: real): Event {
    Filled(Fill(qty, price, 0.0, qty * price, ""), Order(0, "ABC", "equities", action, qty, qty, 1))
  }

  lemma TradedIsProper(action: Action, qty: real, price: real)
    requires qty > 0.0 && price > 0.0
    ensures Proper(Traded(action, qty, price)) && EngineFill(Traded(action, qty, price).fill, Traded(action, qty, price).order)
  {
    assert qty * price * 1 as real == qty * price;
  }

  /** The book after a first purchase. */
  lemma FirstPurchase(qty: real, price: real)
    requires qty > 0.0 && price > 0.0
    ensures Drift(EMPTY, Traded(Buy, qty, price)) == 0.0
    ensures var b := Step(EMPTY, Traded(Buy, qty, price));
            && b.positions == [EntryRow(Traded(Buy, qty, price).fill, Traded(Buy, qty, price).order)]
            && FindOpen(b.positions, 0, "ABC") == 0
  {
    var e := Traded(Buy, qty, price);
    TradedIsProper(Buy, qty, price);
    assert FindOpen(EMPTY.positions, 0, "ABC") == 0;
    EntryDrift(e.fill, e.order);
    assert EMPTY.positions + [EntryRow(e.fill, e.order)] == [EntryRow(e.fill, e.order)];
  }

  lemma SaleDrifts(qty: real, extra: real, price: real)
    requires qty > 0.0 && extra > 0.0 && price > 0.0
    ensures Drift(Step(EMPTY, Traded(Buy, qty, price)), Traded(Sell, qty + extra, price)) == extra * price
  {
    FirstPurchase(qty, price);
    var row := EntryRow(Traded(Buy, qty, price).fill, Traded(Buy, qty, price).order);
    var e := Traded(Sell, qty + extra, price);
    assert BookedQty(row, e.fill, e.order) == qty;
    assert (qty + extra) * price == qty * price + extra * price;
  }

  lemma DriftOfTwo(b: Book, first: Event, second: Event)
    requires RowsConsistent(b) && AllProper([first, second])
    ensures Proper(first) && OpenRowsHold(b)
    ensures TotalDrift(b, [first, second]) == Drift(b, first) + Drift(Step(b, first), second)
  {
    assert [first, second][0] == first && [first, second][1..] == [second];
    assert [second][0] == second && [second][1..] == [];
    StepConserves(b, first);
    StepConserves(Step(b, first), second);
    assert TotalDrift(Step(Step(b, first), second), []) == 0.0;
    assert TotalDrift(Step(b, first), [second]) == Drift(Step(b, first), second);
  }

  /** Buying some shares and selling more at the same price, both as the engine prices them, leaves
    * the value of the excess in cash that nothing in the books explains. */
  lemma OverfillDrifts(qty: real, extra: real, price: real)
    requires qty > 0.0 && extra > 0.0 && price > 0.0
    ensures AllProper([Traded(Buy, qty, price), Traded(Sell, qty + extra, price)])
    ensures TotalDrift(EMPTY, [Traded(Buy, qty, price), Traded(Sell, qty + extra, price)]) == extra * price > 0.0
  {
    TradedIsProper(Buy, qty, price);
    TradedIsProper(Sell, qty + extra, price);
    FirstPurchase(qty, price);
    SaleDrifts(qty, extra, price);
    DriftOfTwo(EMPTY, Traded(Buy, qty, price), Traded(Sell, qty + extra, price));
    ProductPositive(extra, price);
  }
}

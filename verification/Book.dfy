/** One user's portfolio tables, and the step each service call takes on them. */
module Book {
  import opened Reals
  import opened Sums
  import opened PositionRows

  datatype CashRow = CashRow(scope: string, balance: real)

  /** A position's id is its index in the positions table, which only ever grows. */
  datatype LedgerEntry = LedgerEntry(
    positionId: nat,
    strategyId: nat,
    symbol: string,
    side: Side,
    qtyClosed: real,
    entryPrice: real,
    exitPrice: real,
    grossPnl: real,
    fees: real,
    netPnl: real)

  datatype Announcement = Announcement(id: nat, symbol: string, cashAmount: real, payableDate: int)

  datatype Payment = Payment(
    positionId: nat,
    announcementId: nat,
    symbol: string,
    payableDate: int,
    sharesHeld: real,
    netAmount: real,
    paid: bool)

  datatype SplitAction = SplitAction(symbol: string, forward: bool, stockRate: real)

  datatype Book = Book(
    positions: seq<PositionRow>,
    cash: seq<CashRow>,
    ledger: seq<LedgerEntry>,
    payments: seq<Payment>,
    peak: Option<real>)

  /** One committed service call. */
  datatype Event =
    | Filled(fill: Fill, order: Order)
    | Marked(openMarkets: set<string>, closes: map<string, real>)
    | SplitApplied(action: SplitAction)
    | ExDate(announcements: seq<Announcement>)
    | PayableDate(today: int)
    | CashInitialized(accounts: seq<CashRow>)
    | CashAdjusted(scope: string, amount: real)
    | PeakReset

  const EMPTY := Book([], [], [], [], None)

  // ---- Fills ----

  predicate OpenFor(row: PositionRow, strategyId: nat, symbol: string) {
    row.isOpen && row.strategyId == strategyId && row.symbol == symbol
  }

  /** Index of the first open position for the key, or the table's length. */
  function FindOpen(rows: seq<PositionRow>, strategyId: nat, symbol: string): (i: nat)
    ensures i <= |rows|
    ensures i < |rows| ==> OpenFor(rows[i], strategyId, symbol)
    ensures forall j :: 0 <= j < i ==> !OpenFor(rows[j], strategyId, symbol)
  {
    First(rows, (row: PositionRow) => OpenFor(row, strategyId, symbol), 0)
  }

  /** Index of the account's cash row, or the table's length. */
  function FindScope(cash: seq<CashRow>, scope: string): (i: nat)
    ensures i <= |cash|
    ensures i < |cash| ==> cash[i].scope == scope
    ensures forall j :: 0 <= j < i ==> cash[j].scope != scope
  {
    First(cash, (c: CashRow) => c.scope == scope, 0)
  }

  /** Adjusts one account, creating it when missing. */
  function Credit(cash: seq<CashRow>, scope: string, delta: real): seq<CashRow> {
    var i := FindScope(cash, scope);
    if i < |cash| then cash[i := cash[i].(balance := cash[i].balance + delta)]
    else cash + [CashRow(scope, delta)]
  }

  function FillScope(fill: Fill, order: Order): string {
    if fill.brokerAccount != "" && order.market == "forex" then fill.brokerAccount else "equities"
  }

  function CashDelta(fill: Fill, order: Order): real {
    if order.action == Buy then -fill.netValue else fill.netValue
  }

  function CloseEntry(id: nat, row: PositionRow, fill: Fill, qtyClosed: real, gross: real): LedgerEntry {
    LedgerEntry(id, row.strategyId, row.symbol, row.side, qtyClosed, row.avgEntryPrice, fill.price,
                gross, fill.fee, gross - fill.fee)
  }

  /** A fill that meets the open position `i`. */
  function MeetFill(b: Book, i: nat, fill: Fill, order: Order): Book
    requires i < |b.positions| && b.positions[i].qty > 0.0 && fill.qty > 0.0
  {
    var row := b.positions[i];
    b.(positions := b.positions[i := FilledRow(row, fill, order)],
       ledger := if ScenarioFor(row, order) == ScaleIn then b.ledger
                 else b.ledger + [CloseEntry(i, row, fill, ClosedQty(row, fill, order), BookedPnl(row, fill, order))])
  }

  /** The position and ledger side of a fill. */
  function BookFill(b: Book, fill: Fill, order: Order): Book
    requires WellFormedFill(fill, order) && OpenRowsHold(b)
  {
    var i := FindOpen(b.positions, order.strategyId, order.symbol);
    if i == |b.positions| then b.(positions := b.positions + [EntryRow(fill, order)]) else MeetFill(b, i, fill, order)
  }

  function ApplyFill(b: Book, fill: Fill, order: Order): Book
    requires WellFormedFill(fill, order) && OpenRowsHold(b)
  {
    BookFill(b, fill, order).(cash := Credit(b.cash, FillScope(fill, order), CashDelta(fill, order)))
  }

  // ---- Marks ----

  predicate Marks(row: PositionRow, openMarkets: set<string>, closes: map<string, real>) {
    row.isOpen && row.market in openMarkets && row.symbol in closes
  }

  function MarkedRow(row: PositionRow, openMarkets: set<string>, closes: map<string, real>): PositionRow {
    if Marks(row, openMarkets, closes) then MarkRow(row, closes[row.symbol]) else row
  }

  ghost function TotalCash(b: Book): real {
    SumOver(b.cash, (c: CashRow) => c.balance)
  }

  function OpenValue(row: PositionRow): real {
    if row.isOpen then row.marketValue else 0.0
  }

  /** Total cash plus the market value of the open positions. */
  ghost function Equity(b: Book): real {
    TotalCash(b) + SumOver(b.positions, OpenValue)
  }

  /** The drawdown reported to the risk engine: from the stored peak, or from the current equity
    * when no peak is stored. */
  ghost function CurrentDrawdown(b: Book): real {
    var equity := Equity(b);
    var peak := if b.peak.Some? then b.peak.value else equity;
    if peak > 0.0 then Max((peak - equity) / peak * 100.0, 0.0) else 0.0
  }

  /** The stored peak is raised to a new high; a missing peak reads as the current equity,
    * which is never above itself, so nothing is stored for it. */
  function RaisedPeak(peak: Option<real>, equity: real): Option<real> {
    if peak.Some? && equity > peak.value then Some(equity) else peak
  }

  ghost function ApplyMarks(b: Book, openMarkets: set<string>, closes: map<string, real>): Book {
    var marked := b.(positions := seq(|b.positions|, i requires 0 <= i < |b.positions| => MarkedRow(b.positions[i], openMarkets, closes)));
    if exists i :: 0 <= i < |b.positions| && Marks(b.positions[i], openMarkets, closes)
    then marked.(peak := RaisedPeak(b.peak, Equity(marked)))
    else marked
  }

  // ---- Splits ----

  datatype RatioResult = NoAction | Ratio(ratio: real) | ZeroRatio | DivisionByZero

  /** The ratio the split processor derives: both rates are truncated to integers. */
  function SplitRatio(action: SplitAction): (r: RatioResult)
    ensures r.Ratio? ==> r.ratio != 0.0
  {
    if action.stockRate == 0.0 then NoAction
    else if action.forward then
      var newRate := Truncate(action.stockRate);
      if newRate == 0 then ZeroRatio else Ratio(newRate as real)
    else
      var oldRate := Truncate(1.0 / action.stockRate);
      if oldRate == 0 then DivisionByZero else Ratio(1.0 / oldRate as real)
  }

  predicate Splits(row: PositionRow, symbol: string) {
    row.isOpen && row.symbol == symbol
  }

  function SplitRows(rows: seq<PositionRow>, symbol: string, ratio: real): seq<PositionRow>
    requires ratio != 0.0
  {
    seq(|rows|, i requires 0 <= i < |rows| => if Splits(rows[i], symbol) then SplitRow(rows[i], ratio) else rows[i])
  }

  function FirstOfSymbol(rows: seq<PositionRow>, symbol: string): (i: nat)
    ensures i <= |rows|
    ensures i < |rows| ==> Splits(rows[i], symbol)
    ensures forall j :: 0 <= j < i ==> !Splits(rows[j], symbol)
  {
    First(rows, (row: PositionRow) => Splits(row, symbol), 0)
  }

  /** A zero ratio has already overwritten the first position's quantity when the division of
    * its price raises; a zero divisor raises before anything is written. */
  function ApplySplit(b: Book, action: SplitAction): Book {
    var first := FirstOfSymbol(b.positions, action.symbol);
    if first == |b.positions| then b
    else match SplitRatio(action)
         case Ratio(r) => b.(positions := SplitRows(b.positions, action.symbol, r))
         case ZeroRatio => b.(positions := b.positions[first := b.positions[first].(qty := 0.0)])
         case _ => b
  }

  /** The action ends in an exception, which abandons the remaining actions. */
  predicate SplitRaises(b: Book, action: SplitAction) {
    FirstOfSymbol(b.positions, action.symbol) < |b.positions|
    && (SplitRatio(action).ZeroRatio? || SplitRatio(action).DivisionByZero?)
  }

  function ApplySplits(b: Book, actions: seq<SplitAction>): Book
    decreases |actions|
  {
    if actions == [] then b
    else if SplitRaises(b, actions[0]) then ApplySplit(b, actions[0])
    else ApplySplits(ApplySplit(b, actions[0]), actions[1..])
  }

  /** Some action is reached and raises. */
  predicate SplitsRaise(b: Book, actions: seq<SplitAction>)
    decreases |actions|
  {
    actions != [] && (SplitRaises(b, actions[0]) || SplitsRaise(ApplySplit(b, actions[0]), actions[1..]))
  }

  // ---- Dividends ----

  predicate HasPayment(payments: seq<Payment>, positionId: nat, announcementId: nat) {
    exists k :: 0 <= k < |payments| && payments[k].positionId == positionId && payments[k].announcementId == announcementId
  }

  function PaymentFor(id: nat, row: PositionRow, a: Announcement): Payment {
    Payment(id, a.id, a.symbol, a.payableDate, row.qty, row.qty * a.cashAmount, false)
  }

  /** Pending payments for one announcement, for the positions from index `i` on. */
  function PendFrom(rows: seq<PositionRow>, payments: seq<Payment>, a: Announcement, i: nat): seq<Payment>
    requires i <= |rows|
    decreases |rows| - i
  {
    if i == |rows| then payments
    else if Splits(rows[i], a.symbol) && !HasPayment(payments, i, a.id)
    then PendFrom(rows, payments + [PaymentFor(i, rows[i], a)], a, i + 1)
    else PendFrom(rows, payments, a, i + 1)
  }

  function PendAll(rows: seq<PositionRow>, payments: seq<Payment>, announcements: seq<Announcement>): seq<Payment>
    decreases |announcements|
  {
    if announcements == [] then payments
    else PendAll(rows, PendFrom(rows, payments, announcements[0], 0), announcements[1..])
  }

  predicate Due(p: Payment, today: int) {
    !p.paid && p.payableDate <= today
  }

  /** Credits one payment to cash and to its position. */
  function PayOne(b: Book, k: nat): Book
    requires k < |b.payments|
  {
    var p := b.payments[k];
    b.(cash := Credit(b.cash, "equities", p.netAmount),
       payments := b.payments[k := p.(paid := true)],
       positions := if p.positionId < |b.positions|
                    then b.positions[p.positionId := b.positions[p.positionId].(totalDividends := b.positions[p.positionId].totalDividends + p.netAmount)]
                    else b.positions)
  }

  function PayFrom(b: Book, k: nat, today: int): Book
    requires k <= |b.payments|
    decreases |b.payments| - k
  {
    if k == |b.payments| then b
    else if Due(b.payments[k], today) then PayFrom(PayOne(b, k), k + 1, today)
    else PayFrom(b, k + 1, today)
  }

  // ---- Cash ----

  function OpenAccounts(cash: seq<CashRow>, accounts: seq<CashRow>): seq<CashRow>
    decreases |accounts|
  {
    if accounts == [] then cash
    else if FindScope(cash, accounts[0].scope) < |cash| then OpenAccounts(cash, accounts[1..])
    else OpenAccounts(cash + [accounts[0]], accounts[1..])
  }

  ghost function InitializeCash(b: Book, accounts: seq<CashRow>): Book {
    var funded := b.(cash := OpenAccounts(b.cash, accounts));
    if b.peak.None? then funded.(peak := Some(TotalCash(funded))) else funded
  }

  // ---- Steps and runs ----

  /** The events the conservation laws speak of: well-formed fills, and splits whose derived
    * ratio is positive. */
  predicate Proper(e: Event) {
    match e
    case Filled(fill, order) => WellFormedFill(fill, order)
    case SplitApplied(action) =>
      var r := SplitRatio(action);
      r.NoAction? || (r.Ratio? && r.ratio > 0.0)
    case _ => true
  }

  predicate OpenRowsHold(b: Book) {
    forall i :: 0 <= i < |b.positions| && b.positions[i].isOpen ==> b.positions[i].qty > 0.0
  }

  ghost function Step(b: Book, e: Event): Book
    requires Proper(e) && OpenRowsHold(b)
  {
    match e
    case Filled(fill, order) => ApplyFill(b, fill, order)
    case Marked(openMarkets, closes) => ApplyMarks(b, openMarkets, closes)
    case SplitApplied(action) => ApplySplit(b, action)
    case ExDate(announcements) => b.(payments := PendAll(b.positions, b.payments, announcements))
    case PayableDate(today) => PayFrom(b, 0, today)
    case CashInitialized(accounts) => InitializeCash(b, accounts)
    case CashAdjusted(scope, amount) => b.(cash := Credit(b.cash, scope, amount))
    case PeakReset => b.(peak := Some(Equity(b)))
  }
}

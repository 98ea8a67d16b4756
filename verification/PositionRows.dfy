/** One row of the positions table: what fills, marks and splits do to it.
  * Money and quantities are exact reals. */
module PositionRows {
  import opened Reals

  datatype Side = Long | Short

  datatype Action = Buy | Sell

  datatype PositionRow = PositionRow(
    strategyId: nat,
    symbol: string,
    market: string,
    side: Side,
    qty: real,
    avgEntryPrice: real,
    costBasis: real,
    currentPrice: real,
    marketValue: real,
    unrealizedPnl: real,
    realizedPnl: real,
    totalFees: real,
    totalDividends: real,
    isOpen: bool,
    highestPrice: real,
    lowestPrice: real,
    multiplier: int)

  /** The paper order a fill belongs to; a missing filled quantity reads as zero. */
  datatype Order = Order(
    strategyId: nat,
    symbol: string,
    market: string,
    action: Action,
    filledQty: real,
    requestedQty: real,
    multiplier: int)

  /** A fill as the fill engine reports it; the empty string stands for no broker account. */
  datatype Fill = Fill(qty: real, price: real, fee: real, netValue: real, brokerAccount: string)

  datatype Scenario = Entry | ScaleIn | ScaleOut | FullExit

  function SideOf(action: Action): Side {
    if action == Buy then Long else Short
  }

  function Sign(side: Side): real {
    if side == Long then 1.0 else -1.0
  }

  /** The order's quantity as the scenario choice reads it: filled if non-zero, else requested. */
  function OrderQty(order: Order): real {
    if order.filledQty != 0.0 then order.filledQty else order.requestedQty
  }

  /** Scenario for a fill that meets the open position `row`. */
  function ScenarioFor(row: PositionRow, order: Order): Scenario {
    if row.side == SideOf(order.action) then ScaleIn
    else if OrderQty(order) >= row.qty then FullExit
    else ScaleOut
  }

  /** What an order's fill may rely on: the order manager submits positive quantities at
    * positive prices, and copies the filled quantity from the fill to the order. */
  predicate WellFormedFill(fill: Fill, order: Order) {
    fill.qty > 0.0 && fill.price > 0.0 && order.filledQty == fill.qty
  }

  /** The fill engine's net value: buys cost gross plus fee, sells yield gross less fee. */
  predicate EngineFill(fill: Fill, order: Order) {
    var gross := fill.qty * fill.price * order.multiplier as real;
    fill.netValue == if order.action == Buy then gross + fill.fee else gross - fill.fee
  }

  function Unrealized(side: Side, current: real, avg: real, qty: real, multiplier: int): real {
    if side == Long then (current - avg) * qty * multiplier as real
    else (avg - current) * qty * multiplier as real
  }

  /** Gross profit of closing `qty` of `row` at `price`. */
  function GrossPnl(row: PositionRow, price: real, qty: real): real {
    Unrealized(row.side, price, row.avgEntryPrice, qty, row.multiplier)
  }

  function EntryRow(fill: Fill, order: Order): PositionRow {
    PositionRow(order.strategyId, order.symbol, order.market, SideOf(order.action),
                fill.qty, fill.price, fill.netValue, fill.price,
                fill.qty * fill.price * order.multiplier as real,
                0.0, 0.0, fill.fee, 0.0, true, fill.price, fill.price, order.multiplier)
  }

  function WeightedAverage(qtyA: real, a: real, qtyB: real, b: real): real
    requires qtyA + qtyB != 0.0
  {
    ((qtyA * a) + (qtyB * b)) / (qtyA + qtyB)
  }

  function ScaleInRow(row: PositionRow, fill: Fill): PositionRow
    requires row.qty + fill.qty != 0.0
  {
    var newQty := row.qty + fill.qty;
    var avg := WeightedAverage(row.qty, row.avgEntryPrice, fill.qty, fill.price);
    row.(qty := newQty,
         avgEntryPrice := avg,
         costBasis := row.costBasis + fill.netValue,
         totalFees := row.totalFees + fill.fee,
         marketValue := newQty * row.currentPrice * row.multiplier as real,
         unrealizedPnl := Unrealized(row.side, row.currentPrice, avg, newQty, row.multiplier))
  }

  function ScaleOutRow(row: PositionRow, fill: Fill): PositionRow
    requires row.qty != 0.0
  {
    var remaining := row.qty - fill.qty;
    row.(qty := remaining,
         costBasis := row.costBasis * (remaining / row.qty),
         realizedPnl := row.realizedPnl + (GrossPnl(row, fill.price, fill.qty) - fill.fee),
         totalFees := row.totalFees + fill.fee,
         marketValue := remaining * row.currentPrice * row.multiplier as real,
         unrealizedPnl := Unrealized(row.side, row.currentPrice, row.avgEntryPrice, remaining, row.multiplier))
  }

  /** A full exit books the whole position, whatever quantity the fill carries. */
  function FullExitRow(row: PositionRow, fill: Fill): PositionRow {
    row.(realizedPnl := row.realizedPnl + (GrossPnl(row, fill.price, row.qty) - fill.fee),
         totalFees := row.totalFees + fill.fee,
         qty := 0.0,
         marketValue := 0.0,
         unrealizedPnl := 0.0,
         isOpen := false,
         currentPrice := fill.price)
  }

  /** The row after a fill that met it. */
  function FilledRow(row: PositionRow, fill: Fill, order: Order): PositionRow
    requires row.qty > 0.0 && fill.qty > 0.0
  {
    match ScenarioFor(row, order)
    case ScaleIn => ScaleInRow(row, fill)
    case ScaleOut => ScaleOutRow(row, fill)
    case _ => FullExitRow(row, fill)
  }

  /** The quantity whose profit a fill books: none when it opens, all of it on a full exit. */
  function ClosedQty(row: PositionRow, fill: Fill, order: Order): real {
    match ScenarioFor(row, order)
    case FullExit => row.qty
    case ScaleOut => fill.qty
    case _ => 0.0
  }

  function Max(a: real, b: real): real { if a > b then a else b }

  function Min(a: real, b: real): real { if a < b then a else b }

  function MarkRow(row: PositionRow, price: real): PositionRow {
    row.(currentPrice := price,
         marketValue := row.qty * price * row.multiplier as real,
         unrealizedPnl := Unrealized(row.side, price, row.avgEntryPrice, row.qty, row.multiplier),
         highestPrice := Max(price, row.highestPrice),
         lowestPrice := Min(price, row.lowestPrice))
  }

  function SplitRow(row: PositionRow, ratio: real): PositionRow
    requires ratio != 0.0
  {
    row.(qty := row.qty * ratio,
         avgEntryPrice := row.avgEntryPrice / ratio,
         highestPrice := row.highestPrice / ratio,
         lowestPrice := row.lowestPrice / ratio,
         currentPrice := row.currentPrice / ratio,
         marketValue := (row.qty * ratio) * (row.currentPrice / ratio) * row.multiplier as real)
  }

  /** The derived columns agree with the primary ones, and only open rows hold quantity. */
  predicate Consistent(row: PositionRow) {
    if row.isOpen then
      && row.qty > 0.0
      && row.marketValue == row.qty * row.currentPrice * row.multiplier as real
      && row.unrealizedPnl == Unrealized(row.side, row.currentPrice, row.avgEntryPrice, row.qty, row.multiplier)
      && row.lowestPrice <= row.currentPrice <= row.highestPrice
    else
      row.qty == 0.0 && row.marketValue == 0.0 && row.unrealizedPnl == 0.0
  }

  /** What the position cost, signed: the money a book has put into it. */
  function Exposure(row: PositionRow): real {
    if row.isOpen then Sign(row.side) * (row.avgEntryPrice * row.qty * row.multiplier as real) else 0.0
  }

  /** Gross profit a fill adds to the ledger. */
  function BookedPnl(row: PositionRow, fill: Fill, order: Order): real {
    if ScenarioFor(row, order) == ScaleIn then 0.0
    else GrossPnl(row, fill.price, ClosedQty(row, fill, order))
  }

  /** The quantity a fill moves in the position: all of it on a full exit. */
  function BookedQty(row: PositionRow, fill: Fill, order: Order): real {
    if ScenarioFor(row, order) == FullExit then row.qty else fill.qty
  }

  /** Value of that quantity at the fill price. */
  function TradedValue(row: PositionRow, fill: Fill, order: Order): real {
    BookedQty(row, fill, order) * fill.price * row.multiplier as real
  }

  lemma ScaleInKeepsRow(row: PositionRow, fill: Fill)
    requires Consistent(row) && row.isOpen && fill.qty > 0.0
    ensures Consistent(ScaleInRow(row, fill))
    ensures Exposure(ScaleInRow(row, fill)) == Exposure(row) + Sign(row.side) * (fill.qty * fill.price * row.multiplier as real)
  {
    var newQty, m := row.qty + fill.qty, row.multiplier as real;
    var sum := (row.qty * row.avgEntryPrice) + (fill.qty * fill.price);
    DivMul(sum, newQty);
    assert sum * m == row.avgEntryPrice * row.qty * m + fill.qty * fill.price * m;
  }

  lemma CloseKeepsRow(row: PositionRow, fill: Fill, order: Order)
    requires Consistent(row) && row.isOpen && WellFormedFill(fill, order) && ScenarioFor(row, order) != ScaleIn
    ensures Consistent(FilledRow(row, fill, order))
    ensures Exposure(FilledRow(row, fill, order)) ==
            Exposure(row) + BookedPnl(row, fill, order) + Sign(SideOf(order.action)) * TradedValue(row, fill, order)
  {
  }

  /** A fill keeps the row consistent, and changes its exposure by the profit it books plus
    * the signed value, at the fill price, of the quantity it moves. Closing any part leaves
    * the average entry price alone. */
  lemma FillKeepsRow(row: PositionRow, fill: Fill, order: Order)
    requires Consistent(row) && row.isOpen && WellFormedFill(fill, order)
    ensures Consistent(FilledRow(row, fill, order))
    ensures Exposure(FilledRow(row, fill, order)) ==
            Exposure(row) + BookedPnl(row, fill, order) + Sign(SideOf(order.action)) * TradedValue(row, fill, order)
    ensures ScenarioFor(row, order) != ScaleIn ==> FilledRow(row, fill, order).avgEntryPrice == row.avgEntryPrice
  {
    if ScenarioFor(row, order) == ScaleIn {
      ScaleInKeepsRow(row, fill);
    } else {
      CloseKeepsRow(row, fill, order);
    }
  }

  /** A split rescales units only: value, cost, unrealised profit and the price band keep
    * their meaning, and the inverse split undoes it. */
  lemma SplitKeepsRow(row: PositionRow, ratio: real)
    requires ratio > 0.0 && Consistent(row) && row.isOpen
    ensures Consistent(SplitRow(row, ratio))
    ensures SplitRow(row, ratio).marketValue == row.marketValue
    ensures SplitRow(row, ratio).qty * SplitRow(row, ratio).avgEntryPrice == row.qty * row.avgEntryPrice
    ensures Exposure(SplitRow(row, ratio)) == Exposure(row)
    ensures SplitRow(SplitRow(row, ratio), 1.0 / ratio) == row
  {
    var m := row.multiplier as real;
    Cross(row.qty, ratio, row.currentPrice, m);
    Cross(row.qty, ratio, row.avgEntryPrice, m);
    var after := SplitRow(row, ratio);
    calc {
      (row.currentPrice / ratio - row.avgEntryPrice / ratio) * (row.qty * ratio) * m;
      (row.qty * ratio) * (row.currentPrice / ratio) * m - (row.qty * ratio) * (row.avgEntryPrice / ratio) * m;
      row.qty * row.currentPrice * m - row.qty * row.avgEntryPrice * m;
    }
    DivMonotone(row.lowestPrice, row.currentPrice, ratio);
    DivMonotone(row.currentPrice, row.highestPrice, ratio);
    var back := 1.0 / ratio;
    assert back * ratio == 1.0 by { DivMul(1.0, ratio); }
    assert row.qty * ratio * back == row.qty * (ratio * back);
    DivInverse(row.avgEntryPrice, ratio);
    DivInverse(row.highestPrice, ratio);
    DivInverse(row.lowestPrice, ratio);
    DivInverse(row.currentPrice, ratio);
  }

  function SplitFill(fill: Fill, ratio: real): Fill
    requires ratio != 0.0
  {
    fill.(qty := fill.qty * ratio, price := fill.price / ratio)
  }

  function SplitOrder(order: Order, ratio: real): Order {
    order.(filledQty := order.filledQty * ratio, requestedQty := order.requestedQty * ratio)
  }

  /** The price columns of a row, restated in post-split units. */
  function InSplitPrices(row: PositionRow, ratio: real): PositionRow
    requires ratio != 0.0
  {
    row.(avgEntryPrice := row.avgEntryPrice / ratio, currentPrice := row.currentPrice / ratio,
         highestPrice := row.highestPrice / ratio, lowestPrice := row.lowestPrice / ratio)
  }

  /** The split processor touches open rows only. */
  function AfterSplit(row: PositionRow, ratio: real): PositionRow
    requires ratio != 0.0
  {
    if row.isOpen then SplitRow(row, ratio) else row
  }

  lemma SplitKeepsScenario(row: PositionRow, fill: Fill, order: Order, ratio: real)
    requires ratio > 0.0 && WellFormedFill(fill, order)
    ensures ScenarioFor(SplitRow(row, ratio), SplitOrder(order, ratio)) == ScenarioFor(row, order)
  {
    assert OrderQty(SplitOrder(order, ratio)) == OrderQty(order) * ratio;
    assert OrderQty(order) >= row.qty <==> OrderQty(order) * ratio >= row.qty * ratio;
  }

  lemma SplitKeepsUnrealized(side: Side, current: real, avg: real, qty: real, multiplier: int, ratio: real)
    requires ratio != 0.0
    ensures Unrealized(side, current / ratio, avg / ratio, qty * ratio, multiplier)
            == Unrealized(side, current, avg, qty, multiplier)
  {
    ScaledDifference(current, avg, qty, ratio, multiplier as real);
    ScaledDifference(avg, current, qty, ratio, multiplier as real);
  }

  lemma ScaleInKeepsUnits(row: PositionRow, fill: Fill, ratio: real)
    requires ratio > 0.0 && row.qty > 0.0 && fill.qty > 0.0
    ensures row.qty * ratio + fill.qty * ratio == (row.qty + fill.qty) * ratio != 0.0
    ensures WeightedAverage(row.qty * ratio, row.avgEntryPrice / ratio, fill.qty * ratio, fill.price / ratio)
            == WeightedAverage(row.qty, row.avgEntryPrice, fill.qty, fill.price) / ratio
  {
    var newQty := row.qty + fill.qty;
    assert row.qty * ratio + fill.qty * ratio == newQty * ratio;
    Cross(row.qty, ratio, row.avgEntryPrice, 1.0);
    Cross(fill.qty, ratio, fill.price, 1.0);
    DivDiv((row.qty * row.avgEntryPrice) + (fill.qty * fill.price), newQty, ratio);
  }

  lemma ScaleInCommutes(row: PositionRow, fill: Fill, ratio: real)
    requires ratio > 0.0 && row.qty > 0.0 && fill.qty > 0.0
    ensures row.qty * ratio + fill.qty * ratio != 0.0
    ensures ScaleInRow(SplitRow(row, ratio), SplitFill(fill, ratio)) == SplitRow(ScaleInRow(row, fill), ratio)
  {
    ScaleInKeepsUnits(row, fill, ratio);
    SplitKeepsUnrealized(row.side, row.currentPrice, WeightedAverage(row.qty, row.avgEntryPrice, fill.qty, fill.price),
                         row.qty + fill.qty, row.multiplier, ratio);
    var first, second := ScaleInRow(SplitRow(row, ratio), SplitFill(fill, ratio)), SplitRow(ScaleInRow(row, fill), ratio);
    assert first.qty == second.qty;
    assert first.avgEntryPrice == second.avgEntryPrice;
    assert first.unrealizedPnl == second.unrealizedPnl;
    assert first.marketValue == second.marketValue;
  }

  lemma ScaleOutKeepsUnits(row: PositionRow, fill: Fill, ratio: real)
    requires ratio > 0.0 && row.qty > 0.0
    ensures row.qty * ratio != 0.0
    ensures row.qty * ratio - fill.qty * ratio == (row.qty - fill.qty) * ratio
    ensures row.costBasis * ((row.qty * ratio - fill.qty * ratio) / (row.qty * ratio)) == row.costBasis * ((row.qty - fill.qty) / row.qty)
  {
    var remaining := row.qty - fill.qty;
    assert row.qty * ratio - fill.qty * ratio == remaining * ratio;
    RatioCancels(remaining, row.qty, ratio);
  }

  lemma ScaleOutKeepsProfit(row: PositionRow, fill: Fill, ratio: real)
    requires ratio > 0.0
    ensures GrossPnl(SplitRow(row, ratio), fill.price / ratio, fill.qty * ratio) == GrossPnl(row, fill.price, fill.qty)
  {
    SplitKeepsUnrealized(row.side, fill.price, row.avgEntryPrice, fill.qty, row.multiplier, ratio);
  }

  lemma ScaleOutColumnsCommute(row: PositionRow, fill: Fill, ratio: real)
    requires ratio > 0.0 && row.qty > 0.0
    ensures row.qty * ratio != 0.0
    ensures var first, second := ScaleOutRow(SplitRow(row, ratio), SplitFill(fill, ratio)), SplitRow(ScaleOutRow(row, fill), ratio);
            first.qty == second.qty && first.costBasis == second.costBasis && first.marketValue == second.marketValue
  {
    ScaleOutKeepsUnits(row, fill, ratio);
  }

  lemma ScaleOutRealizedCommutes(row: PositionRow, fill: Fill, ratio: real)
    requires ratio > 0.0 && row.qty > 0.0
    ensures row.qty * ratio != 0.0
    ensures ScaleOutRow(SplitRow(row, ratio), SplitFill(fill, ratio)).realizedPnl == SplitRow(ScaleOutRow(row, fill), ratio).realizedPnl
  {
    ProductPositive(row.qty, ratio);
    ScaleOutKeepsProfit(row, fill, ratio);
  }

  lemma ScaleOutUnrealizedCommutes(row: PositionRow, fill: Fill, ratio: real)
    requires ratio > 0.0 && row.qty > 0.0
    ensures row.qty * ratio != 0.0
    ensures ScaleOutRow(SplitRow(row, ratio), SplitFill(fill, ratio)).unrealizedPnl == SplitRow(ScaleOutRow(row, fill), ratio).unrealizedPnl
  {
    ScaleOutKeepsUnits(row, fill, ratio);
    SplitKeepsUnrealized(row.side, row.currentPrice, row.avgEntryPrice, row.qty - fill.qty, row.multiplier, ratio);
  }

  lemma ScaleOutCommutes(row: PositionRow, fill: Fill, ratio: real)
    requires ratio > 0.0 && row.qty > 0.0
    ensures row.qty * ratio != 0.0
    ensures ScaleOutRow(SplitRow(row, ratio), SplitFill(fill, ratio)) == SplitRow(ScaleOutRow(row, fill), ratio)
  {
    ScaleOutColumnsCommute(row, fill, ratio);
    ScaleOutRealizedCommutes(row, fill, ratio);
    ScaleOutUnrealizedCommutes(row, fill, ratio);
  }

  lemma FullExitCommutes(row: PositionRow, fill: Fill, ratio: real)
    requires ratio > 0.0
    ensures FullExitRow(SplitRow(row, ratio), SplitFill(fill, ratio)) == InSplitPrices(FullExitRow(row, fill), ratio)
  {
    SplitKeepsUnrealized(row.side, fill.price, row.avgEntryPrice, row.qty, row.multiplier, ratio);
  }

  lemma SplitKeepsBooking(row: PositionRow, fill: Fill, order: Order, ratio: real)
    requires ratio > 0.0 && WellFormedFill(fill, order)
    ensures BookedPnl(SplitRow(row, ratio), SplitFill(fill, ratio), SplitOrder(order, ratio)) == BookedPnl(row, fill, order)
  {
    SplitKeepsScenario(row, fill, order, ratio);
    SplitKeepsUnrealized(row.side, fill.price, row.avgEntryPrice, ClosedQty(row, fill, order), row.multiplier, ratio);
  }

  /** What filling after a split gives, in terms of splitting after the fill. */
  function SplitOutcome(fillFirst: PositionRow, ratio: real): PositionRow
    requires ratio != 0.0
  {
    if fillFirst.isOpen then SplitRow(fillFirst, ratio) else InSplitPrices(fillFirst, ratio)
  }

  lemma SplitOutcomeOfFill(row: PositionRow, fill: Fill, order: Order, ratio: real)
    requires ratio > 0.0 && row.qty > 0.0 && row.isOpen && WellFormedFill(fill, order)
    ensures SplitRow(row, ratio).qty > 0.0 && SplitFill(fill, ratio).qty > 0.0
    ensures FilledRow(SplitRow(row, ratio), SplitFill(fill, ratio), SplitOrder(order, ratio))
            == SplitOutcome(FilledRow(row, fill, order), ratio)
  {
    SplitKeepsScenario(row, fill, order, ratio);
    match ScenarioFor(row, order)
    case ScaleIn => ScaleInCommutes(row, fill, ratio);
    case ScaleOut => ScaleOutCommutes(row, fill, ratio);
    case _ => FullExitCommutes(row, fill, ratio);
  }

  /** Splitting commutes with filling in every scenario, the choice of scenario and the booked
    * profit included. A full exit is the exception: the split processor skips the closed row,
    * whose price columns then stay in pre-split units, so there the two orders agree only
    * when nothing is rescaled. */
  lemma SplitCommutesWithFill(row: PositionRow, fill: Fill, order: Order, ratio: real)
    requires ratio > 0.0 && row.qty > 0.0 && row.isOpen && WellFormedFill(fill, order)
    ensures SplitRow(row, ratio).qty > 0.0 && SplitFill(fill, ratio).qty > 0.0
    ensures ScenarioFor(SplitRow(row, ratio), SplitOrder(order, ratio)) == ScenarioFor(row, order)
    ensures BookedPnl(SplitRow(row, ratio), SplitFill(fill, ratio), SplitOrder(order, ratio)) == BookedPnl(row, fill, order)
    ensures FilledRow(SplitRow(row, ratio), SplitFill(fill, ratio), SplitOrder(order, ratio))
            == SplitOutcome(FilledRow(row, fill, order), ratio)
    ensures SplitOutcome(FilledRow(row, fill, order), ratio) == AfterSplit(FilledRow(row, fill, order), ratio)
            <==> ScenarioFor(row, order) != FullExit || ratio == 1.0
  {
    SplitKeepsScenario(row, fill, order, ratio);
    SplitKeepsBooking(row, fill, order, ratio);
    SplitOutcomeOfFill(row, fill, order, ratio);
    DivPositive(fill.price, ratio);
  }

  /** One share bought at ten and sold at twenty around a two-for-one split: sold first, the closed
    * row still shows twenty; split first, it shows ten. */
  lemma FullExitDoesNotCommute()
    ensures var row := EntryRow(Fill(1.0, 10.0, 0.0, 10.0, ""), Order(0, "ABC", "equities", Buy, 1.0, 1.0, 1));
            var fill, order := Fill(1.0, 20.0, 0.0, 20.0, ""), Order(0, "ABC", "equities", Sell, 1.0, 1.0, 1);
            && ScenarioFor(row, order) == FullExit
            && AfterSplit(FilledRow(row, fill, order), 2.0).currentPrice == 20.0
            && FilledRow(SplitRow(row, 2.0), SplitFill(fill, 2.0), SplitOrder(order, 2.0)).currentPrice == 10.0
  {
  }

  /** The same for a fill that opens a position. */
  lemma SplitCommutesWithEntry(fill: Fill, order: Order, ratio: real)
    requires ratio > 0.0
    ensures EntryRow(SplitFill(fill, ratio), SplitOrder(order, ratio)) == SplitRow(EntryRow(fill, order), ratio)
  {
    Cross(fill.qty, ratio, fill.price, order.multiplier as real);
  }
}

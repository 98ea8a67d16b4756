/** The cost basis of positions against the full history of what opened, enlarged and reduced them. */
module BookCost {
  import opened Reals
  import opened Sums
  import opened PositionRows
  import opened Book
  import opened BookConservation
  import opened BookShape
  import opened BookHistory

  function LotValue(lot: Lot): real { lot.value }

  // ---- One fill ----

  lemma ScaleOutKeepsUnitCost(row: PositionRow, fill: Fill)
    requires row.qty != 0.0
    ensures ScaleOutRow(row, fill).costBasis * row.qty == row.costBasis * ScaleOutRow(row, fill).qty
  {
    DivMul(row.qty - fill.qty, row.qty);
    assert row.costBasis * ((row.qty - fill.qty) / row.qty) * row.qty == row.costBasis * (row.qty - fill.qty);
  }

  /** A fill in the position's direction adds its net value to the cost basis, a partial close keeps
    * the cost of each unit that stays, and a full exit leaves the basis as the record of what the
    * closed quantity had cost. */
  lemma FillKeepsUnitCost(row: PositionRow, fill: Fill, order: Order)
    requires row.qty > 0.0 && WellFormedFill(fill, order)
    ensures var after := FilledRow(row, fill, order);
            if SideOf(order.action) == row.side then after.costBasis == row.costBasis + fill.netValue
            else if fill.qty < row.qty then after.costBasis * row.qty == row.costBasis * after.qty && after.qty == row.qty - fill.qty
            else after.costBasis == row.costBasis
  {
    ScaleOutKeepsUnitCost(row, fill);
  }

  // ---- Cost and history ----

  /** A unit of the first quantity cost no more than one of the second. */
  predicate NoDearer(value: real, qty: real, other: real, otherQty: real) {
    value * otherQty <= other * qty
  }

  /** A unit of what is held cost at least what a unit of some lot did, and at most what a unit of
    * some lot did. */
  predicate BetweenUnitCosts(cost: real, qty: real, lots: seq<Lot>) {
    && (exists k :: 0 <= k < |lots| && lots[k].qty > 0.0 && NoDearer(lots[k].value, lots[k].qty, cost, qty))
    && (exists k :: 0 <= k < |lots| && lots[k].qty > 0.0 && NoDearer(cost, qty, lots[k].value, lots[k].qty))
  }

  /** A position never reduced has cost what its lots did, and an open one costs, for each unit it
    * still holds, between the least and the most that a unit of some lot did. */
  ghost predicate CostFits(row: PositionRow, h: History) {
    CostFitsAt(row.costBasis, row.isOpen, row.qty, h)
  }

  ghost predicate CostFitsAt(cost: real, isOpen: bool, qty: real, h: History) {
    && h.closed >= 0.0
    && (h.closed == 0.0 ==> cost == SumOver(h.lots, LotValue))
    && (isOpen ==> qty > 0.0 && BetweenUnitCosts(cost, qty, h.lots))
  }

  ghost predicate CostsFit(rows: seq<PositionRow>, h: seq<History>) {
    |h| == |rows| && forall i :: 0 <= i < |rows| ==> CostFits(rows[i], h[i])
  }

  lemma EntryCosts(fill: Fill, order: Order)
    requires fill.qty > 0.0
    ensures CostFits(EntryRow(fill, order), History([Lot(fill.qty, fill.price, fill.netValue)], [fill.price], 0.0))
  {
    var lots := [Lot(fill.qty, fill.price, fill.netValue)];
    assert SumOver(lots[1..], LotValue) == 0.0;
    assert NoDearer(lots[0].value, lots[0].qty, fill.netValue, fill.qty);
  }

  lemma NoDearerThan(v: real, p: real, c: real, q: real, w: real, f: real)
    requires p > 0.0 && q > 0.0 && f > 0.0 && NoDearer(v, p, c, q) && NoDearer(c, q, w, f)
    ensures NoDearer(v, p, w, f)
  {
    ProductNonNegative(c * p - v * q, f);
    ProductNonNegative(w * q - c * f, p);
    assert (w * p - v * f) * q == (c * p - v * q) * f + (w * q - c * f) * p;
    SignOfProduct(w * p - v * f, q);
  }

  /** Adding to what is held cannot make it dearer, or cheaper, than both parts. */
  lemma NoDearerThanSum(v: real, p: real, c: real, q: real, w: real, f: real)
    ensures NoDearer(v, p, c, q) && NoDearer(v, p, w, f) ==> NoDearer(v, p, c + w, q + f)
    ensures NoDearer(c, q, v, p) && NoDearer(w, f, v, p) ==> NoDearer(c + w, q + f, v, p)
  {
    assert v * (q + f) == v * q + v * f && (c + w) * p == c * p + w * p;
  }

  lemma EnlargedBetween(cost: real, qty: real, lots: seq<Lot>, lot: Lot)
    requires qty > 0.0 && lot.qty > 0.0 && BetweenUnitCosts(cost, qty, lots)
    ensures BetweenUnitCosts(cost + lot.value, qty + lot.qty, lots + [lot])
  {
    var below :| 0 <= below < |lots| && lots[below].qty > 0.0 && NoDearer(lots[below].value, lots[below].qty, cost, qty);
    var above :| 0 <= above < |lots| && lots[above].qty > 0.0 && NoDearer(cost, qty, lots[above].value, lots[above].qty);
    var low, high := lots[below], lots[above];
    if NoDearer(lot.value, lot.qty, cost, qty) {
      NoDearerThan(lot.value, lot.qty, cost, qty, high.value, high.qty);
      NoDearerThanSum(lot.value, lot.qty, cost, qty, lot.value, lot.qty);
      NoDearerThanSum(high.value, high.qty, cost, qty, lot.value, lot.qty);
      BoundedBy(cost + lot.value, qty + lot.qty, lots + [lot], |lots|, above);
    } else {
      NoDearerThan(low.value, low.qty, cost, qty, lot.value, lot.qty);
      NoDearerThanSum(low.value, low.qty, cost, qty, lot.value, lot.qty);
      NoDearerThanSum(lot.value, lot.qty, cost, qty, lot.value, lot.qty);
      BoundedBy(cost + lot.value, qty + lot.qty, lots + [lot], below, |lots|);
    }
  }

  lemma BoundedBy(cost: real, qty: real, lots: seq<Lot>, below: nat, above: nat)
    requires below < |lots| && above < |lots| && lots[below].qty > 0.0 && lots[above].qty > 0.0
    requires NoDearer(lots[below].value, lots[below].qty, cost, qty) && NoDearer(cost, qty, lots[above].value, lots[above].qty)
    ensures BetweenUnitCosts(cost, qty, lots)
  {}

  lemma ScaleInCosts(row: PositionRow, h: History, fill: Fill)
    requires CostFits(row, h) && row.isOpen && fill.qty > 0.0
    ensures CostFits(ScaleInRow(row, fill), h.(lots := h.lots + [Lot(fill.qty, fill.price, fill.netValue)]))
  {
    var lot := Lot(fill.qty, fill.price, fill.netValue);
    SumAppend(h.lots, lot, LotValue);
    EnlargedBetween(row.costBasis, row.qty, h.lots, lot);
  }

  lemma SameUnitCost(cost: real, qty: real, after: real, left: real, lots: seq<Lot>)
    requires qty > 0.0 && left > 0.0 && after * qty == cost * left && BetweenUnitCosts(cost, qty, lots)
    ensures BetweenUnitCosts(after, left, lots)
  {
    var below :| 0 <= below < |lots| && lots[below].qty > 0.0 && NoDearer(lots[below].value, lots[below].qty, cost, qty);
    var above :| 0 <= above < |lots| && lots[above].qty > 0.0 && NoDearer(cost, qty, lots[above].value, lots[above].qty);
    NoDearerThan(lots[below].value, lots[below].qty, cost, qty, after, left);
    NoDearerThan(after, left, cost, qty, lots[above].value, lots[above].qty);
    BoundedBy(after, left, lots, below, above);
  }

  lemma ScaleOutCosts(row: PositionRow, h: History, fill: Fill)
    requires CostFits(row, h) && row.isOpen && 0.0 < fill.qty < row.qty
    ensures CostFits(ScaleOutRow(row, fill), h.(closed := h.closed + fill.qty))
  {
    ScaleOutKeepsUnitCost(row, fill);
    SameUnitCost(row.costBasis, row.qty, ScaleOutRow(row, fill).costBasis, row.qty - fill.qty, h.lots);
  }

  lemma FilledRowCosts(row: PositionRow, h: History, fill: Fill, order: Order)
    requires CostFits(row, h) && row.isOpen && WellFormedFill(fill, order)
    ensures CostFits(FilledRow(row, fill, order),
                     if ScenarioFor(row, order) == ScaleIn then h.(lots := h.lots + [Lot(fill.qty, fill.price, fill.netValue)])
                     else h.(closed := h.closed + ClosedQty(row, fill, order)))
  {
    match ScenarioFor(row, order)
    case ScaleIn => ScaleInCosts(row, h, fill);
    case ScaleOut => ScaleOutCosts(row, h, fill);
    case _ =>
  }

  lemma FillCosts(b: Book, h: seq<History>, fill: Fill, order: Order)
    requires RowsConsistent(b) && WellFormedFill(fill, order) && CostsFit(b.positions, h)
    ensures CostsFit(ApplyFill(b, fill, order).positions, FilledHistory(b, h, fill, order))
  {
    var i := FindOpen(b.positions, order.strategyId, order.symbol);
    if i == |h| {
      EntryCosts(fill, order);
    } else {
      FilledRowCosts(b.positions[i], h[i], fill, order);
    }
  }

  // ---- Splits ----

  lemma {:induction false} ScaledValue(lots: seq<Lot>, ratio: real)
    requires ratio != 0.0
    ensures SumOver(ScaleLots(lots, ratio), LotValue) == SumOver(lots, LotValue)
  {
    SumSame(ScaleLots(lots, ratio), LotValue, lots, LotValue);
  }

  lemma NoDearerScaled(v: real, p: real, c: real, q: real, ratio: real)
    requires NoDearer(v, p, c, q) && ratio > 0.0
    ensures NoDearer(v, p * ratio, c, q * ratio)
  {
    ProductNonNegative(c * p - v * q, ratio);
    assert c * (p * ratio) - v * (q * ratio) == (c * p - v * q) * ratio;
  }

  lemma ScaledUnitCosts(cost: real, qty: real, lots: seq<Lot>, left: real, ratio: real)
    requires qty > 0.0 && ratio > 0.0 && left == qty * ratio && BetweenUnitCosts(cost, qty, lots)
    ensures left > 0.0 && BetweenUnitCosts(cost, left, ScaleLots(lots, ratio))
  {
    var below :| 0 <= below < |lots| && lots[below].qty > 0.0 && NoDearer(lots[below].value, lots[below].qty, cost, qty);
    var above :| 0 <= above < |lots| && lots[above].qty > 0.0 && NoDearer(cost, qty, lots[above].value, lots[above].qty);
    NoDearerScaled(lots[below].value, lots[below].qty, cost, qty, ratio);
    NoDearerScaled(cost, qty, lots[above].value, lots[above].qty, ratio);
    ProductPositive(lots[below].qty, ratio);
    ProductPositive(lots[above].qty, ratio);
    ProductPositive(qty, ratio);
    BoundedBy(cost, left, ScaleLots(lots, ratio), below, above);
  }

  lemma ScaledClosed(closed: real, ratio: real)
    requires closed >= 0.0 && ratio > 0.0
    ensures closed * ratio >= 0.0 && (closed * ratio == 0.0 <==> closed == 0.0)
  {
    ProductNonNegative(closed, ratio);
    if closed > 0.0 {
      ProductPositive(closed, ratio);
    }
  }

  lemma ScaledHistory(cost: real, qty: real, left: real, h: History, ratio: real)
    requires qty > 0.0 && ratio > 0.0 && left == qty * ratio
    requires CostFitsAt(cost, true, qty, h)
    ensures CostFitsAt(cost, true, left, SplitHistory(h, ratio))
  {
    ScaledValue(h.lots, ratio);
    ScaledUnitCosts(cost, qty, h.lots, left, ratio);
    ScaledClosed(h.closed, ratio);
  }

  lemma SplitCosts(row: PositionRow, h: History, ratio: real)
    requires CostFits(row, h) && row.isOpen && ratio > 0.0
    ensures CostFits(SplitRow(row, ratio), SplitHistory(h, ratio))
  {
    SplitColumns(row, ratio);
    ScaledHistory(row.costBasis, row.qty, SplitRow(row, ratio).qty, h, ratio);
  }

  lemma SplitsCost(b: Book, h: seq<History>, action: SplitAction)
    requires CostsFit(b.positions, h) && Proper(SplitApplied(action))
    ensures CostsFit(ApplySplit(b, action).positions, HistoryStep(b, h, SplitApplied(action)))
  {
    assert |ApplySplit(b, action).positions| == |h| == |HistoryStep(b, h, SplitApplied(action))|;
    forall i | 0 <= i < |h|
      ensures CostFits(ApplySplit(b, action).positions[i], HistoryStep(b, h, SplitApplied(action))[i])
    {
      SplitAt(b, action, i);
      HistoryAt(b, h, action, i);
      if SplitRatio(action).Ratio? && Splits(b.positions[i], action.symbol) {
        SplitCosts(b.positions[i], h[i], SplitRatio(action).ratio);
      }
    }
  }

  // ---- Runs ----

  lemma SameCosts(row: PositionRow, after: PositionRow, h: History, k: History)
    requires CostFits(row, h) && after.costBasis == row.costBasis && after.qty == row.qty && after.isOpen == row.isOpen
    requires k.lots == h.lots && k.closed == h.closed
    ensures CostFits(after, k)
  {}

  lemma MarksCost(b: Book, h: seq<History>, openMarkets: set<string>, closes: map<string, real>)
    requires CostsFit(b.positions, h)
    ensures CostsFit(ApplyMarks(b, openMarkets, closes).positions, HistoryStep(b, h, Marked(openMarkets, closes)))
  {
    var after, k := ApplyMarks(b, openMarkets, closes).positions, HistoryStep(b, h, Marked(openMarkets, closes));
    forall i | 0 <= i < |h| ensures CostFits(after[i], k[i]) {
      SameCosts(b.positions[i], after[i], h[i], k[i]);
    }
  }

  lemma PaysCost(b: Book, h: seq<History>, today: int)
    requires CostsFit(b.positions, h)
    ensures CostsFit(PayFrom(b, 0, today).positions, h)
  {
    PayKeepsRows(b, 0, today);
    forall i | 0 <= i < |h| ensures CostFits(PayFrom(b, 0, today).positions[i], h[i]) {
      SameCosts(b.positions[i], PayFrom(b, 0, today).positions[i], h[i], h[i]);
    }
  }

  lemma StepCosts(b: Book, h: seq<History>, e: Event)
    requires RowsConsistent(b) && Proper(e) && CostsFit(b.positions, h)
    ensures CostsFit(Step(b, e).positions, HistoryStep(b, h, e))
  {
    match e
    case Filled(fill, order) => FillCosts(b, h, fill, order);
    case Marked(openMarkets, closes) => MarksCost(b, h, openMarkets, closes);
    case SplitApplied(action) => SplitsCost(b, h, action);
    case PayableDate(today) => PaysCost(b, h, today);
    case _ =>
  }

  /** In every reachable book, in split-adjusted units: a position that was never reduced has cost
    * what the fills that opened and enlarged it did, and the cost of each unit still held lies
    * between the least and the greatest net value per unit of those fills. */
  lemma {:induction false} CostsTellTheirHistory(b: Book, h: seq<History>, events: seq<Event>)
    requires RowsConsistent(b) && AllProper(events) && AllTell(b.positions, h) && CostsFit(b.positions, h)
    ensures CostsFit(Run(b, events).positions, RunHistory(b, h, events))
    decreases |events|
  {
    if events != [] {
      StepConserves(b, events[0]);
      StepTells(b, h, events[0]);
      StepCosts(b, h, events[0]);
      CostsTellTheirHistory(Step(b, events[0]), HistoryStep(b, h, events[0]), events[1..]);
    }
  }
}

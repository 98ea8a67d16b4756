/** Positions against the full history of what was filled and quoted, in split-adjusted units. */
module BookHistory {
  import opened Reals
  import opened Sums
  import opened PositionRows
  import opened Book
  import opened BookConservation
  import opened BookShape

  datatype Lot = Lot(qty: real, price: real, value: real)

  /** What happened to one position: the lots that opened or enlarged it with their net values, the prices it saw
    * (its first fill and every mark), and how much of it was closed. */
  datatype History = History(lots: seq<Lot>, prices: seq<real>, closed: real)

  function LotQty(lot: Lot): real { lot.qty }

  function ScaleLots(lots: seq<Lot>, ratio: real): seq<Lot>
    requires ratio != 0.0
  {
    seq(|lots|, k requires 0 <= k < |lots| => Lot(lots[k].qty * ratio, lots[k].price / ratio, lots[k].value))
  }

  function ScalePrices(prices: seq<real>, ratio: real): seq<real>
    requires ratio != 0.0
  {
    seq(|prices|, k requires 0 <= k < |prices| => prices[k] / ratio)
  }

  function SplitHistory(h: History, ratio: real): History
    requires ratio != 0.0
  {
    History(ScaleLots(h.lots, ratio), ScalePrices(h.prices, ratio), h.closed * ratio)
  }

  function FilledHistory(b: Book, h: seq<History>, fill: Fill, order: Order): seq<History>
    requires |h| == |b.positions|
  {
    var i := FindOpen(b.positions, order.strategyId, order.symbol);
    if i == |h| then h + [History([Lot(fill.qty, fill.price, fill.netValue)], [fill.price], 0.0)]
    else if ScenarioFor(b.positions[i], order) == ScaleIn then h[i := h[i].(lots := h[i].lots + [Lot(fill.qty, fill.price, fill.netValue)])]
    else h[i := h[i].(closed := h[i].closed + ClosedQty(b.positions[i], fill, order))]
  }

  function HistoryStep(b: Book, h: seq<History>, e: Event): seq<History>
    requires |h| == |b.positions|
  {
    match e
    case Filled(fill, order) => FilledHistory(b, h, fill, order)
    case Marked(openMarkets, closes) =>
      seq(|h|, i requires 0 <= i < |h| =>
        if Marks(b.positions[i], openMarkets, closes) then h[i].(prices := h[i].prices + [closes[b.positions[i].symbol]]) else h[i])
    case SplitApplied(action) =>
      if SplitRatio(action).Ratio? then
        var r := SplitRatio(action).ratio;
        seq(|h|, i requires 0 <= i < |h| =>
          if Splits(b.positions[i], action.symbol)
          then SplitHistory(h[i], r) else h[i])
      else h
    case _ => h
  }

  predicate BetweenLots(avg: real, lots: seq<Lot>) {
    && (exists k :: 0 <= k < |lots| && lots[k].price <= avg)
    && (exists k :: 0 <= k < |lots| && avg <= lots[k].price)
  }

  predicate Greatest(x: real, prices: seq<real>) {
    x in prices && forall k :: 0 <= k < |prices| ==> prices[k] <= x
  }

  predicate Least(x: real, prices: seq<real>) {
    x in prices && forall k :: 0 <= k < |prices| ==> x <= prices[k]
  }

  /** A row tells its history: quantity left is quantity opened less quantity closed, the
    * average entry lies among the opening prices, the band is the extremes of what was seen. */
  ghost predicate Tells(row: PositionRow, h: History) {
    Fits(row.qty, row.avgEntryPrice, row.highestPrice, row.lowestPrice, h)
  }

  ghost predicate Fits(qty: real, avg: real, highest: real, lowest: real, h: History) {
    && SumOver(h.lots, LotQty) == qty + h.closed
    && BetweenLots(avg, h.lots)
    && Greatest(highest, h.prices)
    && Least(lowest, h.prices)
  }

  ghost predicate AllTell(rows: seq<PositionRow>, h: seq<History>) {
    |h| == |rows| && forall i :: 0 <= i < |rows| ==> Tells(rows[i], h[i])
  }

  /** A weighted average lies between the averaged values. */
  lemma WeightedBetween(q: real, a: real, r: real, p: real)
    requires q > 0.0 && r > 0.0
    ensures a <= p ==> a <= WeightedAverage(q, a, r, p) <= p
    ensures p <= a ==> p <= WeightedAverage(q, a, r, p) <= a
  {
    var avg := WeightedAverage(q, a, r, p);
    DivMul((q * a) + (r * p), q + r);
    assert (avg - a) * (q + r) == r * (p - a);
    assert (p - avg) * (q + r) == q * (p - a);
    if a <= p {
      ProductNonNegative(r, p - a);
      ProductNonNegative(q, p - a);
      SignOfProduct(avg - a, q + r);
      SignOfProduct(p - avg, q + r);
    }
    if p <= a {
      ProductNonNegative(r, a - p);
      ProductNonNegative(q, a - p);
      SignOfProduct(a - avg, q + r);
      SignOfProduct(avg - p, q + r);
    }
  }

  lemma ScaleInTells(row: PositionRow, h: History, fill: Fill)
    requires Tells(row, h) && row.qty > 0.0 && fill.qty > 0.0
    ensures Tells(ScaleInRow(row, fill), h.(lots := h.lots + [Lot(fill.qty, fill.price, fill.netValue)]))
  {
    var lots := h.lots + [Lot(fill.qty, fill.price, fill.netValue)];
    SumAppend(h.lots, Lot(fill.qty, fill.price, fill.netValue), LotQty);
    WeightedBetween(row.qty, row.avgEntryPrice, fill.qty, fill.price);
    var below :| 0 <= below < |h.lots| && h.lots[below].price <= row.avgEntryPrice;
    var above :| 0 <= above < |h.lots| && row.avgEntryPrice <= h.lots[above].price;
    assert lots[below] == h.lots[below] && lots[above] == h.lots[above] && lots[|h.lots|].price == fill.price;
    var avg := ScaleInRow(row, fill).avgEntryPrice;
    if row.avgEntryPrice <= fill.price {
      assert lots[below].price <= avg <= lots[|h.lots|].price;
    } else {
      assert lots[|h.lots|].price <= avg <= lots[above].price;
    }
  }

  lemma MarkTells(row: PositionRow, h: History, price: real)
    requires Tells(row, h)
    ensures Tells(MarkRow(row, price), h.(prices := h.prices + [price]))
  {
    var prices := h.prices + [price];
    assert prices[|h.prices|] == price;
    assert forall x :: x in h.prices ==> x in prices;
  }

  lemma {:induction false} ScaledSum(lots: seq<Lot>, ratio: real)
    requires ratio != 0.0
    ensures SumOver(ScaleLots(lots, ratio), LotQty) == SumOver(lots, LotQty) * ratio
  {
    if lots != [] {
      var rest := ScaleLots(lots[1..], ratio);
      forall k | 0 <= k < |rest| ensures ScaleLots(lots, ratio)[1..][k] == rest[k] {
        assert lots[1..][k] == lots[k + 1];
      }
      assert ScaleLots(lots, ratio)[1..] == rest;
      ScaledSum(lots[1..], ratio);
      assert (lots[0].qty + SumOver(lots[1..], LotQty)) * ratio == lots[0].qty * ratio + SumOver(lots[1..], LotQty) * ratio;
    }
  }

  lemma ScaledExtremes(x: real, prices: seq<real>, ratio: real)
    requires ratio > 0.0
    ensures Greatest(x, prices) ==> Greatest(x / ratio, ScalePrices(prices, ratio))
    ensures Least(x, prices) ==> Least(x / ratio, ScalePrices(prices, ratio))
  {
    var scaled := ScalePrices(prices, ratio);
    forall k | 0 <= k < |prices|
      ensures prices[k] <= x ==> scaled[k] <= x / ratio
      ensures x <= prices[k] ==> x / ratio <= scaled[k]
      ensures prices[k] == x ==> scaled[k] == x / ratio
    {
      if prices[k] <= x { DivMonotone(prices[k], x, ratio); }
      if x <= prices[k] { DivMonotone(x, prices[k], ratio); }
    }
    if x in prices {
      var k :| 0 <= k < |prices| && prices[k] == x;
      assert scaled[k] == x / ratio;
    }
  }

  lemma ScaledBetween(avg: real, lots: seq<Lot>, ratio: real)
    requires ratio > 0.0 && BetweenLots(avg, lots)
    ensures BetweenLots(avg / ratio, ScaleLots(lots, ratio))
  {
    var below :| 0 <= below < |lots| && lots[below].price <= avg;
    var above :| 0 <= above < |lots| && avg <= lots[above].price;
    DivMonotone(lots[below].price, avg, ratio);
    DivMonotone(avg, lots[above].price, ratio);
    assert ScaleLots(lots, ratio)[below].price <= avg / ratio <= ScaleLots(lots, ratio)[above].price;
  }

  lemma ScaledQuantity(qty: real, closed: real, lots: seq<Lot>, ratio: real)
    requires SumOver(lots, LotQty) == qty + closed && ratio != 0.0
    ensures SumOver(ScaleLots(lots, ratio), LotQty) == qty * ratio + closed * ratio
  {
    ScaledSum(lots, ratio);
    assert (qty + closed) * ratio == qty * ratio + closed * ratio;
  }

  lemma SplitFits(qty: real, avg: real, highest: real, lowest: real, h: History, ratio: real)
    requires Fits(qty, avg, highest, lowest, h) && ratio > 0.0
    ensures Fits(qty * ratio, avg / ratio, highest / ratio, lowest / ratio, SplitHistory(h, ratio))
  {
    ScaledQuantity(qty, h.closed, h.lots, ratio);
    ScaledBetween(avg, h.lots, ratio);
    ScaledExtremes(highest, h.prices, ratio);
    ScaledExtremes(lowest, h.prices, ratio);
  }

  lemma SplitColumns(row: PositionRow, ratio: real)
    requires ratio != 0.0
    ensures var after := SplitRow(row, ratio);
            && after.qty == row.qty * ratio && after.avgEntryPrice == row.avgEntryPrice / ratio
            && after.highestPrice == row.highestPrice / ratio && after.lowestPrice == row.lowestPrice / ratio
  {}

  lemma ScaledTells(row: PositionRow, after: PositionRow, h: History, ratio: real)
    requires Tells(row, h) && ratio > 0.0
    requires after.qty == row.qty * ratio && after.avgEntryPrice == row.avgEntryPrice / ratio
    requires after.highestPrice == row.highestPrice / ratio && after.lowestPrice == row.lowestPrice / ratio
    ensures Tells(after, SplitHistory(h, ratio))
  {
    SplitFits(row.qty, row.avgEntryPrice, row.highestPrice, row.lowestPrice, h, ratio);
  }

  lemma SplitTells(row: PositionRow, h: History, ratio: real)
    requires Tells(row, h) && ratio > 0.0
    ensures Tells(SplitRow(row, ratio), SplitHistory(h, ratio))
  {
    SplitColumns(row, ratio);
    ScaledTells(row, SplitRow(row, ratio), h, ratio);
  }

  lemma EntryTells(fill: Fill, order: Order)
    ensures Tells(EntryRow(fill, order), History([Lot(fill.qty, fill.price, fill.netValue)], [fill.price], 0.0))
  {
    var lots, prices := [Lot(fill.qty, fill.price, fill.netValue)], [fill.price];
    assert SumOver(lots[1..], LotQty) == 0.0;
    assert lots[0].price == fill.price && prices[0] == fill.price;
  }

  lemma FilledRowTells(row: PositionRow, h: History, fill: Fill, order: Order)
    requires Tells(row, h) && row.qty > 0.0 && WellFormedFill(fill, order)
    ensures Tells(FilledRow(row, fill, order),
                  if ScenarioFor(row, order) == ScaleIn then h.(lots := h.lots + [Lot(fill.qty, fill.price, fill.netValue)])
                  else h.(closed := h.closed + ClosedQty(row, fill, order)))
  {
    if ScenarioFor(row, order) == ScaleIn {
      ScaleInTells(row, h, fill);
    }
  }

  lemma FillTells(b: Book, h: seq<History>, fill: Fill, order: Order)
    requires RowsConsistent(b) && WellFormedFill(fill, order) && AllTell(b.positions, h)
    ensures AllTell(ApplyFill(b, fill, order).positions, FilledHistory(b, h, fill, order))
  {
    var i := FindOpen(b.positions, order.strategyId, order.symbol);
    if i == |h| {
      EntryTells(fill, order);
    } else {
      FilledRowTells(b.positions[i], h[i], fill, order);
    }
  }

  lemma MarksTell(b: Book, h: seq<History>, openMarkets: set<string>, closes: map<string, real>)
    requires AllTell(b.positions, h)
    ensures AllTell(ApplyMarks(b, openMarkets, closes).positions, HistoryStep(b, h, Marked(openMarkets, closes)))
  {
    forall i | 0 <= i < |h| && Marks(b.positions[i], openMarkets, closes)
      ensures Tells(ApplyMarks(b, openMarkets, closes).positions[i], HistoryStep(b, h, Marked(openMarkets, closes))[i])
    {
      MarkTells(b.positions[i], h[i], closes[b.positions[i].symbol]);
    }
  }

  lemma SplitAt(b: Book, action: SplitAction, i: nat)
    requires Proper(SplitApplied(action)) && i < |b.positions|
    ensures |ApplySplit(b, action).positions| == |b.positions|
    ensures ApplySplit(b, action).positions[i]
            == if SplitRatio(action).Ratio? && Splits(b.positions[i], action.symbol)
               then SplitRow(b.positions[i], SplitRatio(action).ratio) else b.positions[i]
  {}

  lemma HistoryAt(b: Book, h: seq<History>, action: SplitAction, i: nat)
    requires i < |h| == |b.positions|
    ensures |HistoryStep(b, h, SplitApplied(action))| == |h|
    ensures HistoryStep(b, h, SplitApplied(action))[i]
            == if SplitRatio(action).Ratio? && Splits(b.positions[i], action.symbol)
               then SplitHistory(h[i], SplitRatio(action).ratio) else h[i]
  {}

  lemma SplitTellsAt(b: Book, h: seq<History>, action: SplitAction, i: nat)
    requires AllTell(b.positions, h) && Proper(SplitApplied(action)) && i < |h|
    ensures |ApplySplit(b, action).positions| == |h|
    ensures Tells(ApplySplit(b, action).positions[i], HistoryStep(b, h, SplitApplied(action))[i])
  {
    SplitAt(b, action, i);
    HistoryAt(b, h, action, i);
    if SplitRatio(action).Ratio? && Splits(b.positions[i], action.symbol) {
      SplitTells(b.positions[i], h[i], SplitRatio(action).ratio);
    }
  }

  lemma SplitsTell(b: Book, h: seq<History>, action: SplitAction)
    requires AllTell(b.positions, h) && Proper(SplitApplied(action))
    ensures AllTell(ApplySplit(b, action).positions, HistoryStep(b, h, SplitApplied(action)))
  {
    assert |ApplySplit(b, action).positions| == |h| == |HistoryStep(b, h, SplitApplied(action))|;
    forall i | 0 <= i < |h|
      ensures Tells(ApplySplit(b, action).positions[i], HistoryStep(b, h, SplitApplied(action))[i])
    {
      SplitTellsAt(b, h, action, i);
    }
  }

  lemma StepTells(b: Book, h: seq<History>, e: Event)
    requires RowsConsistent(b) && Proper(e) && AllTell(b.positions, h)
    ensures AllTell(Step(b, e).positions, HistoryStep(b, h, e))
  {
    match e
    case Filled(fill, order) => FillTells(b, h, fill, order);
    case Marked(openMarkets, closes) => MarksTell(b, h, openMarkets, closes);
    case SplitApplied(action) => SplitsTell(b, h, action);
    case PayableDate(today) => PayKeepsRows(b, 0, today);
    case _ =>
  }

  ghost function RunHistory(b: Book, h: seq<History>, events: seq<Event>): seq<History>
    requires RowsConsistent(b) && AllProper(events) && AllTell(b.positions, h)
    decreases |events|
  {
    if events == [] then h
    else
      StepConserves(b, events[0]);
      StepTells(b, h, events[0]);
      RunHistory(Step(b, events[0]), HistoryStep(b, h, events[0]), events[1..])
  }

  /** The shape of every position in every reachable book. */
  lemma {:induction false} PositionsTellTheirHistory(b: Book, h: seq<History>, events: seq<Event>)
    requires RowsConsistent(b) && AllProper(events) && AllTell(b.positions, h)
    ensures AllTell(Run(b, events).positions, RunHistory(b, h, events))
    decreases |events|
  {
    if events != [] {
      StepConserves(b, events[0]);
      StepTells(b, h, events[0]);
      PositionsTellTheirHistory(Step(b, events[0]), HistoryStep(b, h, events[0]), events[1..]);
    }
  }

  // ---- Quantities in the ledger ----

  ghost predicate LedgerTells(b: Book, h: seq<History>) {
    && |h| == |b.positions| && Referenced(b)
    && forall i :: 0 <= i < |h| ==> SumOver(b.ledger, QtyOf(i)) == h[i].closed
  }

  lemma StepLedgerTells(b: Book, h: seq<History>, e: Event)
    requires RowsConsistent(b) && Proper(e) && !e.SplitApplied? && LedgerTells(b, h) && LedgersAgree(b)
    ensures LedgerTells(Step(b, e), HistoryStep(b, h, e))
  {
    StepKeepsLedgers(b, e);
    match e
    case Filled(fill, order) =>
      var after, at := Step(b, e), FindOpen(b.positions, order.strategyId, order.symbol);
      forall i | 0 <= i < |after.positions|
        ensures SumOver(after.ledger, QtyOf(i)) == HistoryStep(b, h, e)[i].closed
      {
        if i == |b.positions| {
          SumOfZeros(b.ledger, QtyOf(i));
        } else if at < |b.positions| && ScenarioFor(b.positions[at], order) != ScaleIn {
          var row := b.positions[at];
          SumAppend(b.ledger, CloseEntry(at, row, fill, ClosedQty(row, fill, order), BookedPnl(row, fill, order)), QtyOf(i));
        }
      }
    case PayableDate(today) => PayKeepsRows(b, 0, today);
    case _ =>
  }

  /** Absent splits, which leave ledger quantities in old units, what the ledger closed and
    * what is still held add up to what was opened. */
  lemma {:induction false} LedgerQuantitiesAddUp(b: Book, h: seq<History>, events: seq<Event>)
    requires RowsConsistent(b) && AllProper(events) && AllTell(b.positions, h) && LedgerTells(b, h) && LedgersAgree(b)
    requires forall k :: 0 <= k < |events| ==> !events[k].SplitApplied?
    ensures AllTell(Run(b, events).positions, RunHistory(b, h, events))
    ensures var r := Run(b, events);
            forall i :: 0 <= i < |r.positions| ==>
              SumOver(r.ledger, QtyOf(i)) + r.positions[i].qty == SumOver(RunHistory(b, h, events)[i].lots, LotQty)
    decreases |events|
  {
    if events != [] {
      StepConserves(b, events[0]);
      StepTells(b, h, events[0]);
      StepLedgerTells(b, h, events[0]);
      StepKeepsLedgers(b, events[0]);
      LedgerQuantitiesAddUp(Step(b, events[0]), HistoryStep(b, h, events[0]), events[1..]);
    }
  }

  // ---- Split actions ----

  predicate Whole(x: real) { x.Floor as real == x }

  /** Forward rates: cut to whole numbers, so zero below one. */
  lemma ForwardRatioLaw(action: SplitAction)
    requires action.forward
    ensures Proper(SplitApplied(action)) <==> action.stockRate == 0.0 || action.stockRate >= 1.0
    ensures action.stockRate > 0.0 ==> (SplitRatio(action) == Ratio(action.stockRate) <==> Whole(action.stockRate))
    ensures SplitRatio(action).ZeroRatio? <==> -1.0 < action.stockRate < 1.0 && action.stockRate != 0.0
  {
  }

  lemma InverseBetweenOnes(x: real)
    requires x != 0.0
    ensures -1.0 < 1.0 / x < 1.0 <==> x < -1.0 || x > 1.0
    decreases x < 0.0
  {
    if x > 0.0 {
      RatioAbove(1.0, x, 1.0);
      RatioAbove(1.0, x, 0.0);
      DivMul(1.0, x);
      if 1.0 / x == 1.0 {
        assert x == 1.0;
      }
    } else {
      InverseNegated(x);
      InverseBetweenOnes(-x);
    }
  }

  lemma InverseNegated(x: real)
    requires x != 0.0
    ensures 1.0 / (-x) == -(1.0 / x)
  {
    DivMul(1.0, x);
    DivMul(1.0, -x);
    Cancel(1.0 / (-x), -(1.0 / x), -x);
  }

  lemma CutInverseIsRate(rate: real, cut: int)
    requires rate > 0.0 && cut != 0
    ensures 1.0 / (cut as real) == rate <==> 1.0 / rate == cut as real
  {
    var c := cut as real;
    DivMul(1.0, c);
    DivMul(1.0, rate);
    if 1.0 / c == rate {
      assert rate * c == 1.0;
      Cancel(1.0 / rate, c, rate);
    }
    if 1.0 / rate == c {
      assert c * rate == 1.0;
      Cancel(1.0 / c, rate, c);
    }
  }

  /** Reverse rates: their inverse is cut, so a rate beyond one either way divides by zero. */
  lemma ReverseRatioLaw(action: SplitAction)
    requires !action.forward
    ensures Proper(SplitApplied(action)) <==> action.stockRate == 0.0 || 0.0 < action.stockRate <= 1.0
    ensures 0.0 < action.stockRate <= 1.0 ==>
            (SplitRatio(action) == Ratio(action.stockRate) <==> Whole(1.0 / action.stockRate))
    ensures SplitRatio(action).DivisionByZero? <==> action.stockRate < -1.0 || action.stockRate > 1.0
  {
    var rate := action.stockRate;
    if rate != 0.0 {
      InverseBetweenOnes(rate);
      InverseOf(rate);
      var cut := Truncate(1.0 / rate);
      if cut != 0 {
        InverseOf(cut as real);
        if rate > 0.0 {
          CutInverseIsRate(rate, cut);
        }
      }
    }
  }

  /** Which announced rates the split processor can apply, which it applies as announced, and which
    * make it raise: both rates are cut to whole numbers first. */
  lemma SplitRatioLaw(action: SplitAction)
    ensures Proper(SplitApplied(action))
            <==> action.stockRate == 0.0 || (if action.forward then action.stockRate >= 1.0 else 0.0 < action.stockRate <= 1.0)
    ensures action.forward && action.stockRate > 0.0 ==>
            (SplitRatio(action) == Ratio(action.stockRate) <==> Whole(action.stockRate))
    ensures !action.forward && 0.0 < action.stockRate <= 1.0 ==>
            (SplitRatio(action) == Ratio(action.stockRate) <==> Whole(1.0 / action.stockRate))
    ensures SplitRatio(action).ZeroRatio? <==> action.forward && -1.0 < action.stockRate < 1.0 && action.stockRate != 0.0
    ensures SplitRatio(action).DivisionByZero? <==> !action.forward && (action.stockRate < -1.0 || action.stockRate > 1.0)
  {
    if action.forward {
      ForwardRatioLaw(action);
    } else {
      ReverseRatioLaw(action);
    }
  }

  /** A split action leaves the book consistent exactly when its derived ratio is positive, or
    * the processor raises before writing anything. A forward rate below one is the failing
    * case: the first position of the symbol is left open with no quantity. */
  lemma SplitKeepsBookIff(b: Book, action: SplitAction)
    requires RowsConsistent(b) && FirstOfSymbol(b.positions, action.symbol) < |b.positions|
    ensures RowsConsistent(ApplySplit(b, action)) <==> Proper(SplitApplied(action)) || SplitRatio(action).DivisionByZero?
  {
    var i := FirstOfSymbol(b.positions, action.symbol);
    if Proper(SplitApplied(action)) {
      SplitStep(b, action);
    } else if SplitRatio(action).Ratio? {
      assert ApplySplit(b, action).positions[i].qty == b.positions[i].qty * SplitRatio(action).ratio;
    } else if SplitRatio(action).ZeroRatio? {
      assert ApplySplit(b, action).positions[i].qty == 0.0;
    }
  }

  /** Shares held and a forward split announced at a half: the position stays open with no
    * quantity, and the processor raises. */
  lemma HalfForwardSplitEmptiesPosition(qty: real, price: real)
    requires qty > 0.0 && price > 0.0
    ensures Proper(Traded(Buy, qty, price))
    ensures var b := Step(EMPTY, Traded(Buy, qty, price));
            var action := SplitAction("ABC", true, 0.5);
            && SplitRaises(b, action)
            && |ApplySplit(b, action).positions| == 1
            && ApplySplit(b, action).positions[0].isOpen && ApplySplit(b, action).positions[0].qty == 0.0
            && !RowsConsistent(ApplySplit(b, action))
  {
    TradedIsProper(Buy, qty, price);
    FirstPurchase(qty, price);
    var b, action := Step(EMPTY, Traded(Buy, qty, price)), SplitAction("ABC", true, 0.5);
    ForwardRatioLaw(action);
    assert Splits(b.positions[0], "ABC");
    assert FirstOfSymbol(b.positions, "ABC") == 0;
    assert !Consistent(ApplySplit(b, action).positions[0]);
  }
}

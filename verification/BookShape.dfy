/** What every run keeps about positions, their ledger entries and their dividends. */
module BookShape {
  import opened Reals
  import opened Sums
  import opened PositionRows
  import opened Book
  import opened BookConservation

  // ---- One open position per key ----

  predicate OneOpenPerKey(rows: seq<PositionRow>) {
    forall i, j :: 0 <= i < j < |rows| && rows[i].isOpen && rows[j].isOpen ==>
      rows[i].strategyId != rows[j].strategyId || rows[i].symbol != rows[j].symbol
  }

  /** Keys never change, closed rows stay closed, and only dividends still reach them. */
  predicate Succeeds(before: seq<PositionRow>, after: seq<PositionRow>) {
    && |before| <= |after|
    && forall i :: 0 <= i < |before| ==>
      && after[i].strategyId == before[i].strategyId && after[i].symbol == before[i].symbol
      && after[i].side == before[i].side && after[i].multiplier == before[i].multiplier
      && (!before[i].isOpen ==> after[i] == before[i].(totalDividends := after[i].totalDividends))
  }

  lemma {:induction false} PayKeepsRows(b: Book, k: nat, today: int)
    requires k <= |b.payments|
    ensures |PayFrom(b, k, today).positions| == |b.positions|
    ensures forall i :: 0 <= i < |b.positions| ==>
      PayFrom(b, k, today).positions[i] == b.positions[i].(totalDividends := PayFrom(b, k, today).positions[i].totalDividends)
    ensures PayFrom(b, k, today).ledger == b.ledger
    decreases |b.payments| - k
  {
    if k < |b.payments| {
      PayKeepsRows(if Due(b.payments[k], today) then PayOne(b, k) else b, k + 1, today);
    }
  }

  lemma FilledRowKeepsKey(row: PositionRow, fill: Fill, order: Order)
    requires row.qty > 0.0 && fill.qty > 0.0
    ensures var after := FilledRow(row, fill, order);
            after.strategyId == row.strategyId && after.symbol == row.symbol && after.side == row.side && after.multiplier == row.multiplier
  {}

  lemma FillKeepsKeys(b: Book, fill: Fill, order: Order)
    requires RowsConsistent(b) && WellFormedFill(fill, order) && OneOpenPerKey(b.positions)
    ensures OneOpenPerKey(ApplyFill(b, fill, order).positions)
    ensures Succeeds(b.positions, ApplyFill(b, fill, order).positions)
  {
    var i := FindOpen(b.positions, order.strategyId, order.symbol);
    if i < |b.positions| {
      FilledRowKeepsKey(b.positions[i], fill, order);
    }
  }

  lemma StepKeepsKeys(b: Book, e: Event)
    requires RowsConsistent(b) && Proper(e) && OneOpenPerKey(b.positions)
    ensures OneOpenPerKey(Step(b, e).positions)
    ensures Succeeds(b.positions, Step(b, e).positions)
  {
    match e
    case PayableDate(today) => PayKeepsRows(b, 0, today);
    case Filled(fill, order) => FillKeepsKeys(b, fill, order);
    case _ =>
  }

  // ---- Ledgers agree with positions ----

  function NetOf(i: nat): LedgerEntry -> real {
    (e: LedgerEntry) => if e.positionId == i then e.netPnl else 0.0
  }

  function QtyOf(i: nat): LedgerEntry -> real {
    (e: LedgerEntry) => if e.positionId == i then e.qtyClosed else 0.0
  }

  function PaidTo(i: nat): Payment -> real {
    (p: Payment) => if p.positionId == i && p.paid then p.netAmount else 0.0
  }

  predicate Referenced(b: Book) {
    && (forall k :: 0 <= k < |b.ledger| ==> b.ledger[k].positionId < |b.positions|)
    && (forall k :: 0 <= k < |b.payments| ==> b.payments[k].positionId < |b.positions|)
  }

  /** A position's realised profit and dividends are the sums of its own entries. */
  ghost predicate LedgersAgree(b: Book) {
    && Referenced(b)
    && (forall i :: 0 <= i < |b.positions| ==> SumOver(b.ledger, NetOf(i)) == b.positions[i].realizedPnl)
    && (forall i :: 0 <= i < |b.positions| ==> SumOver(b.payments, PaidTo(i)) == b.positions[i].totalDividends)
  }

  lemma {:induction false} SumOfZeros<T>(rows: seq<T>, f: T -> real)
    requires forall k :: 0 <= k < |rows| ==> f(rows[k]) == 0.0
    ensures SumOver(rows, f) == 0.0
  {
    if rows != [] {
      SumOfZeros(rows[1..], f);
    }
  }

  lemma FillKeepsLedgers(b: Book, fill: Fill, order: Order)
    requires RowsConsistent(b) && WellFormedFill(fill, order) && LedgersAgree(b)
    ensures LedgersAgree(ApplyFill(b, fill, order))
  {
    var after := ApplyFill(b, fill, order);
    var at := FindOpen(b.positions, order.strategyId, order.symbol);
    forall i | 0 <= i < |after.positions|
      ensures SumOver(after.ledger, NetOf(i)) == after.positions[i].realizedPnl
      ensures SumOver(after.payments, PaidTo(i)) == after.positions[i].totalDividends
    {
      if i == |b.positions| {
        SumOfZeros(b.ledger, NetOf(i));
        SumOfZeros(b.payments, PaidTo(i));
      } else if at < |b.positions| && ScenarioFor(b.positions[at], order) != ScaleIn {
        var row := b.positions[at];
        SumAppend(b.ledger, CloseEntry(at, row, fill, ClosedQty(row, fill, order), BookedPnl(row, fill, order)), NetOf(i));
      }
    }
  }

  lemma RowsKeepLedgers(b: Book, rows: seq<PositionRow>)
    requires LedgersAgree(b) && |rows| == |b.positions|
    requires forall i :: 0 <= i < |rows| ==>
      rows[i].realizedPnl == b.positions[i].realizedPnl && rows[i].totalDividends == b.positions[i].totalDividends
    ensures LedgersAgree(b.(positions := rows))
  {}

  lemma {:induction false} PendFromKeepsLedgers(rows: seq<PositionRow>, payments: seq<Payment>, a: Announcement, i: nat)
    requires i <= |rows|
    requires forall k :: 0 <= k < |payments| ==> payments[k].positionId < |rows|
    ensures forall k :: 0 <= k < |PendFrom(rows, payments, a, i)| ==> PendFrom(rows, payments, a, i)[k].positionId < |rows|
    ensures forall id: nat :: SumOver(PendFrom(rows, payments, a, i), PaidTo(id)) == SumOver(payments, PaidTo(id))
    decreases |rows| - i
  {
    if i < |rows| {
      if Splits(rows[i], a.symbol) && !HasPayment(payments, i, a.id) {
        var more := payments + [PaymentFor(i, rows[i], a)];
        PendFromKeepsLedgers(rows, more, a, i + 1);
        forall id: nat ensures SumOver(more, PaidTo(id)) == SumOver(payments, PaidTo(id)) {
          SumAppend(payments, PaymentFor(i, rows[i], a), PaidTo(id));
        }
      } else {
        PendFromKeepsLedgers(rows, payments, a, i + 1);
      }
    }
  }

  lemma {:induction false} PendAllKeepsLedgers(rows: seq<PositionRow>, payments: seq<Payment>, announcements: seq<Announcement>)
    requires forall k :: 0 <= k < |payments| ==> payments[k].positionId < |rows|
    ensures forall k :: 0 <= k < |PendAll(rows, payments, announcements)| ==> PendAll(rows, payments, announcements)[k].positionId < |rows|
    ensures forall id: nat :: SumOver(PendAll(rows, payments, announcements), PaidTo(id)) == SumOver(payments, PaidTo(id))
    decreases |announcements|
  {
    if announcements != [] {
      PendFromKeepsLedgers(rows, payments, announcements[0], 0);
      PendAllKeepsLedgers(rows, PendFrom(rows, payments, announcements[0], 0), announcements[1..]);
    }
  }

  lemma PayOneKeepsLedgers(b: Book, k: nat)
    requires LedgersAgree(b) && k < |b.payments| && !b.payments[k].paid
    ensures LedgersAgree(PayOne(b, k))
  {
    var p := b.payments[k];
    forall i | 0 <= i < |b.positions|
      ensures SumOver(PayOne(b, k).payments, PaidTo(i)) == PayOne(b, k).positions[i].totalDividends
    {
      SumUpdate(b.payments, k, p.(paid := true), PaidTo(i));
    }
  }

  lemma {:induction false} PayKeepsLedgers(b: Book, k: nat, today: int)
    requires LedgersAgree(b) && k <= |b.payments|
    ensures LedgersAgree(PayFrom(b, k, today))
    decreases |b.payments| - k
  {
    if k < |b.payments| {
      if Due(b.payments[k], today) {
        PayOneKeepsLedgers(b, k);
        PayKeepsLedgers(PayOne(b, k), k + 1, today);
      } else {
        PayKeepsLedgers(b, k + 1, today);
      }
    }
  }

  lemma StepKeepsLedgers(b: Book, e: Event)
    requires RowsConsistent(b) && Proper(e) && LedgersAgree(b)
    ensures LedgersAgree(Step(b, e))
  {
    match e
    case Filled(fill, order) => FillKeepsLedgers(b, fill, order);
    case ExDate(announcements) => PendAllKeepsLedgers(b.positions, b.payments, announcements);
    case PayableDate(today) => PayKeepsLedgers(b, 0, today);
    case Marked(openMarkets, closes) => RowsKeepLedgers(b, Step(b, e).positions);
    case SplitApplied(action) => RowsKeepLedgers(b, Step(b, e).positions);
    case _ => RowsKeepLedgers(b, b.positions);
  }

  // ---- Dividends are paid once ----

  predicate OncePerAnnouncement(payments: seq<Payment>) {
    forall k, l :: 0 <= k < l < |payments| ==>
      payments[k].positionId != payments[l].positionId || payments[k].announcementId != payments[l].announcementId
  }

  /** Payments are never removed or rewritten; a pending one may become paid, never back. */
  predicate PaymentsGrow(before: seq<Payment>, after: seq<Payment>) {
    && |before| <= |after|
    && forall k :: 0 <= k < |before| ==>
      after[k] == before[k].(paid := after[k].paid) && (before[k].paid ==> after[k].paid)
  }

  lemma {:induction false} PendFromOnce(rows: seq<PositionRow>, payments: seq<Payment>, a: Announcement, i: nat)
    requires i <= |rows| && OncePerAnnouncement(payments)
    ensures OncePerAnnouncement(PendFrom(rows, payments, a, i))
    ensures payments <= PendFrom(rows, payments, a, i)
    ensures forall j :: i <= j < |rows| && Splits(rows[j], a.symbol) ==> HasPayment(PendFrom(rows, payments, a, i), j, a.id)
    decreases |rows| - i
  {
    if i < |rows| {
      var more := if Splits(rows[i], a.symbol) && !HasPayment(payments, i, a.id)
                  then payments + [PaymentFor(i, rows[i], a)] else payments;
      assert Splits(rows[i], a.symbol) ==> HasPayment(more, i, a.id) by {
        if Splits(rows[i], a.symbol) && !HasPayment(payments, i, a.id) {
          assert more[|payments|] == PaymentFor(i, rows[i], a);
        }
      }
      PendFromOnce(rows, more, a, i + 1);
      HasPaymentGrows(more, PendFrom(rows, more, a, i + 1), i, a.id);
    }
  }

  lemma HasPaymentGrows(payments: seq<Payment>, more: seq<Payment>, positionId: nat, announcementId: nat)
    requires payments <= more
    ensures HasPayment(payments, positionId, announcementId) ==> HasPayment(more, positionId, announcementId)
  {
    if HasPayment(payments, positionId, announcementId) {
      var k :| 0 <= k < |payments| && payments[k].positionId == positionId && payments[k].announcementId == announcementId;
      assert more[k] == payments[k];
    }
  }

  lemma {:induction false} PendAllOnce(rows: seq<PositionRow>, payments: seq<Payment>, announcements: seq<Announcement>)
    requires OncePerAnnouncement(payments)
    ensures OncePerAnnouncement(PendAll(rows, payments, announcements))
    ensures payments <= PendAll(rows, payments, announcements)
    ensures forall n, j :: 0 <= n < |announcements| && 0 <= j < |rows| && Splits(rows[j], announcements[n].symbol) ==>
      HasPayment(PendAll(rows, payments, announcements), j, announcements[n].id)
    decreases |announcements|
  {
    if announcements != [] {
      var a, more := announcements[0], PendFrom(rows, payments, announcements[0], 0);
      PendFromOnce(rows, payments, a, 0);
      PendAllOnce(rows, more, announcements[1..]);
      var all := PendAll(rows, more, announcements[1..]);
      forall n, j | 0 <= n < |announcements| && 0 <= j < |rows| && Splits(rows[j], announcements[n].symbol)
        ensures HasPayment(all, j, announcements[n].id)
      {
        if n == 0 {
          HasPaymentGrows(more, all, j, a.id);
        } else {
          assert announcements[n] == announcements[1..][n - 1];
        }
      }
    }
  }

  lemma {:induction false} PayFromGrows(b: Book, k: nat, today: int)
    requires k <= |b.payments|
    ensures PaymentsGrow(b.payments, PayFrom(b, k, today).payments)
    ensures |PayFrom(b, k, today).payments| == |b.payments|
    ensures forall l :: k <= l < |b.payments| ==> !Due(PayFrom(b, k, today).payments[l], today)
    ensures forall l :: 0 <= l < k ==> PayFrom(b, k, today).payments[l] == b.payments[l]
    decreases |b.payments| - k
  {
    if k < |b.payments| {
      PayFromGrows(if Due(b.payments[k], today) then PayOne(b, k) else b, k + 1, today);
    }
  }

  lemma StepKeepsPayments(b: Book, e: Event)
    requires RowsConsistent(b) && Proper(e) && OncePerAnnouncement(b.payments)
    ensures OncePerAnnouncement(Step(b, e).payments)
    ensures PaymentsGrow(b.payments, Step(b, e).payments)
  {
    match e
    case ExDate(announcements) => PendAllOnce(b.positions, b.payments, announcements);
    case PayableDate(today) => PayFromGrows(b, 0, today);
    case _ =>
  }

  lemma {:induction false} NothingToPend(rows: seq<PositionRow>, payments: seq<Payment>, a: Announcement, i: nat)
    requires i <= |rows|
    requires forall j :: i <= j < |rows| && Splits(rows[j], a.symbol) ==> HasPayment(payments, j, a.id)
    ensures PendFrom(rows, payments, a, i) == payments
    decreases |rows| - i
  {
    if i < |rows| {
      NothingToPend(rows, payments, a, i + 1);
    }
  }

  lemma {:induction false} NothingToPendAll(rows: seq<PositionRow>, payments: seq<Payment>, announcements: seq<Announcement>)
    requires forall n, j :: 0 <= n < |announcements| && 0 <= j < |rows| && Splits(rows[j], announcements[n].symbol) ==>
      HasPayment(payments, j, announcements[n].id)
    ensures PendAll(rows, payments, announcements) == payments
    decreases |announcements|
  {
    if announcements != [] {
      NothingToPend(rows, payments, announcements[0], 0);
      NothingToPendAll(rows, payments, announcements[1..]);
    }
  }

  lemma {:induction false} NothingDue(b: Book, k: nat, today: int)
    requires k <= |b.payments|
    requires forall l :: k <= l < |b.payments| ==> !Due(b.payments[l], today)
    ensures PayFrom(b, k, today) == b
    decreases |b.payments| - k
  {
    if k < |b.payments| {
      NothingDue(b, k + 1, today);
    }
  }

  /** Rerunning either daily dividend job on the same day changes nothing. */
  lemma DividendJobsAreIdempotent(b: Book, announcements: seq<Announcement>, today: int)
    requires OncePerAnnouncement(b.payments)
    ensures var pended := b.(payments := PendAll(b.positions, b.payments, announcements));
            PendAll(pended.positions, pended.payments, announcements) == pended.payments
    ensures PayFrom(PayFrom(b, 0, today), 0, today) == PayFrom(b, 0, today)
  {
    PendAllOnce(b.positions, b.payments, announcements);
    NothingToPendAll(b.positions, PendAll(b.positions, b.payments, announcements), announcements);
    PayFromGrows(b, 0, today);
    NothingDue(PayFrom(b, 0, today), 0, today);
  }

  // ---- Every run ----

  ghost predicate Sound(b: Book) {
    RowsConsistent(b) && OneOpenPerKey(b.positions) && LedgersAgree(b) && OncePerAnnouncement(b.payments)
  }

  /** In every reachable book: at most one open position per strategy and symbol, quantity
    * exactly in the open ones, ledgers and dividends in agreement with the positions, and no
    * announcement paid twice to a position. Nothing already closed or paid is rewritten. */
  lemma {:induction false} RunsStaySound(b: Book, events: seq<Event>)
    requires Sound(b) && AllProper(events)
    ensures Sound(Run(b, events))
    ensures Succeeds(b.positions, Run(b, events).positions)
    ensures PaymentsGrow(b.payments, Run(b, events).payments)
    decreases |events|
  {
    if events != [] {
      StepConserves(b, events[0]);
      StepKeepsKeys(b, events[0]);
      StepKeepsLedgers(b, events[0]);
      StepKeepsPayments(b, events[0]);
      RunsStaySound(Step(b, events[0]), events[1..]);
    }
  }

  lemma ReachableBooksAreSound(events: seq<Event>)
    requires AllProper(events)
    ensures Sound(Run(EMPTY, events))
  {
    RunsStaySound(EMPTY, events);
  }

  // ---- Peak equity ----

  lemma {:induction false} PayKeepsPeak(b: Book, k: nat, today: int)
    requires k <= |b.payments|
    ensures PayFrom(b, k, today).peak == b.peak
    decreases |b.payments| - k
  {
    if k < |b.payments| {
      PayKeepsPeak(if Due(b.payments[k], today) then PayOne(b, k) else b, k + 1, today);
    }
  }

  /** Short of an administrator's reset, a stored peak never falls, and a peak that was never
    * initialised is never created: marks alone do not start one. */
  lemma {:induction false} PeakIsHighWaterMark(b: Book, events: seq<Event>)
    requires RowsConsistent(b) && AllProper(events)
    requires forall k :: 0 <= k < |events| ==> !events[k].PeakReset?
    ensures b.peak.Some? ==> Run(b, events).peak.Some? && Run(b, events).peak.value >= b.peak.value
    ensures b.peak.None? && (forall k :: 0 <= k < |events| ==> !events[k].CashInitialized?) ==> Run(b, events).peak.None?
    decreases |events|
  {
    if events != [] {
      var e := events[0];
      StepConserves(b, e);
      if e.PayableDate? {
        PayKeepsPeak(b, 0, e.today);
      }
      PeakIsHighWaterMark(Step(b, e), events[1..]);
    }
  }

  /** A cycle that marks anything leaves a stored peak no lower than the new equity. */
  lemma MarkedPeakCoversEquity(b: Book, openMarkets: set<string>, closes: map<string, real>)
    requires b.peak.Some?
    requires exists i :: 0 <= i < |b.positions| && Marks(b.positions[i], openMarkets, closes)
    ensures var after := ApplyMarks(b, openMarkets, closes);
            after.peak.Some? && after.peak.value == Max(b.peak.value, Equity(after))
  {
    var after := ApplyMarks(b, openMarkets, closes);
    var marked := after.(peak := b.peak);
    assert Equity(after) == Equity(marked);
    assert after.peak == RaisedPeak(b.peak, Equity(marked));
  }

  /** There is a drawdown exactly when equity is below a positive stored peak, and it is at most
    * 100 percent exactly when equity is not negative then. */
  lemma DrawdownIffBelowPeak(b: Book)
    ensures CurrentDrawdown(b) >= 0.0
    ensures CurrentDrawdown(b) > 0.0 <==> b.peak.Some? && b.peak.value > 0.0 && Equity(b) < b.peak.value
    ensures CurrentDrawdown(b) > 100.0 <==> b.peak.Some? && b.peak.value > 0.0 && Equity(b) < 0.0
  {
    if b.peak.Some? && b.peak.value > 0.0 {
      PercentOf(b.peak.value - Equity(b), b.peak.value);
    }
  }

  /** A ratio exceeds a bound exactly when the numerator exceeds it times the denominator. */
  lemma PercentOf(fall: real, peak: real)
    requires peak > 0.0
    ensures fall / peak * 100.0 > 0.0 <==> fall > 0.0
    ensures fall / peak * 100.0 > 100.0 <==> fall > peak
  {
    RatioAbove(fall, peak, 0.0);
    RatioAbove(fall, peak, 1.0);
  }
}

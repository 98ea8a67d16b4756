/** What every dividend payment is for, and when it is paid. */
module BookDividends {
  import opened PositionRows
  import opened Book
  import opened BookConservation
  import opened BookShape

  /** `p` is due to one of the rows, open in the announced symbol, for its whole quantity times the
    * announced amount, and is not paid yet. */
  predicate OwedFor(rows: seq<PositionRow>, a: Announcement, p: Payment) {
    && p.positionId < |rows| && rows[p.positionId].isOpen && rows[p.positionId].symbol == a.symbol == p.symbol
    && p.announcementId == a.id && p.payableDate == a.payableDate
    && p.sharesHeld == rows[p.positionId].qty && p.netAmount == rows[p.positionId].qty * a.cashAmount && !p.paid
  }

  predicate Owed(rows: seq<PositionRow>, announcements: seq<Announcement>, p: Payment) {
    exists n :: 0 <= n < |announcements| && OwedFor(rows, announcements[n], p)
  }

  lemma {:induction false} PendFromOwes(rows: seq<PositionRow>, payments: seq<Payment>, a: Announcement, i: nat)
    requires i <= |rows|
    ensures payments <= PendFrom(rows, payments, a, i)
    ensures forall k :: |payments| <= k < |PendFrom(rows, payments, a, i)| ==> OwedFor(rows, a, PendFrom(rows, payments, a, i)[k])
    decreases |rows| - i
  {
    if i < |rows| {
      var more := if Splits(rows[i], a.symbol) && !HasPayment(payments, i, a.id)
                  then payments + [PaymentFor(i, rows[i], a)] else payments;
      PendFromOwes(rows, more, a, i + 1);
      assert PendFrom(rows, payments, a, i) == PendFrom(rows, more, a, i + 1);
    }
  }

  lemma {:induction false} PendAllOwes(rows: seq<PositionRow>, payments: seq<Payment>, announcements: seq<Announcement>)
    ensures payments <= PendAll(rows, payments, announcements)
    ensures forall k :: |payments| <= k < |PendAll(rows, payments, announcements)| ==>
              Owed(rows, announcements, PendAll(rows, payments, announcements)[k])
    decreases |announcements|
  {
    if announcements != [] {
      var more := PendFrom(rows, payments, announcements[0], 0);
      var all := PendAll(rows, more, announcements[1..]);
      PendFromOwes(rows, payments, announcements[0], 0);
      PendAllOwes(rows, more, announcements[1..]);
      forall k | |payments| <= k < |all| ensures Owed(rows, announcements, all[k]) {
        if k < |more| {
          assert OwedFor(rows, announcements[0], all[k]);
        } else {
          var n :| 0 <= n < |announcements[1..]| && OwedFor(rows, announcements[1..][n], all[k]);
          assert announcements[n + 1] == announcements[1..][n];
        }
      }
    }
  }

  predicate Holds(rows: seq<PositionRow>, i: int, symbol: string) {
    0 <= i < |rows| && rows[i].isOpen && rows[i].symbol == symbol
  }

  /** The ex-date job adds what each open position of an announced symbol is owed for what it holds
    * then, and leaves no such position without its payment. */
  lemma ExDatePends(b: Book, announcements: seq<Announcement>)
    requires OncePerAnnouncement(b.payments) && OpenRowsHold(b)
    ensures var after := Step(b, ExDate(announcements)).payments;
            && b.payments <= after
            && (forall k :: |b.payments| <= k < |after| ==> Owed(b.positions, announcements, after[k]))
            && (forall n, i :: 0 <= n < |announcements| && Holds(b.positions, i, announcements[n].symbol) ==>
                  HasPayment(after, i, announcements[n].id))
  {
    PendAllOwes(b.positions, b.payments, announcements);
    PendAllOnce(b.positions, b.payments, announcements);
  }

  lemma {:induction false} PayFromPays(b: Book, k: nat, today: int)
    requires k <= |b.payments|
    ensures |PayFrom(b, k, today).payments| == |b.payments|
    ensures forall l :: 0 <= l < |b.payments| ==>
              PayFrom(b, k, today).payments[l]
              == b.payments[l].(paid := b.payments[l].paid || (l >= k && b.payments[l].payableDate <= today))
    decreases |b.payments| - k
  {
    if k < |b.payments| {
      PayFromPays(if Due(b.payments[k], today) then PayOne(b, k) else b, k + 1, today);
    }
  }

  /** The payable-date job pays exactly what is payable by then, and changes nothing else of any
    * payment. */
  lemma PayableDatePays(b: Book, today: int)
    requires OpenRowsHold(b)
    ensures var after := Step(b, PayableDate(today)).payments;
            && |after| == |b.payments|
            && forall k :: 0 <= k < |after| ==>
                 after[k] == b.payments[k].(paid := b.payments[k].paid || b.payments[k].payableDate <= today)
  {
    PayFromPays(b, 0, today);
  }

  // ---- Runs ----

  /** An ex-date job of the run owed it, on the positions as the run had left them. */
  ghost predicate Announced(b: Book, events: seq<Event>, p: Payment)
    requires RowsConsistent(b) && AllProper(events)
  {
    exists j :: 0 <= j < |events| && events[j].ExDate? && Owed(Run(b, events[..j]).positions, events[j].announcements, p.(paid := false))
  }

  /** A payable-date job of the run was late enough for it. */
  ghost predicate CameDue(events: seq<Event>, p: Payment) {
    exists j :: 0 <= j < |events| && events[j].PayableDate? && p.payableDate <= events[j].today
  }

  lemma AnnouncedLater(b: Book, events: seq<Event>, p: Payment)
    requires RowsConsistent(b) && AllProper(events) && events != []
    requires (StepConserves(b, events[0]); Announced(Step(b, events[0]), events[1..], p))
    ensures Announced(b, events, p)
  {
    StepConserves(b, events[0]);
    var next, rest := Step(b, events[0]), events[1..];
    var j :| 0 <= j < |rest| && rest[j].ExDate? && Owed(Run(next, rest[..j]).positions, rest[j].announcements, p.(paid := false));
    assert events[..j + 1][0] == events[0] && events[..j + 1][1..] == rest[..j];
    assert Run(b, events[..j + 1]) == Run(next, rest[..j]);
    assert events[j + 1] == rest[j];
  }

  lemma CameDueLater(events: seq<Event>, p: Payment)
    requires events != [] && CameDue(events[1..], p)
    ensures CameDue(events, p)
  {
    var j :| 0 <= j < |events[1..]| && events[1..][j].PayableDate? && p.payableDate <= events[1..][j].today;
    assert events[j + 1] == events[1..][j];
  }

  /** A payment a step adds was owed then, and one it pays had come due. */
  lemma StepPayment(b: Book, e: Event, k: nat)
    requires Sound(b) && Proper(e) && k < |Step(b, e).payments|
    ensures k < |b.payments| || (e.ExDate? && Owed(b.positions, e.announcements, Step(b, e).payments[k]))
    ensures Step(b, e).payments[k].paid ==>
              (k < |b.payments| && b.payments[k].paid) || (e.PayableDate? && Step(b, e).payments[k].payableDate <= e.today)
  {
    match e
    case ExDate(announcements) => ExDatePends(b, announcements);
    case PayableDate(today) => PayableDatePays(b, today);
    case _ =>
  }

  ghost predicate Accounted(b: Book, events: seq<Event>, k: nat, p: Payment)
    requires RowsConsistent(b) && AllProper(events)
  {
    && (k < |b.payments| || Announced(b, events, p))
    && (p.paid ==> (k < |b.payments| && b.payments[k].paid) || CameDue(events, p))
  }

  lemma {:induction false} PaymentIsAccounted(b: Book, events: seq<Event>, k: nat)
    requires Sound(b) && AllProper(events) && k < |Run(b, events).payments|
    ensures Accounted(b, events, k, Run(b, events).payments[k])
    decreases |events|
  {
    if events != [] {
      var e, rest := events[0], events[1..];
      StepConserves(b, e);
      StepKeepsKeys(b, e);
      StepKeepsLedgers(b, e);
      StepKeepsPayments(b, e);
      var next, p := Step(b, e), Run(b, events).payments[k];
      PaymentIsAccounted(next, rest, k);
      RunsStaySound(next, rest);
      if k < |next.payments| {
        StepPayment(b, e, k);
        assert p == next.payments[k].(paid := p.paid);
        if k >= |b.payments| {
          assert events[..0] == [] && Run(b, events[..0]) == b;
          assert next.payments[k].(paid := false) == p.(paid := false);
          assert Announced(b, events, p);
        }
        if p.paid && !(k < |b.payments| && b.payments[k].paid) {
          if next.payments[k].paid {
            assert CameDue(events, p);
          } else {
            CameDueLater(events, p);
          }
        }
      } else {
        AnnouncedLater(b, events, p);
        if p.paid {
          CameDueLater(events, p);
        }
      }
    }
  }

  /** In every reachable book every payment is for the shares its position held at an ex-date job,
    * times the amount announced then; and none is paid before a payable-date job on or after its
    * payable date. */
  lemma PaymentsAreAccounted(events: seq<Event>)
    requires AllProper(events)
    ensures var b := Run(EMPTY, events);
            forall k :: 0 <= k < |b.payments| ==>
              Announced(EMPTY, events, b.payments[k]) && (b.payments[k].paid ==> CameDue(events, b.payments[k]))
  {
    forall k: nat | k < |Run(EMPTY, events).payments|
      ensures Accounted(EMPTY, events, k, Run(EMPTY, events).payments[k])
    {
      PaymentIsAccounted(EMPTY, events, k);
    }
  }
}

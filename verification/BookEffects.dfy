/** Which account, position and ledger entry each event of the book touches, and which it leaves alone. */
module BookEffects {
  import opened Sums
  import opened PositionRows
  import opened Book
  import opened BookConservation

  // ---- Accounts ----

  function InScope(scope: string): CashRow -> real {
    (row: CashRow) => if row.scope == scope then row.balance else 0.0
  }

  ghost function BalanceOf(cash: seq<CashRow>, scope: string): real {
    SumOver(cash, InScope(scope))
  }

  /** Money moved to one account stays out of all others. */
  lemma CreditMoves(cash: seq<CashRow>, scope: string, delta: real, other: string)
    ensures BalanceOf(Credit(cash, scope, delta), other) == BalanceOf(cash, other) + if other == scope then delta else 0.0
  {
    var i := FindScope(cash, scope);
    if i < |cash| {
      SumUpdate(cash, i, cash[i].(balance := cash[i].balance + delta), InScope(other));
    } else {
      SumAppend(cash, CashRow(scope, delta), InScope(other));
    }
  }

  /** A fill's money moves in one account: the broker's for a forex fill that names one, else the
    * equities account. A buy takes its net value out, a sale brings it in. */
  lemma FillMovesOneAccount(b: Book, fill: Fill, order: Order, other: string)
    requires WellFormedFill(fill, order) && OpenRowsHold(b)
    ensures var scope := if order.market == "forex" && fill.brokerAccount != "" then fill.brokerAccount else "equities";
            BalanceOf(Step(b, Filled(fill, order)).cash, other) == BalanceOf(b.cash, other)
              + if other != scope then 0.0 else if order.action == Buy then -fill.netValue else fill.netValue
  {
    CreditMoves(b.cash, FillScope(fill, order), CashDelta(fill, order), other);
  }

  function Paying(today: int): Payment -> real {
    (p: Payment) => if !p.paid && p.payableDate <= today then p.netAmount else 0.0
  }

  lemma {:induction false} PayFromMoves(b: Book, k: nat, today: int, other: string)
    requires k <= |b.payments|
    ensures BalanceOf(PayFrom(b, k, today).cash, other)
            == BalanceOf(b.cash, other) + if other == "equities" then SumOver(b.payments[k..], Paying(today)) else 0.0
    decreases |b.payments| - k
  {
    if k < |b.payments| {
      assert b.payments[k..][0] == b.payments[k] && b.payments[k..][1..] == b.payments[k + 1..];
      if Due(b.payments[k], today) {
        var next := PayOne(b, k);
        assert next.payments[k + 1..] == b.payments[k + 1..];
        CreditMoves(b.cash, "equities", b.payments[k].netAmount, other);
        PayFromMoves(next, k + 1, today, other);
      } else {
        PayFromMoves(b, k + 1, today, other);
      }
    }
  }

  /** The payable-date job brings into the equities account exactly what it pays. */
  lemma DividendsMoveOneAccount(b: Book, today: int, other: string)
    requires OpenRowsHold(b)
    ensures BalanceOf(Step(b, PayableDate(today)).cash, other)
            == BalanceOf(b.cash, other) + if other == "equities" then SumOver(b.payments, Paying(today)) else 0.0
  {
    assert b.payments[0..] == b.payments;
    PayFromMoves(b, 0, today, other);
  }

  predicate HasAccount(cash: seq<CashRow>, scope: string) {
    exists k :: 0 <= k < |cash| && cash[k].scope == scope
  }

  lemma {:induction false} OpenAccountsKeeps(cash: seq<CashRow>, accounts: seq<CashRow>)
    ensures cash <= OpenAccounts(cash, accounts)
    ensures forall k :: |cash| <= k < |OpenAccounts(cash, accounts)| ==>
              OpenAccounts(cash, accounts)[k] in accounts && FindScope(cash, OpenAccounts(cash, accounts)[k].scope) == |cash|
    ensures forall n :: 0 <= n < |accounts| ==> HasAccount(OpenAccounts(cash, accounts), accounts[n].scope)
    decreases |accounts|
  {
    if accounts != [] {
      var at := FindScope(cash, accounts[0].scope);
      var more := if at < |cash| then cash else cash + [accounts[0]];
      var all := OpenAccounts(more, accounts[1..]);
      OpenAccountsKeeps(more, accounts[1..]);
      assert OpenAccounts(cash, accounts) == all;
      assert all[at].scope == accounts[0].scope;
      forall n | 0 <= n < |accounts| ensures HasAccount(all, accounts[n].scope) {
        if n > 0 {
          assert accounts[n] == accounts[1..][n - 1];
        }
      }
      forall k | |cash| <= k < |all| ensures all[k] in accounts && FindScope(cash, all[k].scope) == |cash| {
        if k < |more| {
          assert all[k] == more[k];
        } else {
          NotFoundBefore(cash, more, all[k].scope);
        }
      }
    }
  }

  lemma NotFoundBefore(cash: seq<CashRow>, more: seq<CashRow>, scope: string)
    requires cash <= more && FindScope(more, scope) == |more|
    ensures FindScope(cash, scope) == |cash|
  {
    assert forall j :: 0 <= j < |cash| ==> more[j] == cash[j];
  }

  /** Initialising adds the accounts that are missing, with the balances asked for, and leaves those
    * there are alone; a peak that is missing starts at the cash there is then, and another stays. */
  lemma InitializingAddsTheMissing(b: Book, accounts: seq<CashRow>)
    requires OpenRowsHold(b)
    ensures var after := Step(b, CashInitialized(accounts));
            && b.cash <= after.cash
            && (forall k :: |b.cash| <= k < |after.cash| ==> after.cash[k] in accounts && FindScope(b.cash, after.cash[k].scope) == |b.cash|)
            && (forall n :: 0 <= n < |accounts| ==> HasAccount(after.cash, accounts[n].scope))
            && after.peak == if b.peak.Some? then b.peak else Some(SumOver(after.cash, Balance))
  {
    OpenAccountsKeeps(b.cash, accounts);
    SumSame(Step(b, CashInitialized(accounts)).cash, (c: CashRow) => c.balance, Step(b, CashInitialized(accounts)).cash, Balance);
  }

  // ---- Positions ----

  /** A mark reprices exactly the open positions of open markets whose symbol has a close, at that
    * close. */
  lemma MarksTouch(b: Book, openMarkets: set<string>, closes: map<string, real>, i: nat)
    requires OpenRowsHold(b) && i < |b.positions|
    ensures var row, after := b.positions[i], Step(b, Marked(openMarkets, closes)).positions;
            && |after| == |b.positions|
            && if row.isOpen && row.market in openMarkets && row.symbol in closes
               then after[i].currentPrice == closes[row.symbol] && after[i].isOpen
                    && after[i].qty == row.qty && after[i].avgEntryPrice == row.avgEntryPrice && after[i].costBasis == row.costBasis
               else after[i] == row
  {
  }

  /** A split restates exactly the open positions of its symbol. */
  lemma SplitsTouch(b: Book, action: SplitAction, i: nat)
    requires OpenRowsHold(b) && Proper(SplitApplied(action)) && i < |b.positions|
    ensures var row, after := b.positions[i], Step(b, SplitApplied(action)).positions;
            && |after| == |b.positions|
            && if row.isOpen && row.symbol == action.symbol && SplitRatio(action).Ratio?
               then after[i].qty == row.qty * SplitRatio(action).ratio && after[i].costBasis == row.costBasis
               else after[i] == row
  {
  }

  /** A fill touches the open position of its strategy and symbol, or adds one, and no other. */
  lemma FillTouches(b: Book, fill: Fill, order: Order, i: nat)
    requires WellFormedFill(fill, order) && OpenRowsHold(b) && i < |b.positions|
    ensures var row, after := b.positions[i], Step(b, Filled(fill, order)).positions;
            && |b.positions| <= |after|
            && (!row.isOpen || row.strategyId != order.strategyId || row.symbol != order.symbol ==> after[i] == row)
            && (row.isOpen && row.strategyId == order.strategyId && row.symbol == order.symbol ==> |after| == |b.positions|)
  {
  }

  // ---- The ledger ----

  /** The entry for closing `qty` of a position at the fill's price. */
  predicate RecordsClose(e: LedgerEntry, i: nat, row: PositionRow, fill: Fill, qty: real) {
    && e.positionId == i && e.strategyId == row.strategyId && e.symbol == row.symbol && e.side == row.side
    && e.qtyClosed == qty && e.entryPrice == row.avgEntryPrice && e.exitPrice == fill.price && e.fees == fill.fee
    && e.grossPnl == (if row.side == Long then (fill.price - row.avgEntryPrice) * qty * row.multiplier as real
                      else (row.avgEntryPrice - fill.price) * qty * row.multiplier as real)
    && e.netPnl == e.grossPnl - fill.fee
  }

  /** A fill against a position is recorded once, for as much of it as the position had; any other
    * records nothing. */
  lemma ClosesAreRecorded(b: Book, fill: Fill, order: Order)
    requires WellFormedFill(fill, order) && OpenRowsHold(b)
    ensures var i, after := FindOpen(b.positions, order.strategyId, order.symbol), Step(b, Filled(fill, order)).ledger;
            if i < |b.positions| && b.positions[i].side != SideOf(order.action)
            then |after| == |b.ledger| + 1 && after[..|b.ledger|] == b.ledger
                 && RecordsClose(after[|b.ledger|], i, b.positions[i], fill, Min(fill.qty, b.positions[i].qty))
            else after == b.ledger
  {
  }
}

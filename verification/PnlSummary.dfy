/** The ledger's summary: a total and its breakdown by strategy and by symbol. */
module PnlSummary {
  import opened Sums
  import opened Book

  function Net(e: LedgerEntry): real { e.netPnl }

  function One(e: LedgerEntry): real { 1.0 }

  /** What an entry weighs in the group of `k`. */
  function WeightIf<K(==)>(w: LedgerEntry -> real, key: LedgerEntry -> K, k: K): LedgerEntry -> real {
    (e: LedgerEntry) => if key(e) == k then w(e) else 0.0
  }

  function KeysOf<K>(ledger: seq<LedgerEntry>, key: LedgerEntry -> K): set<K> {
    set e | e in ledger :: key(e)
  }

  /** A group's total and how many entries it has. */
  datatype Group = Group(total: real, count: real)

  /** One row for each key that occurs. */
  ghost function Grouped<K>(ledger: seq<LedgerEntry>, key: LedgerEntry -> K): map<K, Group> {
    map k | k in KeysOf(ledger, key) :: Group(SumOver(ledger, WeightIf(Net, key, k)), SumOver(ledger, WeightIf(One, key, k)))
  }

  function StrategyOf(e: LedgerEntry): nat { e.strategyId }

  function SymbolOf(e: LedgerEntry): string { e.symbol }

  /** Which entries count: those of the strategy asked for, if any, in the period. */
  function NetOver(filter: Option<nat>, period: LedgerEntry -> bool): LedgerEntry -> real {
    (e: LedgerEntry) => if (filter.None? || e.strategyId == filter.value) && period(e) then e.netPnl else 0.0
  }

  function Outside(period: LedgerEntry -> bool): LedgerEntry -> bool {
    (e: LedgerEntry) => !period(e)
  }

  function NetChosen(filter: Option<nat>): LedgerEntry -> real {
    (e: LedgerEntry) => if filter.None? || e.strategyId == filter.value then e.netPnl else 0.0
  }

  datatype Summary = Summary(today: real, thisWeek: real, thisMonth: real, total: real,
                             byStrategy: map<nat, Group>, bySymbol: map<string, Group>)

  /** The periods are told by which entries closed in them. The strategy filter narrows the figures
    * but not the breakdowns, which always cover the ledger. */
  ghost function Summarize(ledger: seq<LedgerEntry>, filter: Option<nat>,
                           today: LedgerEntry -> bool, week: LedgerEntry -> bool, month: LedgerEntry -> bool): Summary {
    Summary(SumOver(ledger, NetOver(filter, today)), SumOver(ledger, NetOver(filter, week)), SumOver(ledger, NetOver(filter, month)),
            SumOver(ledger, NetChosen(filter)), Grouped(ledger, StrategyOf), Grouped(ledger, SymbolOf))
  }

  // ---- Sums over finite sets ----

  ghost function SumKeys<K>(keys: set<K>, f: K -> real): real
    decreases keys
  {
    if keys == {} then 0.0
    else
      var k :| k in keys;
      f(k) + SumKeys(keys - {k}, f)
  }

  /** The sum does not depend on the order keys are taken in. */
  lemma {:induction false} SumKeysTake<K>(keys: set<K>, k: K, f: K -> real)
    requires k in keys
    ensures SumKeys(keys, f) == f(k) + SumKeys(keys - {k}, f)
    decreases keys
  {
    var j :| j in keys && SumKeys(keys, f) == f(j) + SumKeys(keys - {j}, f);
    if j != k {
      SumKeysTake(keys - {j}, k, f);
      SumKeysTake(keys - {k}, j, f);
      assert keys - {j} - {k} == keys - {k} - {j};
    }
  }

  lemma {:induction false} SumKeysAdd<K>(keys: set<K>, f: K -> real, g: K -> real, h: K -> real)
    requires forall k :: k in keys ==> h(k) == f(k) + g(k)
    ensures SumKeys(keys, h) == SumKeys(keys, f) + SumKeys(keys, g)
    decreases keys
  {
    if keys != {} {
      var k :| k in keys;
      SumKeysTake(keys, k, f);
      SumKeysTake(keys, k, g);
      SumKeysTake(keys, k, h);
      SumKeysAdd(keys - {k}, f, g, h);
    }
  }

  lemma {:induction false} SumKeysPoint<K>(keys: set<K>, at: K, x: real)
    ensures SumKeys(keys, (k: K) => if k == at then x else 0.0) == if at in keys then x else 0.0
    decreases keys
  {
    var point := (k: K) => if k == at then x else 0.0;
    if keys != {} {
      var k :| k in keys;
      SumKeysTake(keys, k, point);
      SumKeysPoint(keys - {k}, at, x);
    }
  }

  lemma {:induction false} SumKeysZero<K>(keys: set<K>, f: K -> real)
    requires forall k :: k in keys ==> f(k) == 0.0
    ensures SumKeys(keys, f) == 0.0
    decreases keys
  {
    if keys != {} {
      var k :| k in keys;
      SumKeysTake(keys, k, f);
      SumKeysZero(keys - {k}, f);
    }
  }

  /** Grouping by any key loses nothing: over any set that covers the keys, the grouped sums
    * add up to the ledger. */
  lemma {:induction false} GroupsPartition<K>(ledger: seq<LedgerEntry>, w: LedgerEntry -> real, key: LedgerEntry -> K, keys: set<K>)
    requires KeysOf(ledger, key) <= keys
    ensures SumKeys(keys, (k: K) => SumOver(ledger, WeightIf(w, key, k))) == SumOver(ledger, w)
    decreases |ledger|
  {
    var groups := (k: K) => SumOver(ledger, WeightIf(w, key, k));
    if ledger == [] {
      SumKeysZero(keys, groups);
    } else {
      var e, rest := ledger[0], ledger[1..];
      assert e in ledger && forall x :: x in rest ==> x in ledger;
      assert key(e) in KeysOf(ledger, key);
      GroupsPartition(rest, w, key, keys);
      var restGroups := (k: K) => SumOver(rest, WeightIf(w, key, k));
      var point := (k: K) => if k == key(e) then w(e) else 0.0;
      SumKeysPoint(keys, key(e), w(e));
      SumKeysAdd(keys, point, restGroups, groups);
    }
  }

  /** All groups' totals, and all their counts. */
  ghost function AllTotals<K>(m: map<K, Group>): real {
    SumKeys(m.Keys, TotalIn(m))
  }

  ghost function AllCounts<K>(m: map<K, Group>): real {
    SumKeys(m.Keys, CountIn(m))
  }

  ghost function TotalIn<K>(m: map<K, Group>): K -> real {
    (k: K) => if k in m then m[k].total else 0.0
  }

  ghost function CountIn<K>(m: map<K, Group>): K -> real {
    (k: K) => if k in m then m[k].count else 0.0
  }

  lemma {:induction false} SumKeysSame<K>(keys: set<K>, f: K -> real, g: K -> real)
    requires forall k :: k in keys ==> f(k) == g(k)
    ensures SumKeys(keys, f) == SumKeys(keys, g)
    decreases keys
  {
    if keys != {} {
      var k :| k in keys;
      SumKeysTake(keys, k, f);
      SumKeysTake(keys, k, g);
      SumKeysSame(keys - {k}, f, g);
    }
  }

  lemma {:induction false} SumOfOnes(ledger: seq<LedgerEntry>)
    ensures SumOver(ledger, One) == |ledger| as real
  {
    if ledger != [] {
      SumOfOnes(ledger[1..]);
    }
  }

  lemma GroupTotalsAddUp<K>(ledger: seq<LedgerEntry>, key: LedgerEntry -> K)
    ensures AllTotals(Grouped(ledger, key)) == SumOver(ledger, Net)
  {
    var m, keys := Grouped(ledger, key), KeysOf(ledger, key);
    GroupsPartition(ledger, Net, key, keys);
    assert m.Keys == keys;
    SumKeysSame(keys, TotalIn(m), (k: K) => SumOver(ledger, WeightIf(Net, key, k)));
  }

  lemma GroupCountsAddUp<K>(ledger: seq<LedgerEntry>, key: LedgerEntry -> K)
    ensures AllCounts(Grouped(ledger, key)) == |ledger| as real
  {
    var m, keys := Grouped(ledger, key), KeysOf(ledger, key);
    GroupsPartition(ledger, One, key, keys);
    SumOfOnes(ledger);
    assert m.Keys == keys;
    SumKeysSame(keys, CountIn(m), (k: K) => SumOver(ledger, WeightIf(One, key, k)));
  }

  lemma {:induction false} AbsentKeySumsToZero<K>(ledger: seq<LedgerEntry>, key: LedgerEntry -> K, k: K)
    requires k !in KeysOf(ledger, key)
    ensures SumOver(ledger, WeightIf(Net, key, k)) == 0.0
    decreases |ledger|
  {
    if ledger != [] {
      assert ledger[0] in ledger && forall x :: x in ledger[1..] ==> x in ledger;
      assert key(ledger[0]) in KeysOf(ledger, key);
      AbsentKeySumsToZero(ledger[1..], key, k);
    }
  }

  /** A period's figure and the figure of what lies outside it make the total. */
  lemma PeriodSplitsTotal(ledger: seq<LedgerEntry>, filter: Option<nat>, period: LedgerEntry -> bool)
    ensures SumOver(ledger, NetChosen(filter))
            == SumOver(ledger, NetOver(filter, period)) + SumOver(ledger, NetOver(filter, Outside(period)))
  {
    forall i | 0 <= i < |ledger|
      ensures NetChosen(filter)(ledger[i]) == NetOver(filter, period)(ledger[i]) + NetOver(filter, Outside(period))(ledger[i])
    {
      assert Outside(period)(ledger[i]) == !period(ledger[i]);
    }
    SumSplit(ledger, NetChosen(filter), NetOver(filter, period), NetOver(filter, Outside(period)));
  }

  /** Unfiltered the total is the ledger's, filtered it is the chosen strategy's own row. */
  lemma TotalIsALedgerSum(ledger: seq<LedgerEntry>, filter: Option<nat>)
    ensures filter.None? ==> SumOver(ledger, NetChosen(filter)) == SumOver(ledger, Net)
    ensures var groups := Grouped(ledger, StrategyOf);
            filter.Some? ==>
              SumOver(ledger, NetChosen(filter)) == if filter.value in groups then groups[filter.value].total else 0.0
  {
    if filter.None? {
      SumSame(ledger, NetChosen(filter), ledger, Net);
    } else {
      forall i | 0 <= i < |ledger|
        ensures NetChosen(filter)(ledger[i]) == WeightIf(Net, StrategyOf, filter.value)(ledger[i])
      {
        assert StrategyOf(ledger[i]) == ledger[i].strategyId && Net(ledger[i]) == ledger[i].netPnl;
      }
      SumSame(ledger, NetChosen(filter), ledger, WeightIf(Net, StrategyOf, filter.value));
      if filter.value !in KeysOf(ledger, StrategyOf) {
        AbsentKeySumsToZero(ledger, StrategyOf, filter.value);
      }
    }
  }

  /** Unfiltered, both breakdowns add up to the total and to the number of entries; filtered, the
    * total is the chosen strategy's own row. Each period's figure leaves exactly what lies outside
    * the period. */
  lemma SummaryAddsUp(ledger: seq<LedgerEntry>, filter: Option<nat>,
                      today: LedgerEntry -> bool, week: LedgerEntry -> bool, month: LedgerEntry -> bool)
    ensures var s := Summarize(ledger, filter, today, week, month);
            && AllCounts(s.byStrategy) == AllCounts(s.bySymbol) == |ledger| as real
            && (filter.None? ==> AllTotals(s.byStrategy) == AllTotals(s.bySymbol) == s.total)
            && (filter.Some? ==> s.total == if filter.value in s.byStrategy then s.byStrategy[filter.value].total else 0.0)
            && s.total == s.today + SumOver(ledger, NetOver(filter, Outside(today)))
            && s.total == s.thisWeek + SumOver(ledger, NetOver(filter, Outside(week)))
            && s.total == s.thisMonth + SumOver(ledger, NetOver(filter, Outside(month)))
  {
    GroupTotalsAddUp(ledger, StrategyOf);
    GroupTotalsAddUp(ledger, SymbolOf);
    GroupCountsAddUp(ledger, StrategyOf);
    GroupCountsAddUp(ledger, SymbolOf);
    TotalIsALedgerSum(ledger, filter);
    PeriodSplitsTotal(ledger, filter, today);
    PeriodSplitsTotal(ledger, filter, week);
    PeriodSplitsTotal(ledger, filter, month);
  }
}
